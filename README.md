# Swipe session, drag classification and dominant mood — a Dafny model

This project models the interaction logic of a small swipe-card front end
(juliscapucin/niet-niks). Three parts are modelled:

- **The card** (`src/components/card.tsx`, and the `Card` copy inside
  `src/components/swiper.tsx`, whose drag handlers are identical; its scale
  transform, variants and markup differ and are not modelled). The card compares the horizontal drag
  offset with two fixed thresholds: 10 for feedback and 200 for a swipe.
  While dragging, it reports an intended direction. On release, it reports
  the release direction. Past the swipe threshold it records an exit offset
  of ±250 and calls `onSwipe`. `card.dfy`, module `CardComponent`: the two
  classifications are pure functions, and the card is a class whose
  `exitX` field the release handler updates.
- **The swipe session** (`Swiper` in `src/components/swiper.tsx`). Its state
  is the remaining deck of proposals, the yes/no counters, the results,
  vote and feedback flags, and the stored drag direction. `swiper.dfy`,
  module `SwiperComponent`: a class with one method per handler.
  - The restart's delayed counter reset is the explicit step
    `FlushPendingReset`.
  - The `direction` effect is the explicit step `RunFeedbackEffect`. It
    runs only when `direction` differs from the value it last ran with.
  - `DragFront` and `ReleaseFront` wire the front card's handlers to the
    session. `handleSwipe` reads the `direction` of the last render, not the
    direction reported in the same release. The model reads the `direction`
    field for this, so a swipe is tallied by the stored direction.
    `StaleDirectionSessions` shows where this differs from the direction the
    card actually left in.
- **The dominant mood** (the effect in `src/components/results.tsx`).
  - It folds the collected moods into a totals object. The keys of that
    object enumerate in insertion order, which is the order of first
    occurrence (ECMAScript, OrdinaryOwnPropertyKeys, section 10.1.11.1).
  - It then keeps the first key with the strictly largest total.
  - `results.dfy`, module `ResultsComponent`: a loop that builds a map plus
    its key order, and a loop that tracks the current best. The fold is
    specified by two recursive functions, `Totals` and `KeyOrder`. Lemmas
    prove that these count occurrences, list each mood once by first
    occurrence, and add up to the input length. The scan is proved against
    `IsDominant`, a definition in terms of the input alone, and `IsDominant`
    is proved to pick exactly one result.

The class invariant `Swiper.Valid` states three things:
- the deck is always the initial deck with some cards removed from the front;
- the results are shown exactly when the deck is empty;
- yes plus no never exceeds the number of cards swiped since the counters
  were last cleared.

## Model

| member | source | states |
|---|---|---|
| `CardComponent.ReleaseDirection` | src/components/card.tsx:57-68 | a release swipes exactly when the offset's magnitude is strictly above 200; a left swipe has a negative offset, a right swipe a positive one |
| `CardComponent.DragDirection` | src/components/card.tsx:73-82 | a drag event reports a direction exactly when 10 < magnitude < 200, left for negative and right for positive offsets |
| `CardComponent.ExitOffset` | src/components/card.tsx:57-64 | the exit offset of a swipe has magnitude 250 and is negative exactly for a left swipe |
| `CardComponent.FeedbackAndSwipeBands` | src/components/card.tsx:57-82 | an offset that shows drag feedback never swipes on release; the offsets that do neither are magnitude ≤ 10 and exactly ±200 |
| `CardComponent.Card.constructor` | src/components/card.tsx:17-23 | a new card keeps its `isFront` and `onSwipe` props and starts with `exitX` 0 |
| `CardComponent.Card.HandleDragEnd` | src/components/card.tsx:51-69 | a non-front card fires nothing and keeps `exitX`; a front card below the threshold reports null and keeps `exitX`; past it, it sets `exitX` to the signed exit offset, reports the direction, then calls `onSwipe` once if given |
| `CardComponent.Card.HandleDrag` | src/components/card.tsx:71-83 | at most one callback per drag event: the feedback band's direction on a front card, nothing otherwise |
| `SwiperComponent.InitialProposals` | src/components/swiper.tsx:25-31 | the initial deck has five proposals with ids 1 to 5 in order |
| `SwiperComponent.Swiper.constructor` | src/components/swiper.tsx:116-123 | a session starts with the full deck, zero counters, every flag false and no direction, and keeps the class invariant |
| `SwiperComponent.Swiper.HandleRestart` | src/components/swiper.tsx:125-137 | the deck is reloaded; results, vote and feedback are hidden; direction is null; the counters are untouched; one more deferred reset is pending |
| `SwiperComponent.Swiper.FlushPendingReset` | src/components/swiper.tsx:133-136 | the deferred step zeroes both counters, consumes one pending reset, and changes nothing else |
| `SwiperComponent.Swiper.HandleSwipe` | src/components/swiper.tsx:139-163 | on an empty deck nothing changes; otherwise the deck loses exactly its front card, right adds one yes, left adds one no, null adds neither, feedback is hidden, results show iff the deck became empty, and direction is unchanged |
| `SwiperComponent.Swiper.HandleDirection` | src/components/swiper.tsx:165-167 | only `direction` changes |
| `SwiperComponent.Swiper.HandleHideVote` | src/components/swiper.tsx:169-171 | only the vote flag changes, to hidden |
| `SwiperComponent.Swiper.RunFeedbackEffect` | src/components/swiper.tsx:176-178 | when `direction` changed since the effect last ran, feedback is visible exactly for a non-null direction; otherwise feedback is untouched |
| `SwiperComponent.Swiper.DragFront` | src/components/swiper.tsx:76-88 | a drag event on the front card sets `direction` inside a feedback band and leaves everything else as it was |
| `SwiperComponent.Swiper.ReleaseFront` | src/components/swiper.tsx:56-74 | a release sets `direction` to the release direction; below the threshold, or past it on an empty deck, the deck, counters and flags are kept; past it on a non-empty deck the front card is removed, tallied by the direction stored before the release, the vote shows iff that stored direction is non-null, feedback is hidden and results show iff the deck became empty |
| `SwiperSessions.SwipeWithFeedback` | src/components/swiper.tsx:56-88 | a drag through a feedback band followed by a release past the threshold on the same side removes the front card, tallies it on that side, shows the vote, and leaves that direction stored |
| `SwiperSessions.FiveSwipeSession` | src/components/swiper.tsx:139-167 | swiping right, right, left, right, left through the feedback bands ends with 3 yes, 2 no, an empty deck and the results shown |
| `SwiperSessions.RepeatSideFeedbackSession` | src/components/swiper.tsx:176-178 | a drag right, a swipe right, then a drag right on the next card leaves `direction` right and the drag feedback hidden |
| `SwiperSessions.ShortDragSession` | src/components/swiper.tsx:56-88 | a drag to offset 11 released there leaves direction null, five cards and zero counters |
| `SwiperSessions.StaleDirectionSessions` | src/components/swiper.tsx:139-151 | after a right swipe, a left swipe with no drag event in a feedback band counts as yes; a first swipe with no such event counts as neither |
| `SwiperSessions.SwipeBeforeDeferredReset` | src/components/swiper.tsx:125-137 | a swipe made after a restart but before the deferred reset is lost when the reset fires |
| `ResultsComponent.Totals` | src/components/results.tsx:71-81 | the totals object after the `reduce`: a mood already present gets one more, a new mood gets 1; the last mood folded always has an entry, and every entry is positive |
| `ResultsComponent.KeyOrder` | src/components/results.tsx:71-81 | the key insertion order of that object, which the `for...in` scan walks: a mood is appended when its entry is created; it is never longer than the input and holds only collected moods |
| `ResultsComponent.TotalsCountOccurrences` | src/components/results.tsx:71-81 | after the fold, a mood has a total exactly when it was collected, and its total is its number of occurrences |
| `ResultsComponent.KeyOrderIsFirstSeen` | src/components/results.tsx:71-81 | the totals object's keys, in insertion order, are the collected moods, each once, ordered by first occurrence |
| `ResultsComponent.TotalsSumToLength` | src/components/results.tsx:71-81 | every key has a total, and the totals add up to the number of collected moods |
| `ResultsComponent.TallyMoods` | src/components/results.tsx:71-81 | the loop builds the fold's totals and key order, so the keys are exactly the collected moods, each total is that mood's number of occurrences, the key order lists each mood once by first occurrence, and the totals sum to the number of moods |
| `ResultsComponent.TopMood` | src/components/results.tsx:84-93 | no keys give null; otherwise the result is a key with the largest total, and every key before it has a strictly smaller total |
| `ResultsComponent.DominantFromTotals` | src/components/results.tsx:71-93 | the key that the scan picks from the tallied totals is the dominant mood of the input |
| `ResultsComponent.DominantMood` | src/components/results.tsx:71-95 | no moods give null; otherwise the result occurs in the input, no mood occurs more often, and it is seen no later than any mood tied with it |
| `ResultsComponent.DominantIsUnique` | src/components/results.tsx:84-93 | the dominant-mood definition determines the result uniquely |
| `ResultsComponent.TieGoesToFirstSeen` | src/components/results.tsx:84-93 | empty input gives null; on a tie the mood seen first is dominant and the other is not |
| `ResultsComponent.LargerCountWins` | src/components/results.tsx:86-93 | a mood with a larger count is dominant even when another mood was seen first |
| `ResultsComponent.Results.constructor` | src/components/results.tsx:65 | the final result starts as null |
| `ResultsComponent.Results.ShowResultsEffect` | src/components/results.tsx:67-96 | while the results are hidden the final result is unchanged; while they are shown it becomes the dominant mood of `moodCount` |

## Behaviour of the code worth noting

- The comparisons are strict. An offset of exactly ±200 neither swipes on
  release nor shows feedback during a drag, and an offset of exactly ±10
  shows no feedback (`FeedbackAndSwipeBands`).
- `handleSwipe` removes the front card even when the stored direction is
  null, counting it as neither yes nor no, and it never resets `direction`.
  After a release, `direction` holds the release direction.
- `handleSwipe` hides the feedback but keeps `direction`, and the feedback
  effect runs only when `direction` changes. A drag on the next card toward
  the same side as the previous swipe therefore does not show the drag
  feedback again (`RepeatSideFeedbackSession`).
- `Swiper` keeps only yes/no counters and shows results once the deck is
  empty. It renders `Results` with `showResults`, `yesCount` and `noCount`
  (src/components/swiper.tsx:186-191), but `Results` computes the dominant
  mood from a `moodCount` list (src/components/results.tsx:9, 71), which that
  call does not supply. The model therefore takes the mood list as a
  parameter of `ShowResultsEffect` and does not wire the two components
  together.

## Left out

- Animation: `useMotionValue`, the `useTransform` scale/rotate
  interpolations, variants and `AnimatePresence`. These are floating-point
  library calls. Only the `exitX` value that feeds the exit animation is
  modelled.
- Sharing (`handleShare` in src/components/results.tsx:25-64): it depends on
  `window`, `navigator.share`, the clipboard, `alert`, `window.open` and URL
  encoding, which are platform calls.
- The name and description lookup `results[finalResult]`: it reads
  `data.json`, which is not part of this model.
- Rendering: `EmptyState`, the `FeedbackDisplay` markup and CSS classes. The
  vote display's animation callback is the caller of `HandleHideVote`.
- React scheduling: batched updates and when effects and timers run. The
  300 ms timer becomes the explicit `FlushPendingReset` step and the
  direction effect the explicit `RunFeedbackEffect` step. Callers decide when
  these run.
- `SwiperComponent.Swiper.ReleaseFront`: it applies `handleSwipe` before
  `handleDirection`, while the source calls them the other way round. With
  batched updates and `handleSwipe` reading the rendered `direction`, both
  orders give the same state.
- Offsets are Dafny reals. NaN and infinite offsets are not modelled. The
  counters are unbounded integers, because JavaScript numbers count exactly
  far beyond any reachable tally.
- Page wiring (src/app/page.tsx, src/components/start.tsx) is a single
  boolean `started` toggle. Layout (src/app/layout.tsx) is fonts and page
  metadata. Neither has logic to verify.
