// The swipe session controller: the `Swiper` component of
// src/components/swiper.tsx, its state and its handlers, and the wiring of
// its front card's drag handlers to them.
module SwiperComponent {
  import opened CardComponent

  datatype Proposal = Proposal(id: int, text: string)

  /** The deck every session starts from. */
  function InitialProposals(): (deck: seq<Proposal>)
    ensures |deck| == 5
    ensures forall i :: 0 <= i < |deck| ==> deck[i].id == i + 1
  {
    [Proposal(1, "Motie 1"), Proposal(2, "Motie 2"), Proposal(3, "Motie 3"),
     Proposal(4, "Motie 4"), Proposal(5, "Motie 5")]
  }

  class Swiper {
    /** The remaining deck, front card first. */
    var proposals: seq<Proposal>
    var yesCount: int
    var noCount: int
    var showResults: bool
    var isVoteVisible: bool
    var isFeedbackVisible: bool
    /** The direction as of the last render: what the handlers read. */
    var direction: Direction
    /** The value of `direction` the feedback effect last ran with. */
    var effectDirection: Direction
    /** Deferred counter resets scheduled by a restart and not yet fired. */
    var pendingResets: nat

    /** Cards removed from the deck since the last restart. */
    ghost var removed: nat
    /** Cards removed from the deck since the counters were last zero. */
    ghost var tallied: nat

    /** The deck is always what is left of the initial deck after removing
        cards from the front; the results show exactly when it is empty; and
        the counters together never exceed the cards swiped since they were
        last cleared. */
    ghost predicate Valid()
      reads this
    {
      && removed <= |InitialProposals()|
      && proposals == InitialProposals()[removed..]
      && showResults == (proposals == [])
      && 0 <= yesCount && 0 <= noCount
      && yesCount + noCount <= tallied
    }

    constructor ()
      ensures Valid()
      ensures proposals == InitialProposals()
      ensures yesCount == 0 && noCount == 0
      ensures !showResults && !isVoteVisible && !isFeedbackVisible
      ensures direction == NoDirection && effectDirection == NoDirection
      ensures pendingResets == 0
      ensures removed == 0 && tallied == 0
    {
      proposals := InitialProposals();
      yesCount, noCount := 0, 0;
      showResults, isVoteVisible, isFeedbackVisible := false, false, false;
      direction, effectDirection := NoDirection, NoDirection;
      pendingResets := 0;
      removed, tallied := 0, 0;
    }

    /** handleRestart: reload the deck and hide everything at once; the
        counters are cleared later, by FlushPendingReset. */
    method HandleRestart()
      requires Valid()
      modifies this
      ensures Valid()
      ensures proposals == InitialProposals()
      ensures !showResults && !isVoteVisible && !isFeedbackVisible
      ensures direction == NoDirection
      ensures yesCount == old(yesCount) && noCount == old(noCount)
      ensures pendingResets == old(pendingResets) + 1
      ensures effectDirection == old(effectDirection)
      ensures removed == 0 && tallied == old(tallied)
    {
      showResults := false;
      proposals := InitialProposals();
      isVoteVisible := false;
      isFeedbackVisible := false;
      direction := NoDirection;
      pendingResets := pendingResets + 1;
      removed := 0;
    }

    /** The deferred step scheduled by handleRestart: clear both counters. */
    method FlushPendingReset()
      requires Valid()
      requires pendingResets > 0
      modifies this
      ensures Valid()
      ensures yesCount == 0 && noCount == 0
      ensures pendingResets == old(pendingResets) - 1
      ensures proposals == old(proposals) && showResults == old(showResults)
      ensures isVoteVisible == old(isVoteVisible) && isFeedbackVisible == old(isFeedbackVisible)
      ensures direction == old(direction) && effectDirection == old(effectDirection)
      ensures removed == old(removed) && tallied == 0
    {
      yesCount := 0;
      noCount := 0;
      pendingResets := pendingResets - 1;
      tallied := 0;
    }

    /** handleSwipe: remove the front card and tally it by the stored
        `direction`; on an empty deck nothing happens. */
    method HandleSwipe()
      requires Valid()
      modifies this
      ensures Valid()
      ensures old(proposals) == [] ==>
                && proposals == old(proposals)
                && yesCount == old(yesCount) && noCount == old(noCount)
                && showResults == old(showResults)
                && isVoteVisible == old(isVoteVisible) && isFeedbackVisible == old(isFeedbackVisible)
      ensures old(proposals) != [] ==>
                && proposals == old(proposals)[1..]
                && yesCount == old(yesCount) + (if old(direction) == Right then 1 else 0)
                && noCount == old(noCount) + (if old(direction) == Left then 1 else 0)
                && isVoteVisible == (old(isVoteVisible) || old(direction) != NoDirection)
                && !isFeedbackVisible
                && showResults == (old(showResults) || proposals == [])
      ensures direction == old(direction) && effectDirection == old(effectDirection)
      ensures pendingResets == old(pendingResets)
      ensures removed == old(removed) + (if old(proposals) != [] then 1 else 0)
      ensures tallied == old(tallied) + (if old(proposals) != [] then 1 else 0)
    {
      if proposals == [] {
        return;
      }
      var rest := proposals[1..];
      if direction == Right {
        isVoteVisible := true;
        yesCount := yesCount + 1;
      }
      if direction == Left {
        isVoteVisible := true;
        noCount := noCount + 1;
      }
      isFeedbackVisible := false;
      proposals := rest;
      removed, tallied := removed + 1, tallied + 1;
      if |rest| == 0 {
        showResults := true;
      }
    }

    /** handleDirection: record the drag intent. */
    method HandleDirection(d: Direction)
      requires Valid()
      modifies this
      ensures Valid()
      ensures direction == d
      ensures proposals == old(proposals) && yesCount == old(yesCount) && noCount == old(noCount)
      ensures showResults == old(showResults)
      ensures isVoteVisible == old(isVoteVisible) && isFeedbackVisible == old(isFeedbackVisible)
      ensures effectDirection == old(effectDirection) && pendingResets == old(pendingResets)
      ensures removed == old(removed) && tallied == old(tallied)
    {
      direction := d;
    }

    /** handleHideVote: the vote feedback finished its animation. */
    method HandleHideVote()
      requires Valid()
      modifies this
      ensures Valid()
      ensures !isVoteVisible
      ensures proposals == old(proposals) && yesCount == old(yesCount) && noCount == old(noCount)
      ensures showResults == old(showResults) && isFeedbackVisible == old(isFeedbackVisible)
      ensures direction == old(direction) && effectDirection == old(effectDirection)
      ensures pendingResets == old(pendingResets)
      ensures removed == old(removed) && tallied == old(tallied)
    {
      isVoteVisible := false;
    }

    /** The effect that depends on `direction`: when `direction` differs from
        the value it last ran with, feedback is shown exactly for a non-null
        direction; otherwise the effect does not run. */
    method RunFeedbackEffect()
      requires Valid()
      modifies this
      ensures Valid()
      ensures effectDirection == direction
      ensures direction != old(effectDirection) ==> isFeedbackVisible == (direction != NoDirection)
      ensures direction == old(effectDirection) ==> isFeedbackVisible == old(isFeedbackVisible)
      ensures proposals == old(proposals) && yesCount == old(yesCount) && noCount == old(noCount)
      ensures showResults == old(showResults) && isVoteVisible == old(isVoteVisible)
      ensures direction == old(direction) && pendingResets == old(pendingResets)
      ensures removed == old(removed) && tallied == old(tallied)
    {
      if direction != effectDirection {
        isFeedbackVisible := direction != NoDirection;
        effectDirection := direction;
      }
    }

    /** A drag event on the front card: its handleDragStart reports an intent
        only inside one of the two feedback bands. */
    method DragFront(x: real)
      requires Valid()
      modifies this
      ensures Valid()
      ensures direction == if DragDirection(x) != NoDirection then DragDirection(x) else old(direction)
      ensures proposals == old(proposals) && yesCount == old(yesCount) && noCount == old(noCount)
      ensures showResults == old(showResults)
      ensures isVoteVisible == old(isVoteVisible) && isFeedbackVisible == old(isFeedbackVisible)
      ensures effectDirection == old(effectDirection) && pendingResets == old(pendingResets)
      ensures removed == old(removed) && tallied == old(tallied)
    {
      var d := DragDirection(x);
      if d != NoDirection {
        HandleDirection(d);
      }
    }

    /** The end of a drag on the front card: its handleDragEnd reports the
        release direction and, past the threshold, calls handleSwipe. Both
        handlers run against the last render, so handleSwipe tallies the
        `direction` stored before this release, not the one just reported;
        the reported direction is what `direction` holds afterwards. */
    method ReleaseFront(x: real)
      requires Valid()
      modifies this
      ensures Valid()
      ensures direction == ReleaseDirection(x)
      ensures ReleaseDirection(x) == NoDirection ==>
                && proposals == old(proposals)
                && yesCount == old(yesCount) && noCount == old(noCount)
                && showResults == old(showResults)
                && isVoteVisible == old(isVoteVisible) && isFeedbackVisible == old(isFeedbackVisible)
      ensures ReleaseDirection(x) != NoDirection && old(proposals) == [] ==>
                && proposals == old(proposals)
                && yesCount == old(yesCount) && noCount == old(noCount)
                && showResults == old(showResults)
                && isVoteVisible == old(isVoteVisible) && isFeedbackVisible == old(isFeedbackVisible)
      ensures ReleaseDirection(x) != NoDirection && old(proposals) != [] ==>
                && proposals == old(proposals)[1..]
                && showResults == (proposals == [])
                && yesCount == old(yesCount) + (if old(direction) == Right then 1 else 0)
                && noCount == old(noCount) + (if old(direction) == Left then 1 else 0)
                && isVoteVisible == (old(isVoteVisible) || old(direction) != NoDirection)
                && !isFeedbackVisible
      ensures effectDirection == old(effectDirection) && pendingResets == old(pendingResets)
      ensures var swiped := if ReleaseDirection(x) != NoDirection && old(proposals) != [] then 1 else 0;
              removed == old(removed) + swiped && tallied == old(tallied) + swiped
    {
      var d := ReleaseDirection(x);
      if d != NoDirection {
        HandleSwipe();
      }
      HandleDirection(d);
    }
  }
}

// Client sessions driving a Swiper through the handlers above.
module SwiperSessions {
  import opened CardComponent
  import opened SwiperComponent

  /** One swipe as the user makes it: a drag through the feedback band on
      the chosen side, then a release past the swipe threshold on that side.
      The card is removed and tallied on that side. */
  method SwipeWithFeedback(s: Swiper, right: bool)
    requires s.Valid() && s.proposals != []
    modifies s
    ensures s.Valid()
    ensures s.proposals == old(s.proposals)[1..]
    ensures s.showResults == (s.proposals == [])
    ensures s.yesCount == old(s.yesCount) + (if right then 1 else 0)
    ensures s.noCount == old(s.noCount) + (if right then 0 else 1)
    ensures s.direction == (if right then Right else Left)
    ensures s.pendingResets == old(s.pendingResets)
    ensures s.isVoteVisible && !s.isFeedbackVisible
    ensures s.tallied == old(s.tallied) + 1
  {
    var x := if right then 50.0 else -50.0;
    s.DragFront(x);
    s.ReleaseFront(5.0 * x);
  }

  /** Five cards swiped right, right, left, right, left, each after a drag
      through the matching feedback band, end in three yes, two no, an empty
      deck and the results shown. */
  method FiveSwipeSession() returns (yes: int, no: int, remaining: nat, finished: bool)
    ensures yes == 3 && no == 2 && remaining == 0 && finished
  {
    var s := new Swiper();
    SwipeWithFeedback(s, true);
    SwipeWithFeedback(s, true);
    SwipeWithFeedback(s, false);
    SwipeWithFeedback(s, true);
    SwipeWithFeedback(s, false);
    yes, no, remaining, finished := s.yesCount, s.noCount, |s.proposals|, s.showResults;
  }

  /** The feedback effect runs only when `direction` changes. A swipe hides
      the feedback but keeps `direction`, so a drag on the next card toward the
      same side sets the same value, the effect does not run, and the drag
      feedback stays hidden for that card. */
  method RepeatSideFeedbackSession() returns (d: Direction, feedback: bool)
    ensures d == Right && !feedback
  {
    var s := new Swiper();
    s.DragFront(50.0);    s.RunFeedbackEffect();
    s.ReleaseFront(250.0); s.RunFeedbackEffect();
    s.DragFront(50.0);    s.RunFeedbackEffect();
    d, feedback := s.direction, s.isFeedbackVisible;
  }

  /** A drag to just past the feedback threshold that is released there
      resets the direction and leaves the deck and the counters alone. */
  method ShortDragSession() returns (d: Direction, remaining: nat, yes: int, no: int)
    ensures d == NoDirection && remaining == 5 && yes == 0 && no == 0
  {
    var s := new Swiper();
    s.DragFront(DragFeedbackThreshold + 1.0);
    s.ReleaseFront(DragFeedbackThreshold + 1.0);
    d, remaining, yes, no := s.direction, |s.proposals|, s.yesCount, s.noCount;
  }

  /** The tally follows the stored direction: after a right swipe, a left
      flick that produced no drag event inside a feedback band is counted as
      yes, and a first flick with no such event is counted nowhere. */
  method StaleDirectionSessions() returns (yes1: int, no1: int, yes2: int, no2: int, remaining2: nat)
    ensures yes1 == 2 && no1 == 0
    ensures yes2 == 0 && no2 == 0 && remaining2 == 4
  {
    var s := new Swiper();
    SwipeWithFeedback(s, true);
    s.ReleaseFront(-250.0);
    yes1, no1 := s.yesCount, s.noCount;

    var t := new Swiper();
    t.ReleaseFront(300.0);
    yes2, no2, remaining2 := t.yesCount, t.noCount, |t.proposals|;
  }

  /** A swipe made after a restart but before the deferred reset fires is
      wiped from the counters by that reset. */
  method SwipeBeforeDeferredReset() returns (yes: int, no: int, remaining: nat)
    ensures yes == 0 && no == 0 && remaining == 4
  {
    var s := new Swiper();
    SwipeWithFeedback(s, true);
    s.HandleRestart();
    SwipeWithFeedback(s, true);
    s.FlushPendingReset();
    yes, no, remaining := s.yesCount, s.noCount, |s.proposals|;
  }
}
