// The drag handlers of a swipe card: src/components/card.tsx, and the
// `Card` copy inside src/components/swiper.tsx, whose drag handlers are
// identical (its animation and markup differ).
// A card classifies the horizontal drag offset against two fixed thresholds
// and reports a direction (and, on release, possibly a swipe) to its parent.
module CardComponent {

  /** The direction a card reports to its parent: 'left', 'right' or null. */
  datatype Direction = Left | Right | NoDirection

  /** Released beyond this horizontal offset, in either direction, the card is swiped. */
  const SwipeThreshold: real := 200.0

  /** Dragged beyond this offset, but short of SwipeThreshold, the card reports an intent. */
  const DragFeedbackThreshold: real := 10.0

  /** The horizontal distance the swiped card's exit animation travels. */
  const CardExitDistance: int := 250

  function Abs(x: real): real
  {
    if x < 0.0 then -x else x
  }

  /** A callback the card fires on its parent. */
  datatype Callback = DirectionChange(dir: Direction) | SwipeCall

  /** The direction the front card reports when the drag is released at offset `x`.
      A swipe happens exactly when this is not NoDirection. */
  function ReleaseDirection(x: real): (d: Direction)
    ensures d != NoDirection <==> Abs(x) > SwipeThreshold
    ensures d == Left ==> x < 0.0
    ensures d == Right ==> x > 0.0
  {
    if x < -SwipeThreshold then Left
    else if x > SwipeThreshold then Right
    else NoDirection
  }

  /** The direction the front card reports on a drag event at offset `x`;
      NoDirection stands for "no callback at all". */
  function DragDirection(x: real): (d: Direction)
    ensures d != NoDirection <==> DragFeedbackThreshold < Abs(x) < SwipeThreshold
    ensures d == Left ==> x < 0.0
    ensures d == Right ==> x > 0.0
  {
    if -SwipeThreshold < x < -DragFeedbackThreshold then Left
    else if DragFeedbackThreshold < x < SwipeThreshold then Right
    else NoDirection
  }

  /** The exit offset recorded for a swipe in direction `d`. */
  function ExitOffset(d: Direction): (e: int)
    requires d != NoDirection
    ensures e == CardExitDistance || e == -CardExitDistance
    ensures e < 0 <==> d == Left
  {
    if d == Left then -CardExitDistance else CardExitDistance
  }

  /** An offset that shows feedback during a drag never swipes on release, and
      the offsets that do neither are |x| <= 10 and exactly |x| == 200. */
  lemma FeedbackAndSwipeBands(x: real)
    ensures DragDirection(x) != NoDirection ==> ReleaseDirection(x) == NoDirection
    ensures (DragDirection(x) == NoDirection && ReleaseDirection(x) == NoDirection)
            <==> (Abs(x) <= DragFeedbackThreshold || Abs(x) == SwipeThreshold)
  {
  }

  class Card {
    /** Whether this card is the front card of the deck. */
    const isFront: bool
    /** Whether the parent passed an `onSwipe` callback. */
    const hasOnSwipe: bool
    /** The horizontal target of the exit animation. */
    var exitX: int

    constructor (isFront: bool, hasOnSwipe: bool)
      ensures this.isFront == isFront && this.hasOnSwipe == hasOnSwipe
      ensures exitX == 0
    {
      this.isFront := isFront;
      this.hasOnSwipe := hasOnSwipe;
      exitX := 0;
    }

    /** handleDragEnd: the callbacks fired, in order, when a drag ends at offset `x`. */
    method HandleDragEnd(x: real) returns (calls: seq<Callback>)
      modifies this`exitX
      ensures !isFront ==> calls == [] && exitX == old(exitX)
      ensures isFront && ReleaseDirection(x) == NoDirection ==>
                calls == [DirectionChange(NoDirection)] && exitX == old(exitX)
      ensures isFront && ReleaseDirection(x) != NoDirection ==>
                && exitX == ExitOffset(ReleaseDirection(x))
                && calls == [DirectionChange(ReleaseDirection(x))] + (if hasOnSwipe then [SwipeCall] else [])
    {
      calls := [];
      if !isFront {
        return;
      }
      if x < -SwipeThreshold {
        exitX := -CardExitDistance;
        calls := calls + [DirectionChange(Left)];
        if hasOnSwipe {
          calls := calls + [SwipeCall];
        }
      } else if x > SwipeThreshold {
        exitX := CardExitDistance;
        calls := calls + [DirectionChange(Right)];
        if hasOnSwipe {
          calls := calls + [SwipeCall];
        }
      } else {
        calls := calls + [DirectionChange(NoDirection)];
      }
    }

    /** handleDragStart, run on every drag event: two independent tests, of
        which at most one can fire. */
    method HandleDrag(x: real) returns (calls: seq<Callback>)
      ensures |calls| <= 1
      ensures calls == if isFront && DragDirection(x) != NoDirection
                       then [DirectionChange(DragDirection(x))] else []
    {
      calls := [];
      if !isFront {
        return;
      }
      if x < -DragFeedbackThreshold && x > -SwipeThreshold {
        calls := calls + [DirectionChange(Left)];
      }
      if x > DragFeedbackThreshold && x < SwipeThreshold {
        calls := calls + [DirectionChange(Right)];
      }
    }
  }
}
