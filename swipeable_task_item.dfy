/** A task row that reacts to horizontal swipes, `src/components/SwipeableTaskItem.jsx`: left to
    delete, right to complete. The swipe library's callbacks are the methods of `SwipeRow`;
    each reads the offset of the last render, as the component's closures do. The haptic calls
    and the `onDelete`, `onComplete` and `onClick` callbacks become the booleans returned. */
module SwipeableTaskItem {
  import opened Common

  /** `THRESHOLD` and `MAX_OFFSET`, in pixels. */
  const Threshold := 80
  const MaxOffset := 120
  /** Below this offset a tap still counts as a click. */
  const ClickSlop := 10

  /** `Math.max(-MAX_OFFSET, Math.min(MAX_OFFSET, deltaX))`. */
  function Clamp(deltaX: int): (offset: int)
    ensures -MaxOffset <= offset <= MaxOffset
    ensures -MaxOffset <= deltaX <= MaxOffset ==> offset == deltaX
    ensures deltaX > MaxOffset ==> offset == MaxOffset
    ensures deltaX < -MaxOffset ==> offset == -MaxOffset
  {
    Max(-MaxOffset, Min(MaxOffset, deltaX))
  }

  /** `handleClick`'s test. */
  predicate ClickFires(isSwiping: bool, offset: int) { !isSwiping && Abs(offset) < ClickSlop }

  /** The green "Complete" backing shows for a rightward offset, the red "Delete" one for a
      leftward offset; never both. */
  predicate ShowsComplete(offset: int) { offset > 0 }
  predicate ShowsDelete(offset: int) { offset < 0 }

  /** The backing's opacity, `Math.min(Math.abs(offset) / THRESHOLD, 1)`. */
  function Progress(offset: int): (p: real)
    ensures 0.0 <= p <= 1.0
    ensures p == 1.0 <==> Abs(offset) >= Threshold
    ensures offset == 0 ==> p == 0.0
  {
    if Abs(offset) >= Threshold then 1.0 else (Abs(offset) as real) / (Threshold as real)
  }

  /** The two backings exclude each other, and a row at rest shows neither and takes clicks. */
  lemma {:induction false} IndicatorsExclusive(offset: int)
    ensures !(ShowsComplete(offset) && ShowsDelete(offset))
    ensures offset == 0 <==> !ShowsComplete(offset) && !ShowsDelete(offset)
    ensures ClickFires(false, 0)
  {
  }

  /** A row whose offset is past the threshold cannot be clicked. */
  lemma {:induction false} SwipedRowIgnoresClicks(isSwiping: bool, offset: int)
    requires Abs(offset) >= Threshold
    ensures !ClickFires(isSwiping, offset) && Progress(offset) == 1.0
  {
  }

  /** The row's swipe state. */
  class SwipeRow {
    var swipeOffset: int
    var isSwiping: bool

    /** The offset stays within the clamp. */
    predicate Valid()
      reads this
    {
      -MaxOffset <= swipeOffset <= MaxOffset
    }

    constructor ()
      ensures Valid() && swipeOffset == 0 && !isSwiping
    {
      swipeOffset, isSwiping := 0, false;
    }

    /** `onSwiping`: the clamped offset follows the finger; the selection haptic fires when the
        offset reaches the threshold from below it. */
    method OnSwiping(deltaX: int) returns (selectionHaptic: bool)
      modifies this
      requires Valid()
      ensures Valid() && isSwiping && swipeOffset == Clamp(deltaX)
      ensures selectionHaptic <==> Abs(swipeOffset) >= Threshold && Abs(old(swipeOffset)) < Threshold
    {
      var previous := swipeOffset;
      isSwiping := true;
      var offset := Clamp(deltaX);
      swipeOffset := offset;
      selectionHaptic := Abs(offset) >= Threshold && Abs(previous) < Threshold;
    }

    /** `onSwipedLeft`: deletes when the offset's size reached the threshold, in either
        direction; the row then snaps back. */
    method OnSwipedLeft() returns (delete: bool)
      modifies this
      requires Valid()
      ensures delete <==> Abs(old(swipeOffset)) >= Threshold
      ensures Valid() && swipeOffset == 0 && !isSwiping
    {
      delete := Abs(swipeOffset) >= Threshold;
      swipeOffset := 0;
      isSwiping := false;
    }

    /** `onSwipedRight`: completes only for a rightward offset past the threshold; the row then
        snaps back. */
    method OnSwipedRight() returns (complete: bool)
      modifies this
      requires Valid()
      ensures complete <==> old(swipeOffset) >= Threshold
      ensures Valid() && swipeOffset == 0 && !isSwiping
    {
      complete := swipeOffset >= Threshold;
      swipeOffset := 0;
      isSwiping := false;
    }

    /** `onTouchEndOrOnMouseUp`: a short swipe snaps back, a long one stays for the swipe
        callback; the swipe ends either way. */
    method OnTouchEnd()
      modifies this
      requires Valid()
      ensures Valid() && !isSwiping
      ensures swipeOffset == if Abs(old(swipeOffset)) < Threshold then 0 else old(swipeOffset)
    {
      if Abs(swipeOffset) < Threshold {
        swipeOffset := 0;
      }
      isSwiping := false;
    }

    /** `handleClick`. */
    method HandleClick() returns (click: bool)
      ensures click == ClickFires(isSwiping, swipeOffset)
    {
      click := !isSwiping && Abs(swipeOffset) < ClickSlop;
    }
  }
}
