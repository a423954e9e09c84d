/** The bottom sheet of task settings, `src/components/TaskSettingsDrawer.jsx`: drag it down to
    close it, and pick status, priority and effort. The callbacks it is given become the values
    its handlers return. */
module TaskSettingsDrawer {
  import opened Common
  import opened AppState
  import TaskDetailsPanel

  /** Dragging further than this closes the sheet. */
  const CloseDistance := 100

  /** `STATUS_OPTIONS` and `PRIORITY_OPTIONS`, by key. */
  const StatusKeys: seq<string> := TaskDetailsPanel.StatusKeys
  const PriorityKeys: seq<string> := ["urgent", "high", "normal", "low"]
  const PriorityColors: seq<string> := ["#ef4444", "#f59e0b", "#3b82f6", "#10b981"]

  /** The highlighted status button and priority button: the ones whose key the task holds. */
  predicate StatusActive(t: Task, i: int) requires 0 <= i < |StatusKeys| { t.status == StatusKeys[i] }
  predicate PriorityActive(t: Task, i: int) requires 0 <= i < |PriorityKeys| { t.priority == Some(PriorityKeys[i]) }

  /** The keys are distinct, so at most one button of each row is highlighted. */
  lemma {:induction false} OneActiveButton(t: Task, i: int, j: int)
    requires 0 <= i < 4 && 0 <= j < 4
    ensures StatusActive(t, i) && StatusActive(t, j) ==> i == j
    ensures PriorityActive(t, i) && PriorityActive(t, j) ==> i == j
  {
    assert StatusKeys == ["not_started", "ongoing", "done", "canceled"];
  }

  /** The minus button's value: one day less, never below one. */
  function MinusValue(t: Task): (days: int)
    ensures days >= 1 && (t.estimatedDays >= 2 ==> days == t.estimatedDays - 1)
  {
    Max(1, t.estimatedDays - 1)
  }

  /** The plus button's value: one day more. */
  function PlusValue(t: Task): (days: int)
    ensures days == t.estimatedDays + 1
  {
    t.estimatedDays + 1
  }

  /** The sheet's buttons send the same estimates as the side panel's. */
  lemma {:induction false} ButtonsMatchPanel(t: Task)
    ensures TaskDetailsPanel.EffortChange(t, -1).updates.estimatedDays == Some(MinusValue(t))
    ensures TaskDetailsPanel.EffortChange(t, 1).updates.estimatedDays == Some(Max(1, PlusValue(t)))
  {
  }

  /** The sheet's drag state. */
  class Drawer {
    var startY: int
    var currentY: int
    var isDragging: bool

    /** The sheet is never pulled up. */
    predicate Valid()
      reads this
    {
      currentY >= 0
    }

    constructor ()
      ensures Valid() && startY == 0 && currentY == 0 && !isDragging
    {
      startY, currentY, isDragging := 0, 0, false;
    }

    /** `handleTouchStart`. */
    method HandleTouchStart(y: int)
      modifies this
      requires Valid()
      ensures Valid() && startY == y && isDragging && currentY == old(currentY)
    {
      startY := y;
      isDragging := true;
    }

    /** `handleTouchMove`: only a drag in progress moves the sheet, and only downward. */
    method HandleTouchMove(y: int)
      modifies this
      requires Valid()
      ensures Valid() && startY == old(startY) && isDragging == old(isDragging)
      ensures currentY == if old(isDragging) && y - old(startY) > 0 then y - old(startY) else old(currentY)
    {
      if !isDragging {
        return;
      }
      var diff := y - startY;
      if diff > 0 {
        currentY := diff;
      }
    }

    /** `handleTouchEnd`: the sheet asks to close when pulled more than 100 pixels; either way
        it springs back and the drag ends. */
    method HandleTouchEnd() returns (close: bool)
      modifies this
      requires Valid()
      ensures close <==> old(currentY) > CloseDistance
      ensures Valid() && currentY == 0 && !isDragging && startY == old(startY)
    {
      close := currentY > CloseDistance;
      currentY := 0;
      isDragging := false;
    }

    /** The sheet's offset, applied only while it is pulled down. */
    function Transform(): (offset: Option<int>)
      reads this
      requires Valid()
      ensures offset.Some? <==> currentY > 0
      ensures offset.Some? ==> offset.value == currentY && offset.value > 0
    {
      if currentY > 0 then Some(currentY) else None
    }
  }
}
