/** The new-task dialog of `src/components/AddTaskModal.jsx`: a title, an effort in days read
    from a number input, and the submit that adds the task to the day. */
module AddTaskModal {
  import opened Common
  import opened Text
  import opened DateUtils
  import opened AppState

  /** `Math.max(1, parseInt(text) || 1)`: what the effort becomes when the input changes.
      Text that does not parse, and zero, fall back to one. */
  function DaysFromInput(text: string): (days: int)
    ensures days >= 1
    ensures ParseInt(text).Some? && ParseInt(text).value != 0 ==> days == Max(1, ParseInt(text).value)
    ensures ParseInt(text).None? || ParseInt(text).value == 0 ==> days == 1
  {
    Max(1, OrOne(ParseInt(text)))
  }

  /** Typing a positive number gives exactly that number, however large: the input's `max` of
      365 is not enforced. */
  lemma {:induction false} TypedDaysRoundTrip(n: int)
    requires n >= 1
    ensures DaysFromInput(IntToString(n)) == n
  {
    ParseIntOfIntToString(n);
  }

  /** The dialog's fields. */
  class AddTaskForm {
    var title: string
    var estimatedDays: int

    /** The effort is at least one day. */
    predicate Valid()
      reads this
    {
      estimatedDays >= 1
    }

    constructor ()
      ensures Valid() && title == "" && estimatedDays == 1
    {
      title := "";
      estimatedDays := 1;
    }

    method EditTitle(text: string)
      modifies this
      requires Valid()
      ensures Valid() && title == text && estimatedDays == old(estimatedDays)
    {
      title := text;
    }

    /** The number input's `onChange`. */
    method EditDays(text: string)
      modifies this
      requires Valid()
      ensures Valid() && estimatedDays == DaysFromInput(text) && title == old(title)
    {
      estimatedDays := DaysFromInput(text);
    }

    /** The submit button is disabled while the title has no text besides white space. */
    predicate SubmitDisabled()
      reads this
    {
      Trim(title) == []
    }

    /** `handleSubmit`: a title with text adds the task under the trimmed title with the
        chosen effort, and the dialog closes; otherwise nothing happens. */
    method HandleSubmit(projectId: string, date: Moment) returns (add: Option<Action>, close: bool)
      ensures add.Some? <==> !SubmitDisabled()
      ensures close <==> add.Some?
      ensures add.Some? ==> add.value == AddTask(projectId, date, Trim(title), Some(estimatedDays))
    {
      add, close := None, false;
      var trimmed := Trim(title);
      if trimmed != [] {
        add := Some(AddTask(projectId, date, trimmed, Some(estimatedDays)));
        close := true;
      }
    }
  }

  /** The task the reducer stores for a submit carries the trimmed title and exactly the effort
      the dialog showed, since that effort is never zero. */
  lemma {:induction false} SubmittedTaskKeepsEffort(s: State, projectId: string, date: Moment, title: string,
                                                    days: int, freshId: string, now: string)
    requires days >= 1
    ensures var r := Reduce(s, AddTask(projectId, date, title, Some(days)), freshId, now);
            var ts := TasksAt(r.tasks, projectId, FormatDateKey(date));
            |ts| >= 1 && ts[|ts| - 1].estimatedDays == days && ts[|ts| - 1].title == title
            && ts[|ts| - 1].status == "not_started"
  {
    AddTaskAppends(s, projectId, date, title, Some(days), freshId, now, projectId, FormatDateKey(date));
  }
}
