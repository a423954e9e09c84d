/** The side panel of the selected task, `src/components/TaskDetailsPanel.jsx`: its local title
    and description, the saves on blur, the effort buttons, copying to another date and the
    AI rewrite of the description. Each handler returns the action it dispatches (or none); the
    AI service and the date picker's parsing are parameters. */
module TaskDetailsPanel {
  import opened Common
  import opened Text
  import opened DateUtils
  import opened AppState

  /** `STATUS_OPTIONS`, keys and labels. */
  const StatusKeys: seq<string> := ["not_started", "ongoing", "done", "canceled"]
  const StatusLabels: seq<string> := ["To Do", "In Progress", "Done", "Canceled"]

  function TitlePatch(title: string): TaskPatch { TaskPatch(Some(title), None, None, None, None, None, None) }
  function DescriptionPatch(d: string): TaskPatch { TaskPatch(None, Some(d), None, None, None, None, None) }
  function StatusPatch(s: string): TaskPatch { TaskPatch(None, None, None, Some(s), None, None, None) }
  function EffortPatch(days: int): TaskPatch { TaskPatch(None, None, None, None, None, Some(days), None) }

  /** Each single-key patch changes exactly its own field of the task. */
  lemma {:induction false} PatchesTouchOneField(t: Task, s: string, days: int)
    ensures MergeTask(t, TitlePatch(s)) == t.(title := s)
    ensures MergeTask(t, DescriptionPatch(s)) == t.(description := Some(s))
    ensures MergeTask(t, StatusPatch(s)) == t.(status := s)
    ensures MergeTask(t, EffortPatch(days)) == t.(estimatedDays := days)
  {
  }

  // ---------------------------------------------------------------- effort

  /** `handleEstimatedDaysChange(delta)`: the new estimate, never below one day. */
  function EffortChange(t: Task, delta: int): (a: Action)
    ensures a.UpdateTask? && a.projectId == t.projectId && a.taskId == t.id
    ensures a.updates == EffortPatch(Max(1, t.estimatedDays + delta))
  {
    UpdateTask(t.projectId, t.id, EffortPatch(Max(1, t.estimatedDays + delta)))
  }

  /** The decrement button is disabled at one day or less. */
  predicate DecrementDisabled(t: Task) { t.estimatedDays <= 1 }

  /** `day` for one, `days` otherwise. */
  function EffortUnit(days: int): (u: string)
    ensures u == "day" <==> days == 1
  {
    if days != 1 then "days" else "day"
  }

  /** Saving an effort change leaves an estimate of at least one day; an enabled decrement
      takes exactly one day off and the increment adds exactly one to a positive estimate. */
  lemma {:induction false} EffortStaysPositive(t: Task, delta: int)
    ensures MergeTask(t, EffortChange(t, delta).updates).estimatedDays >= 1
    ensures !DecrementDisabled(t) ==> MergeTask(t, EffortChange(t, -1).updates).estimatedDays == t.estimatedDays - 1
    ensures t.estimatedDays >= 1 ==> MergeTask(t, EffortChange(t, 1).updates).estimatedDays == t.estimatedDays + 1
    ensures MergeTask(t, EffortChange(t, delta).updates) == t.(estimatedDays := Max(1, t.estimatedDays + delta))
  {
  }

  // ---------------------------------------------------------------- other single actions

  /** `handleStatusChange(status)`. */
  function StatusChange(t: Task, status: string): (a: Action)
    ensures a == UpdateTask(t.projectId, t.id, StatusPatch(status))
  {
    UpdateTask(t.projectId, t.id, StatusPatch(status))
  }

  /** `handleClose`: clears the selection. */
  function CloseAction(): Action { SelectTask(None) }

  /** `handleDelete`, with the user's answer to the confirmation passed in. */
  function DeleteAction(t: Task, confirmed: bool): (a: Option<Action>)
    ensures a.Some? <==> confirmed
    ensures a.Some? ==> a.value == DeleteTask(t.projectId, t.id, t.date)
  {
    if confirmed then Some(DeleteTask(t.projectId, t.id, t.date)) else None
  }

  /** `handleCopyToTomorrow`, with the clock reading passed in. */
  function CopyToTomorrow(t: Task, now: Moment): (a: Action)
    ensures a.CopyTaskToDate? && a.task == t && a.targetDate.date == NextDate(now.date)
  {
    CopyTaskToDate(t, NextDay(now))
  }

  /** What the AI service answered. */
  datatype AiOutcome = Improved(text: string) | Failed(message: string)

  /** `task.description !== description` as written: a task without a description differs from
      every local text, the empty one included. */
  predicate DescriptionDiffersAsWritten(local: string, stored: Option<string>) {
    stored.None? || stored.value != local
  }

  /** The comparison the blur handler intends: the local text against the text the panel shows
      for the task, `task.description || ''`. */
  predicate DescriptionDiffers(local: string, stored: Option<string>) {
    stored.GetOr("") != local
  }

  /** The two comparisons disagree exactly on a task without a description whose local text is
      empty, the text the panel loads for such a task. */
  lemma {:induction false} DescriptionComparisonsDisagree(local: string, stored: Option<string>)
    ensures (DescriptionDiffersAsWritten(local, stored) != DescriptionDiffers(local, stored))
              <==> stored.None? && local == ""
  {
  }

  /** The panel's local edits and its request state. */
  class TaskPanel {
    var title: string
    var description: string
    var showDatePicker: bool
    var copyDate: string
    var showAiMenu: bool
    var aiLoading: bool
    var aiError: string
    /** The task id the last resynchronisation saw, once the panel has mounted. */
    var syncedId: Option<Option<string>>

    constructor ()
      ensures title == "" && description == "" && !showDatePicker && copyDate == ""
      ensures !showAiMenu && !aiLoading && aiError == "" && syncedId.None?
    {
      title, description, showDatePicker, copyDate := "", "", false, "";
      showAiMenu, aiLoading, aiError, syncedId := false, false, "", None;
    }

    /** The effect on `task?.id`: on mount and whenever the selected task's id changes, the
        local title and description are reloaded from the task (a missing description as empty
        text); a re-render with the same id keeps the local edits. */
    method Sync(task: Option<Task>)
      modifies this
      ensures var id := if task.Some? then Some(task.value.id) else None;
              var runs := old(syncedId) != Some(id);
              syncedId == Some(id)
              && (runs && task.Some? ==> title == task.value.title && description == task.value.description.GetOr(""))
              && (!runs || task.None? ==> title == old(title) && description == old(description))
      ensures showDatePicker == old(showDatePicker) && copyDate == old(copyDate)
      ensures showAiMenu == old(showAiMenu) && aiLoading == old(aiLoading) && aiError == old(aiError)
    {
      var id := if task.Some? then Some(task.value.id) else None;
      if syncedId != Some(id) {
        syncedId := Some(id);
        if task.Some? {
          title := task.value.title;
          description := task.value.description.GetOr("");
        }
      }
    }

    method EditTitle(text: string)
      modifies this
      ensures title == text && description == old(description) && syncedId == old(syncedId)
      ensures showDatePicker == old(showDatePicker) && copyDate == old(copyDate)
      ensures showAiMenu == old(showAiMenu) && aiLoading == old(aiLoading) && aiError == old(aiError)
    {
      title := text;
    }

    method EditDescription(text: string)
      modifies this
      ensures description == text && title == old(title) && syncedId == old(syncedId)
      ensures showDatePicker == old(showDatePicker) && copyDate == old(copyDate)
      ensures showAiMenu == old(showAiMenu) && aiLoading == old(aiLoading) && aiError == old(aiError)
    {
      description := text;
    }

    /** `handleTitleBlur`: the trimmed title is saved when it has text and the local title
        differs from the stored one. */
    method HandleTitleBlur(task: Task) returns (update: Option<Action>)
      ensures update.Some? <==> TitleBlurSaves(title, task.title)
      ensures update.Some? ==> update.value == UpdateTask(task.projectId, task.id, TitlePatch(Trim(title)))
    {
      update := None;
      var trimmed := Trim(title);
      if trimmed != [] && title != task.title {
        update := Some(UpdateTask(task.projectId, task.id, TitlePatch(trimmed)));
      }
    }

    /** `handleDescriptionBlur` as written: it also saves an empty description for a task that
        has none. */
    method HandleDescriptionBlurAsWritten(task: Task) returns (update: Option<Action>)
      ensures update.Some? <==> DescriptionDiffersAsWritten(description, task.description)
      ensures update.Some? ==> update.value == UpdateTask(task.projectId, task.id, DescriptionPatch(description))
    {
      update := None;
      if task.description.None? || task.description.value != description {
        update := Some(UpdateTask(task.projectId, task.id, DescriptionPatch(description)));
      }
    }

    /** `handleDescriptionBlur`, saving only a description that differs from the one shown. */
    method HandleDescriptionBlur(task: Task) returns (update: Option<Action>)
      ensures update.Some? <==> DescriptionDiffers(description, task.description)
      ensures update.Some? ==> update.value == UpdateTask(task.projectId, task.id, DescriptionPatch(description))
    {
      update := None;
      if task.description.GetOr("") != description {
        update := Some(UpdateTask(task.projectId, task.id, DescriptionPatch(description)));
      }
    }

    method OpenDatePicker(date: string)
      modifies this
      ensures showDatePicker && copyDate == date
      ensures title == old(title) && description == old(description) && syncedId == old(syncedId)
      ensures showAiMenu == old(showAiMenu) && aiLoading == old(aiLoading) && aiError == old(aiError)
    {
      showDatePicker := true;
      copyDate := date;
    }

    /** `handleCopyToDate`: nothing without a picked date; otherwise the task is copied to the
        picked day, the picker closes and the date clears. `target` is `new Date(copyDate +
        'T00:00:00')`: the local midnight of the day whose key the date input holds. */
    method HandleCopyToDate(task: Task, target: Moment) returns (copy: Option<Action>)
      modifies this
      requires copyDate != "" ==> FormatDateKey(target) == copyDate && target.millis == 0
      ensures copy.Some? <==> old(copyDate) != ""
      ensures copy.Some? ==> copy.value == CopyTaskToDate(task, target) && !showDatePicker && copyDate == ""
      ensures copy.Some? ==> FormatDateKey(copy.value.targetDate) == old(copyDate)
      ensures copy.None? ==> showDatePicker == old(showDatePicker) && copyDate == old(copyDate)
      ensures title == old(title) && description == old(description) && syncedId == old(syncedId)
      ensures showAiMenu == old(showAiMenu) && aiLoading == old(aiLoading) && aiError == old(aiError)
    {
      copy := None;
      if copyDate != "" {
        copy := Some(CopyTaskToDate(task, target));
        showDatePicker := false;
        copyDate := "";
      }
    }

    method ToggleAiMenu()
      modifies this
      ensures showAiMenu == !old(showAiMenu)
      ensures title == old(title) && description == old(description) && syncedId == old(syncedId)
      ensures showDatePicker == old(showDatePicker) && copyDate == old(copyDate)
      ensures aiLoading == old(aiLoading) && aiError == old(aiError)
    {
      showAiMenu := !showAiMenu;
    }

    /** The synchronous start of `handleAiImprove`: the menu closes, the error clears and the
        request is loading. */
    method StartAiImprove()
      modifies this
      ensures !showAiMenu && aiError == "" && aiLoading
      ensures title == old(title) && description == old(description) && syncedId == old(syncedId)
      ensures showDatePicker == old(showDatePicker) && copyDate == old(copyDate)
    {
      showAiMenu := false;
      aiError := "";
      aiLoading := true;
    }

    /** The rest of `handleAiImprove`, once the service answers: an improved text replaces the
        description and is saved; a failure keeps the description and shows the message;
        loading ends either way. */
    method FinishAiImprove(task: Task, outcome: AiOutcome) returns (update: Option<Action>)
      modifies this
      ensures !aiLoading
      ensures outcome.Improved? ==> description == outcome.text && aiError == old(aiError)
                                    && update == Some(UpdateTask(task.projectId, task.id, DescriptionPatch(outcome.text)))
      ensures outcome.Failed? ==> description == old(description) && aiError == outcome.message && update.None?
      ensures title == old(title) && syncedId == old(syncedId) && showAiMenu == old(showAiMenu)
      ensures showDatePicker == old(showDatePicker) && copyDate == old(copyDate)
    {
      update := None;
      match outcome {
        case Improved(text) =>
          description := text;
          update := Some(UpdateTask(task.projectId, task.id, DescriptionPatch(text)));
        case Failed(message) =>
          aiError := message;
      }
      aiLoading := false;
    }

    /** The timer five seconds after a failure. */
    method ClearAiError()
      modifies this
      ensures aiError == ""
      ensures title == old(title) && description == old(description) && syncedId == old(syncedId)
      ensures showDatePicker == old(showDatePicker) && copyDate == old(copyDate)
      ensures showAiMenu == old(showAiMenu) && aiLoading == old(aiLoading)
    {
      aiError := "";
    }
  }

  /** Right after a resynchronisation the local description is the one shown for the task, so
      blurring it saves nothing. */
  lemma {:induction false} FreshPanelSavesNothing(t: Task)
    ensures !DescriptionDiffers(t.description.GetOr(""), t.description)
  {
  }

  /** The handler as written does save right after a resynchronisation, for a task read from
      the database (which carries no description). */
  lemma {:induction false} FreshPanelSavesEmptyDescription(t: Task)
    requires t.description.None?
    ensures DescriptionDiffersAsWritten(t.description.GetOr(""), t.description)
  {
  }

  /** After an AI rewrite is saved, blurring the description saves nothing more. */
  lemma {:induction false} ImprovedTextIsSettled(t: Task, text: string)
    ensures var saved := MergeTask(t, DescriptionPatch(text));
            !DescriptionDiffers(text, saved.description) && !DescriptionDiffersAsWritten(text, saved.description)
  {
  }

  /** `title.trim() && title !== task.title`: the condition under which a title blur saves. */
  predicate TitleBlurSaves(local: string, stored: string) {
    Trim(local) != [] && local != stored
  }

  /** A saved title blur stores the trimmed text and nothing else. The local title is not
      trimmed and is reloaded only when the task id changes, so when it has surrounding
      whitespace every later blur saves the same text again; a title without it settles. */
  lemma {:induction false} TitleBlurResavesPadded(t: Task, title: string)
    requires TitleBlurSaves(title, t.title)
    ensures var saved := MergeTask(t, TitlePatch(Trim(title)));
            saved == t.(title := Trim(title))
            && (TitleBlurSaves(title, saved.title) <==> Trim(title) != title)
            && MergeTask(saved, TitlePatch(Trim(title))) == saved
  {
  }
}
