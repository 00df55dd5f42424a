/** The content calendar screen: loading and splitting the task list, the
    completion flow, the "completed ..." label, and `TaskDetailSheet`. */
module Calendar {
  import opened Wrappers
  import opened Models
  import opened Seqs
  import opened Dates
  import opened Api

  /** The state of `CalendarView` that the task list and alerts read. */
  datatype CalendarState = CalendarState(
    incompleteTasks: seq<CalendarTask>,
    completedTasks: seq<CalendarTask>,
    isLoading: bool,
    errorMessage: Option<string>)

  /** The sort key of the task list: a task without a day number sorts as day 0. */
  function DayKey(t: CalendarTask): int {
    t.dayNumber.GetOr(0)
  }

  predicate IsOpen(t: CalendarTask) { !t.isCompleted }
  predicate IsDone(t: CalendarTask) { t.isCompleted }

  /** The one request `loadTasksAsync` makes: every task, completed ones included. */
  const TasksRequest: string := CalendarTasksEndpoint(None, None, true)

  /** The start of `loadTasksAsync`: a spinner and no stale alert. */
  function BeginLoadTasks(s: CalendarState): (r: CalendarState)
    ensures r.isLoading && r.errorMessage.None?
    ensures r.incompleteTasks == s.incompleteTasks && r.completedTasks == s.completedTasks
  {
    s.(isLoading := true, errorMessage := None)
  }

  /** The rest of `loadTasksAsync`, given what the request returned. On
      success both lists are replaced: they split the fetched tasks between
      them without loss, each is in day order, and each holds only its kind.
      On failure the lists stay and the error's description is shown.
      Either way the spinner stops. */
  function LoadTasks(s: CalendarState, response: Result<seq<CalendarTask>, Thrown>): (r: CalendarState)
    ensures !r.isLoading
    ensures response.Err? ==>
      && r.incompleteTasks == s.incompleteTasks && r.completedTasks == s.completedTasks
      && r.errorMessage == Some(LocalizedDescription(response.error))
    ensures response.Ok? ==>
      && r.errorMessage == s.errorMessage
      && multiset(r.incompleteTasks) + multiset(r.completedTasks) == multiset(response.value)
      && (forall i :: 0 <= i < |r.incompleteTasks| ==> !r.incompleteTasks[i].isCompleted)
      && (forall i :: 0 <= i < |r.completedTasks| ==> r.completedTasks[i].isCompleted)
      && SortedBy(r.incompleteTasks, DayKey) && SortedBy(r.completedTasks, DayKey)
  {
    match response
    case Err(e) => s.(isLoading := false, errorMessage := Some(LocalizedDescription(e)))
    case Ok(tasks) =>
      var all := SortBy(tasks, DayKey);
      FilterSorted(all, IsOpen, DayKey);
      FilterSorted(all, IsDone, DayKey);
      FilterPartition(all, IsOpen, IsDone);
      s.(incompleteTasks := Filter(all, IsOpen), completedTasks := Filter(all, IsDone), isLoading := false)
  }

  /** `loadTasksAsync` from start to end. */
  function Reload(s: CalendarState, response: Result<seq<CalendarTask>, Thrown>): CalendarState {
    LoadTasks(BeginLoadTasks(s), response)
  }

  /** After a successful reload a task is listed as open exactly when it was
      fetched and is not completed, and as completed exactly when it was
      fetched and is completed; no alert is showing. */
  lemma ReloadedTaskMembership(s: CalendarState, tasks: seq<CalendarTask>, t: CalendarTask)
    ensures var r := Reload(s, Ok(tasks));
      && (t in r.incompleteTasks <==> t in tasks && !t.isCompleted)
      && (t in r.completedTasks <==> t in tasks && t.isCompleted)
      && r.errorMessage.None?
  {
    var r := Reload(s, Ok(tasks));
    var m := multiset(r.incompleteTasks) + multiset(r.completedTasks);
    assert m[t] == multiset(r.incompleteTasks)[t] + multiset(r.completedTasks)[t];
    assert t in tasks <==> multiset(tasks)[t] > 0;
    assert t in r.incompleteTasks <==> multiset(r.incompleteTasks)[t] > 0;
    assert t in r.completedTasks <==> multiset(r.completedTasks)[t] > 0;
    if t.isCompleted {
      assert t !in r.incompleteTasks;
    } else {
      assert t !in r.completedTasks;
    }
  }

  /** Reloading twice with the same answer is the same as reloading once. */
  lemma ReloadIdempotent(s: CalendarState, response: Result<seq<CalendarTask>, Thrown>)
    ensures Reload(Reload(s, response), response) == Reload(s, response)
  {
  }

  /** The `completeTask` request: its path and the content sent with it. */
  datatype CompleteCall = CompleteCall(path: string, generatedContent: Option<string>)

  function CompleteCallFor(task: CalendarTask, generatedContent: Option<string>): (c: CompleteCall)
    ensures Between(c.path, TaskPathPrefix, CompleteSuffix) == Some(task.taskId)
    ensures c.generatedContent == generatedContent
  {
    BetweenConcat(TaskPathPrefix, task.taskId, CompleteSuffix);
    CompleteCall(CompleteTaskPath(task.taskId), generatedContent)
  }

  /** `completeTask` in the calendar: once the backend accepts, the list is
      reloaded; a failure shows the error and leaves the lists alone. */
  function CompleteTask(s: CalendarState, outcome: Outcome<Thrown>, reload: Result<seq<CalendarTask>, Thrown>): CalendarState {
    match outcome
    case Pass => Reload(s, reload)
    case Fail(e) => s.(errorMessage := Some(LocalizedDescription(e)))
  }

  /** A task the backend now reports as completed moves to the completed
      list after completion; a rejected completion moves nothing. */
  lemma CompletedTaskMoves(s: CalendarState, tasks: seq<CalendarTask>, t: CalendarTask, e: Thrown)
    requires t in tasks && t.isCompleted
    ensures var r := CompleteTask(s, Pass, Ok(tasks));
      t in r.completedTasks && t !in r.incompleteTasks
    ensures var r := CompleteTask(s, Fail(e), Ok(tasks));
      r.incompleteTasks == s.incompleteTasks && r.completedTasks == s.completedTasks && r.errorMessage.Some?
  {
    ReloadedTaskMembership(s, tasks, t);
  }

  // ---------------------------------------------------------------------
  // The "completed ..." label of a task row

  /** `formatCompletionDate`'s parsing: the default ISO-8601 formatter first,
      the one with fractional seconds only when it fails. */
  function ParseCompletionDate(text: string, parsers: Parsers): (r: Option<int>)
    ensures parsers.internet(text).Some? ==> r == parsers.internet(text)
    ensures parsers.internet(text).None? ==> r == parsers.fractional(text)
  {
    match parsers.internet(text)
    case Some(t) => Some(t)
    case None => parsers.fractional(text)
  }

  /** `formatCompletionDate`: "recently" for text neither formatter reads,
      "today" or "yesterday" by calendar day, else the short date
      (`shortDate` stands for the short-style `DateFormatter`). */
  function FormatCompletionDate(text: string, parsers: Parsers, now: int, shortDate: int -> string): string {
    match ParseCompletionDate(text, parsers)
    case None => "recently"
    case Some(t) =>
      if DayOf(t) == DayOf(now) then "today"
      else if DayOf(t) == DayOf(now) - 1 then "yesterday"
      else shortDate(t)
  }

  /** The label by where the completion falls: any time since the start of
      today reads "today", any time during the previous day "yesterday",
      anything else the short date; unreadable text reads "recently". */
  lemma {:induction false} CompletionLabelByDay(text: string, parsers: Parsers, now: int, shortDate: int -> string)
    ensures ParseCompletionDate(text, parsers).None? ==>
      FormatCompletionDate(text, parsers, now, shortDate) == "recently"
    ensures ParseCompletionDate(text, parsers).Some? ==>
      var t := ParseCompletionDate(text, parsers).value;
      var today := StartOfDay(DayOf(now));
      && (today <= t < today + SecondsPerDay ==> FormatCompletionDate(text, parsers, now, shortDate) == "today")
      && (today - SecondsPerDay <= t < today ==> FormatCompletionDate(text, parsers, now, shortDate) == "yesterday")
      && (t < today - SecondsPerDay || today + SecondsPerDay <= t ==>
            FormatCompletionDate(text, parsers, now, shortDate) == shortDate(t))
  {
    if ParseCompletionDate(text, parsers).Some? {
      var t := ParseCompletionDate(text, parsers).value;
      var d := DayOf(now);
      DayBounds(t);
      if StartOfDay(d) <= t < StartOfDay(d) + SecondsPerDay {
        DayOfOffset(d, t - StartOfDay(d));
      } else if StartOfDay(d) - SecondsPerDay <= t < StartOfDay(d) {
        assert StartOfDay(d) - SecondsPerDay == StartOfDay(d - 1);
        DayOfOffset(d - 1, t - StartOfDay(d - 1));
      } else if t < StartOfDay(d) - SecondsPerDay {
        assert DayOf(t) < d - 1;
      } else {
        assert DayOf(t) > d;
      }
    }
  }

  // ---------------------------------------------------------------------
  // TaskDetailSheet

  /** The sheet's state: the task it was opened on, content generated in it,
      the generate spinner and the emoji toggle. */
  datatype DetailSheet = DetailSheet(
    task: CalendarTask,
    generatedContent: Option<string>,
    isGenerating: bool,
    useEmojis: bool)

  /** A freshly opened sheet: nothing generated yet, emojis on. */
  function OpenSheet(task: CalendarTask): DetailSheet {
    DetailSheet(task, None, false, true)
  }

  /** The content panel: new content wins over the task's stored content. */
  function DisplayedContent(d: DetailSheet): Option<string> {
    if d.generatedContent.Some? then d.generatedContent else d.task.generatedContent
  }

  /** The Complete button is enabled unless neither kind of content exists. */
  predicate CanComplete(d: DetailSheet) {
    !(d.generatedContent.None? && d.task.generatedContent.None?)
  }

  /** What Complete hands to `onComplete`: only content generated in this sheet. */
  function CompletionPayload(d: DetailSheet): Option<string> {
    d.generatedContent
  }

  /** The Generate button is enabled unless a generation is in flight. */
  predicate CanGenerate(d: DetailSheet) {
    !d.isGenerating
  }

  /** The `generateTaskContent` request: its path and the emoji flag sent. */
  datatype GenerateCall = GenerateCall(path: string, includeEmojis: Option<bool>)

  /** Tapping Generate: the spinner starts and the request for this task,
      carrying the toggle's value, is sent. */
  function StartGenerate(d: DetailSheet): (r: (DetailSheet, GenerateCall))
    ensures r.0.isGenerating && !CanGenerate(r.0)
    ensures Between(r.1.path, TaskPathPrefix, GenerateSuffix) == Some(d.task.taskId)
    ensures r.1.includeEmojis == Some(d.useEmojis)
    ensures DisplayedContent(r.0) == DisplayedContent(d)
  {
    BetweenConcat(TaskPathPrefix, d.task.taskId, GenerateSuffix);
    (d.(isGenerating := true), GenerateCall(GenerateTaskPath(d.task.taskId), Some(d.useEmojis)))
  }

  /** The end of `generateContent`: new content replaces the old; an error
      is swallowed and keeps what was there. */
  function FinishGenerate(d: DetailSheet, result: Result<string, Thrown>): (r: DetailSheet)
    ensures !r.isGenerating && r.task == d.task && r.useEmojis == d.useEmojis
    ensures result.Ok? ==> r.generatedContent == Some(result.value)
    ensures result.Err? ==> r.generatedContent == d.generatedContent
  {
    match result
    case Ok(content) => d.(generatedContent := Some(content), isGenerating := false)
    case Err(_) => d.(isGenerating := false)
  }

  /** Complete is enabled exactly when the content panel shows something,
      and what it sends, when anything, is what the panel shows. */
  lemma CompleteMatchesPanel(d: DetailSheet)
    ensures CanComplete(d) <==> DisplayedContent(d).Some?
    ensures CompletionPayload(d).Some? ==> CompletionPayload(d) == DisplayedContent(d)
  {
  }

  /** A sheet opened on a task that already has content can be completed at
      once but sends no content; after a successful generation it sends the
      new content, and a failed one changes neither button nor panel. */
  lemma SheetLifecycle(task: CalendarTask, content: string, e: Thrown)
    ensures CanComplete(OpenSheet(task)) <==> task.generatedContent.Some?
    ensures CompletionPayload(OpenSheet(task)).None?
    ensures var d := FinishGenerate(StartGenerate(OpenSheet(task)).0, Ok(content));
      CanComplete(d) && CompletionPayload(d) == Some(content) && DisplayedContent(d) == Some(content)
    ensures var d := FinishGenerate(StartGenerate(OpenSheet(task)).0, Err(e));
      d == OpenSheet(task)
  {
  }
}
