/**
 * The timer's control panel: which buttons are offered in which status, the task picker,
 * and the play button's handler, which starts the timer and credits a pomodoro to the
 * selected task.
 */
module TimerControls {
  import opened Wrappers
  import opened TimerModel
  import opened TimerProperties
  import opened TaskStore
  import Seqs
  import TimerEngine

  /** What the panel offers for a given engine state. */
  datatype Panel = Panel(
    modeButtonsDisabled: bool,
    taskPickerShown: bool,
    taskPickerDisabled: bool,
    pauseShown: bool,
    playDisabled: bool,
    resetDisabled: bool,
    skipDisabled: bool,
    pickedValue: string)

  /** A JavaScript string is truthy when it is present and not empty. */
  predicate Truthy(s: Option<string>) {
    s.Some? && s.value != ""
  }

  /** The panel as the component renders it. */
  function Controls(st: State): (p: Panel)
    ensures !p.modeButtonsDisabled <==> st.status in {Idle, Completed}
    ensures p.resetDisabled <==> st.status == Idle
    ensures p.pauseShown <==> st.status == Running
    ensures !p.pauseShown ==> (p.playDisabled <==> st.status == Completed)
    ensures p.skipDisabled <==> st.status == Completed
    ensures p.taskPickerShown <==> st.mode == Focus
    ensures p.taskPickerDisabled <==> st.status in {Running, Paused}
    ensures p.pickedValue == if Truthy(st.currentTaskId) then st.currentTaskId.value else "none"
  {
    var isRunning, isPaused := st.status == Running, st.status == Paused;
    var isIdle, isCompleted := st.status == Idle, st.status == Completed;
    Panel(!isIdle && !isCompleted, st.mode == Focus, isRunning || isPaused, isRunning,
          isCompleted, isIdle && !isCompleted, isCompleted,
          if Truthy(st.currentTaskId) then st.currentTaskId.value else "none")
  }

  /**
   * The reset button is disabled exactly when resetting would do no more than clear the
   * distraction counter (which a finished focus session leaves standing).
   */
  lemma ResetDisabledExactlyWhenIdle(st: State)
    requires Inv(st)
    ensures Controls(st).resetDisabled <==> Reset(st) == st.(distractionCount := 0)
  {
  }

  /** The tasks offered in the picker: the open ones. */
  function AvailableTasks(tasks: seq<Task>): (r: seq<Task>)
    ensures forall i :: 0 <= i < |r| ==> !r[i].completed && r[i] in tasks
    ensures forall t :: t in tasks && !t.completed ==> t in r
  {
    Seqs.Filter(tasks, (t: Task) => !t.completed)
  }

  /** The picker keeps the order of the list: it works piece by piece. */
  lemma AvailableTasksConcat(a: seq<Task>, b: seq<Task>)
    ensures AvailableTasks(a + b) == AvailableTasks(a) + AvailableTasks(b)
  {
    Seqs.FilterConcat(a, b, (t: Task) => !t.completed);
  }

  /** With no task completed, every task is offered. */
  lemma AllOpenAllOffered(tasks: seq<Task>)
    requires forall i :: 0 <= i < |tasks| ==> !tasks[i].completed
    ensures AvailableTasks(tasks) == tasks
  {
    Seqs.FilterKeepsAll(tasks, (t: Task) => !t.completed);
  }

  /** The task that pressing play credits: the selected one, when a focus session is started. */
  function PomodoroTarget(st: State): (r: Option<string>)
    ensures r.Some? <==> st.mode == Focus && Truthy(st.currentTaskId)
    ensures r.Some? ==> r == st.currentTaskId
  {
    if st.mode == Focus && Truthy(st.currentTaskId) then st.currentTaskId else None
  }

  /** The task list after pressing play in state `st`. */
  function TasksAfterPlay(st: State, tasks: seq<Task>): (r: seq<Task>)
    ensures SameIds(r, tasks)
    ensures PomodoroTarget(st).None? ==> r == tasks
    ensures PomodoroTarget(st).Some? ==>
      r == IncrementTaskPomodoro(tasks, PomodoroTarget(st).value) &&
      PomodoroTotal(r) == PomodoroTotal(tasks) + Occurrences(tasks, PomodoroTarget(st).value)
  {
    match PomodoroTarget(st)
    case None => tasks
    case Some(id) =>
      IncrementAddsOccurrences(tasks, id);
      IncrementTaskPomodoro(tasks, id)
  }

  /** "No task selected" stores the id "none"; pressing play then credits nothing. */
  lemma NoTaskSelectedCreditsNothing(st: State, tasks: seq<Task>)
    requires st.currentTaskId == Some("none") && Absent(tasks, "none")
    ensures TasksAfterPlay(st, tasks) == tasks
  {
    if st.mode == Focus {
      AbsentIdChangesNothing(tasks, "none", EmptyPatch, "");
    }
  }

  /** Pausing and resuming a focus session credits its task a second time. */
  lemma ResumeCreditsAgain(st: State, tasks: seq<Task>, id: string, stamp: Stamp)
    requires Inv(st) && st.mode == Focus && st.status == Idle && st.timeRemaining > 0
    requires st.currentTaskId == Some(id) && id != ""
    ensures var running := Start(st, stamp);
            var paused := Pause(running);
            running.status == Running && paused.status == Paused &&
            TasksAfterPlay(paused, TasksAfterPlay(st, tasks)) ==
              IncrementTaskPomodoro(IncrementTaskPomodoro(tasks, id), id)
  {
  }

  /** handleStartTimer: start the timer, then credit the selected task of a focus session. */
  method HandleStartTimer(t: TimerEngine.Timer, tasks: seq<Task>, stamp: Stamp) returns (tasks': seq<Task>)
    requires t.Valid()
    modifies t
    ensures t.Snapshot() == Start(old(t.Snapshot()), stamp)
    ensures tasks' == TasksAfterPlay(old(t.Snapshot()), tasks)
    ensures t.Valid()
  {
    var mode, currentTaskId := t.mode, t.currentTaskId;
    t.StartTimer(stamp);
    tasks' := tasks;
    if mode == Focus && Truthy(currentTaskId) {
      tasks' := IncrementTaskPomodoro(tasks, currentTaskId.value);
    }
  }
}
