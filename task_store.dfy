/**
 * The TaskProvider's list operations. Each one maps the previous list to the next one
 * (a prepend, a filter, or a map that rewrites the tasks with a given id); the generated
 * id and the clock reading are parameters.
 */
module TaskStore {
  import opened Wrappers
  import Seqs

  /** A task; `None` is an optional key the record does not have. */
  datatype Task = Task(
    id: string,
    title: string,
    completed: bool,
    createdAt: string,
    completedAt: Option<string>,
    estimatedPomodoros: Option<int>,
    completedPomodoros: Option<int>,
    notes: Option<string>)

  /** What addTask takes: a task without id, createdAt and completed. */
  datatype TaskDraft = TaskDraft(
    title: string,
    completedAt: Option<string>,
    estimatedPomodoros: Option<int>,
    completedPomodoros: Option<int>,
    notes: Option<string>)

  /**
   * Partial<Task>: `None` is a key the caller left out. For an optional field, `Some(None)`
   * is a key present with the value `undefined`, which the spread copies (clearing the field).
   */
  datatype TaskPatch = TaskPatch(
    id: Option<string>,
    title: Option<string>,
    completed: Option<bool>,
    createdAt: Option<string>,
    completedAt: Option<Option<string>>,
    estimatedPomodoros: Option<Option<int>>,
    completedPomodoros: Option<Option<int>>,
    notes: Option<Option<string>>)

  const EmptyPatch := TaskPatch(None, None, None, None, None, None, None, None)

  /** No task in the list has the id. */
  predicate Absent(tasks: seq<Task>, id: string) {
    forall i :: 0 <= i < |tasks| ==> tasks[i].id != id
  }

  /** Position by position, the two lists hold tasks with the same ids. */
  predicate SameIds(a: seq<Task>, b: seq<Task>) {
    |a| == |b| && forall i :: 0 <= i < |a| ==> a[i].id == b[i].id
  }

  /** How many tasks carry the id. */
  function Occurrences(tasks: seq<Task>, id: string): nat {
    if tasks == [] then 0 else (if tasks[0].id == id then 1 else 0) + Occurrences(tasks[1..], id)
  }

  /** `prevTasks.map(task => task.id === id ? f(task) : task)`. */
  function MapMatching(tasks: seq<Task>, id: string, f: Task -> Task): (r: seq<Task>)
    ensures |r| == |tasks|
    ensures forall i :: 0 <= i < |tasks| && tasks[i].id == id ==> r[i] == f(tasks[i])
    ensures forall i :: 0 <= i < |tasks| && tasks[i].id != id ==> r[i] == tasks[i]
  {
    if tasks == [] then []
    else [if tasks[0].id == id then f(tasks[0]) else tasks[0]] + MapMatching(tasks[1..], id, f)
  }

  // ---------------------------------------------------------------- operations

  /**
   * addTask: a new task with the given id and creation time, not completed, with
   * `completedPomodoros` 0 unless the draft supplies it, goes in front of the list.
   */
  function AddTask(tasks: seq<Task>, draft: TaskDraft, id: string, now: string): (r: seq<Task>)
    ensures |r| == |tasks| + 1 && r[1..] == tasks
    ensures r[0].id == id && r[0].createdAt == now && !r[0].completed
    ensures r[0].title == draft.title && r[0].completedAt == draft.completedAt
    ensures r[0].estimatedPomodoros == draft.estimatedPomodoros && r[0].notes == draft.notes
    ensures r[0].completedPomodoros == Some(draft.completedPomodoros.GetOr(0))
  {
    var task := Task(id, draft.title, false, now, draft.completedAt, draft.estimatedPomodoros,
                     if draft.completedPomodoros.Some? then draft.completedPomodoros else Some(0),
                     draft.notes);
    [task] + tasks
  }

  /** `{ ...task, ...updates }`. */
  function Merge(t: Task, u: TaskPatch): Task {
    Task(u.id.GetOr(t.id), u.title.GetOr(t.title), u.completed.GetOr(t.completed),
         u.createdAt.GetOr(t.createdAt), u.completedAt.GetOr(t.completedAt),
         u.estimatedPomodoros.GetOr(t.estimatedPomodoros),
         u.completedPomodoros.GetOr(t.completedPomodoros), u.notes.GetOr(t.notes))
  }

  /** updateTask: every task with the id has the patch merged in; every other task stays as it was. */
  function UpdateTask(tasks: seq<Task>, id: string, u: TaskPatch): (r: seq<Task>)
    ensures |r| == |tasks|
    ensures forall i :: 0 <= i < |tasks| && tasks[i].id == id ==> r[i] == Merge(tasks[i], u)
    ensures forall i :: 0 <= i < |tasks| && tasks[i].id != id ==> r[i] == tasks[i]
  {
    MapMatching(tasks, id, t => Merge(t, u))
  }

  /** deleteTask: the tasks whose id differs, in their original order. */
  function DeleteTask(tasks: seq<Task>, id: string): (r: seq<Task>)
    ensures Absent(r, id)
    ensures forall t :: t in tasks && t.id != id ==> t in r
    ensures forall t :: t in r ==> t in tasks
  {
    Seqs.Filter(tasks, (t: Task) => t.id != id)
  }

  /** completeTask: tasks with the id become completed at `now`; nothing else changes. */
  function CompleteTask(tasks: seq<Task>, id: string, now: string): (r: seq<Task>)
    ensures SameIds(r, tasks)
    ensures forall i :: 0 <= i < |tasks| && tasks[i].id == id ==>
      r[i] == tasks[i].(completed := true, completedAt := Some(now))
    ensures forall i :: 0 <= i < |tasks| && tasks[i].id != id ==> r[i] == tasks[i]
  {
    MapMatching(tasks, id, (t: Task) => t.(completed := true, completedAt := Some(now)))
  }

  /** uncompleteTask: tasks with the id become open again with no completion time; nothing else changes. */
  function UncompleteTask(tasks: seq<Task>, id: string): (r: seq<Task>)
    ensures SameIds(r, tasks)
    ensures forall i :: 0 <= i < |tasks| && tasks[i].id == id ==>
      r[i] == tasks[i].(completed := false, completedAt := None)
    ensures forall i :: 0 <= i < |tasks| && tasks[i].id != id ==> r[i] == tasks[i]
  {
    MapMatching(tasks, id, (t: Task) => t.(completed := false, completedAt := None))
  }

  /** incrementTaskPomodoro: one more completed pomodoro (a missing count counts as 0) on tasks with the id. */
  function IncrementTaskPomodoro(tasks: seq<Task>, id: string): (r: seq<Task>)
    ensures SameIds(r, tasks)
    ensures forall i :: 0 <= i < |tasks| && tasks[i].id == id ==>
      r[i] == tasks[i].(completedPomodoros := Some(tasks[i].completedPomodoros.GetOr(0) + 1))
    ensures forall i :: 0 <= i < |tasks| && tasks[i].id != id ==> r[i] == tasks[i]
  {
    MapMatching(tasks, id, (t: Task) => t.(completedPomodoros := Some(t.completedPomodoros.GetOr(0) + 1)))
  }

  // ---------------------------------------------------------------- properties

  /** An id no task carries leaves every operation except addTask without effect. */
  lemma AbsentIdChangesNothing(tasks: seq<Task>, id: string, u: TaskPatch, now: string)
    requires Absent(tasks, id)
    ensures UpdateTask(tasks, id, u) == tasks
    ensures DeleteTask(tasks, id) == tasks
    ensures CompleteTask(tasks, id, now) == tasks
    ensures UncompleteTask(tasks, id) == tasks
    ensures IncrementTaskPomodoro(tasks, id) == tasks
  {
    Seqs.FilterKeepsAll(tasks, (t: Task) => t.id != id);
  }

  /** An empty patch changes nothing; merging the same patch twice is merging it once. */
  lemma MergeLaws(t: Task, u: TaskPatch)
    ensures Merge(t, EmptyPatch) == t
    ensures Merge(Merge(t, u), u) == Merge(t, u)
  {
  }

  /** Updating twice with a patch that keeps the id is updating once. */
  lemma UpdateTaskIdempotent(tasks: seq<Task>, id: string, u: TaskPatch)
    requires u.id == None || u.id == Some(id)
    ensures UpdateTask(UpdateTask(tasks, id, u), id, u) == UpdateTask(tasks, id, u)
  {
    var once := UpdateTask(tasks, id, u);
    forall i | 0 <= i < |tasks|
      ensures UpdateTask(once, id, u)[i] == once[i]
    {
      MergeLaws(tasks[i], u);
    }
  }

  /** Deletion works piece by piece, so the tasks that remain keep their relative order. */
  lemma DeleteTaskConcat(a: seq<Task>, b: seq<Task>, id: string)
    ensures DeleteTask(a + b, id) == DeleteTask(a, id) + DeleteTask(b, id)
  {
    Seqs.FilterConcat(a, b, (t: Task) => t.id != id);
  }

  /** Deletion removes exactly the tasks that carry the id. */
  lemma {:induction false} DeleteTaskLength(tasks: seq<Task>, id: string)
    ensures |DeleteTask(tasks, id)| == |tasks| - Occurrences(tasks, id)
  {
    if tasks != [] {
      DeleteTaskLength(tasks[1..], id);
      assert DeleteTask(tasks, id) ==
        (if tasks[0].id != id then [tasks[0]] else []) + DeleteTask(tasks[1..], id);
    }
  }

  /** Deleting again removes nothing more. */
  lemma DeleteTaskIdempotent(tasks: seq<Task>, id: string)
    ensures DeleteTask(DeleteTask(tasks, id), id) == DeleteTask(tasks, id)
  {
    var once := DeleteTask(tasks, id);
    Seqs.FilterKeepsAll(once, (t: Task) => t.id != id);
  }

  /** Reopening a completed task gives what reopening it directly gives; completing twice keeps the later time. */
  lemma CompletionRoundTrip(tasks: seq<Task>, id: string, now: string, later: string)
    ensures UncompleteTask(CompleteTask(tasks, id, now), id) == UncompleteTask(tasks, id)
    ensures CompleteTask(CompleteTask(tasks, id, now), id, later) == CompleteTask(tasks, id, later)
  {
  }

  /** A task with the id that was open and completed without a time is restored by complete then uncomplete. */
  lemma UncompleteUndoesComplete(tasks: seq<Task>, id: string, now: string)
    requires forall i :: 0 <= i < |tasks| && tasks[i].id == id ==> !tasks[i].completed && tasks[i].completedAt == None
    ensures UncompleteTask(CompleteTask(tasks, id, now), id) == tasks
  {
    var r := UncompleteTask(CompleteTask(tasks, id, now), id);
    assert forall i :: 0 <= i < |tasks| ==> r[i] == tasks[i];
  }

  /** Total completed pomodoros over the tasks, a missing count as 0. */
  function PomodoroTotal(tasks: seq<Task>): int {
    if tasks == [] then 0 else tasks[0].completedPomodoros.GetOr(0) + PomodoroTotal(tasks[1..])
  }

  /** Each increment adds one pomodoro per task that carries the id. */
  lemma {:induction false} IncrementAddsOccurrences(tasks: seq<Task>, id: string)
    ensures PomodoroTotal(IncrementTaskPomodoro(tasks, id)) == PomodoroTotal(tasks) + Occurrences(tasks, id)
  {
    if tasks != [] {
      var r := IncrementTaskPomodoro(tasks, id);
      IncrementAddsOccurrences(tasks[1..], id);
      assert r[1..] == IncrementTaskPomodoro(tasks[1..], id);
    }
  }
}
