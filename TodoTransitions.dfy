/**
 * What each operation of the todo use case does to the array of tasks, as a
 * function from the array before to the array after. The use case applies
 * these changes in place and then saves; the view model forwards to it.
 */
module Transitions {
  import opened Wrappers
  import opened Model
  import opened Offsets

  /** `s.firstIndex(where: { $0.id == id })`, for tasks and sub-tasks alike. */
  function FirstIndex<T>(s: seq<T>, idOf: T -> Uuid, id: Uuid): (r: Option<nat>)
    ensures r.Some? ==> r.value < |s| && idOf(s[r.value]) == id
    ensures r.Some? ==> forall j :: 0 <= j < r.value ==> idOf(s[j]) != id
    ensures r.None? <==> forall j :: 0 <= j < |s| ==> idOf(s[j]) != id
  {
    if |s| == 0 then None
    else if idOf(s[0]) == id then Some(0)
    else match FirstIndex(s[1..], idOf, id)
      case None => None
      case Some(k) => Some(k + 1)
  }

  /** `subTasks.allSatisfy { $0.isCompleted }`. */
  predicate AllCompleted(subTasks: seq<SubTask>) {
    forall k :: 0 <= k < |subTasks| ==> subTasks[k].isCompleted
  }

  /** Two sub-task lists agree in length, ids and titles. */
  predicate SameIdsAndTitles(a: seq<SubTask>, b: seq<SubTask>) {
    |a| == |b| && forall k :: 0 <= k < |a| ==> a[k].id == b[k].id && a[k].title == b[k].title
  }

  /** Every sub-task with `isCompleted` set to true, as the cascade loop leaves them. */
  function CompletedAll(subTasks: seq<SubTask>): (r: seq<SubTask>)
    ensures SameIdsAndTitles(r, subTasks) && AllCompleted(r)
  {
    seq(|subTasks|, k requires 0 <= k < |subTasks| => subTasks[k].(isCompleted := true))
  }

  /**
   * `subTasks.removeAll { $0.id == id }`: drop the offsets whose id matches.
   * The survivors are the sub-tasks at the other offsets, one each and in
   * their original order (`KeptIndices` is strictly increasing).
   */
  function RemovedAll(subTasks: seq<SubTask>, id: Uuid): (r: seq<SubTask>)
    ensures forall k :: 0 <= k < |r| ==> r[k].id != id
    ensures forall x :: x in r ==> x in subTasks
    ensures forall k :: 0 <= k < |subTasks| && subTasks[k].id != id ==> subTasks[k] in r
    ensures var kept := KeptIndices(|subTasks|, MatchingOffsets(subTasks, id));
      && |r| == |kept|
      && forall k :: 0 <= k < |r| ==> r[k] == subTasks[kept[k]]
  {
    RemoveOffsetsSelectsKept(subTasks, MatchingOffsets(subTasks, id));
    RemoveOffsets(subTasks, MatchingOffsets(subTasks, id))
  }

  /** The offsets of the sub-tasks whose id is `id`. */
  function MatchingOffsets(subTasks: seq<SubTask>, id: Uuid): set<nat> {
    set k: nat | k < |subTasks| && subTasks[k].id == id
  }

  /** Every task other than the one at `i` is the same in `a` and `b`. */
  predicate OthersUnchanged(a: seq<TodoItem>, b: seq<TodoItem>, i: nat) {
    |a| == |b| && forall j :: 0 <= j < |a| && j != i ==> a[j] == b[j]
  }

  /** `addTodo(title:)`: one new task at the end; the title is not checked. */
  function Appended(todos: seq<TodoItem>, newId: Uuid, title: string): (r: seq<TodoItem>)
    ensures |r| == |todos| + 1
    ensures r[..|todos|] == todos
    ensures r[|todos|].id == newId && r[|todos|].title == title
    ensures !r[|todos|].isCompleted && r[|todos|].subTasks == [] && !r[|todos|].isExpanded
  {
    todos + [NewTodoItem(newId, title)]
  }

  /**
   * `toggleTodoCompletion(todoId:)`: flip the first task with that id; when it
   * becomes completed, complete all of its sub-tasks (a one-way cascade).
   */
  function CompletionToggled(todos: seq<TodoItem>, todoId: Uuid): (r: seq<TodoItem>)
    ensures FirstIndex(todos, TodoIdOf, todoId).None? ==> r == todos
    ensures FirstIndex(todos, TodoIdOf, todoId).Some? ==>
      var i := FirstIndex(todos, TodoIdOf, todoId).value;
      && OthersUnchanged(r, todos, i)
      && r[i].isCompleted == !todos[i].isCompleted
      && r[i].id == todos[i].id && r[i].title == todos[i].title
      && r[i].isExpanded == todos[i].isExpanded
      && (r[i].isCompleted ==> SameIdsAndTitles(r[i].subTasks, todos[i].subTasks) && AllCompleted(r[i].subTasks))
      && (!r[i].isCompleted ==> r[i].subTasks == todos[i].subTasks)
  {
    match FirstIndex(todos, TodoIdOf, todoId)
    case None => todos
    case Some(i) =>
      var t := todos[i];
      var completed := !t.isCompleted;
      todos[i := t.(isCompleted := completed,
                    subTasks := if completed then CompletedAll(t.subTasks) else t.subTasks)]
  }

  /** `deleteTodo(at:)`: the tasks at the given offsets are removed. */
  function Deleted(todos: seq<TodoItem>, offsets: set<nat>): (r: seq<TodoItem>)
    requires forall i :: i in offsets ==> i < |todos|
    ensures |r| == |todos| - |offsets|
    ensures forall x :: x in r ==> x in todos
    ensures forall i :: 0 <= i < |todos| && i !in offsets ==> todos[i] in r
  {
    KeptIndicesCount(|todos|, offsets);
    assert OffsetsBelow(|todos|, offsets) == offsets;
    RemoveOffsetsSelectsKept(todos, offsets);
    RemoveOffsets(todos, offsets)
  }

  /** `toggleTodoExpanded(todoId:)`: flip only `isExpanded` of the first match. */
  function ExpandedToggled(todos: seq<TodoItem>, todoId: Uuid): (r: seq<TodoItem>)
    ensures FirstIndex(todos, TodoIdOf, todoId).None? ==> r == todos
    ensures FirstIndex(todos, TodoIdOf, todoId).Some? ==>
      var i := FirstIndex(todos, TodoIdOf, todoId).value;
      && OthersUnchanged(r, todos, i)
      && r[i].isExpanded == !todos[i].isExpanded
      && r[i].id == todos[i].id && r[i].title == todos[i].title
      && r[i].isCompleted == todos[i].isCompleted && r[i].subTasks == todos[i].subTasks
  {
    match FirstIndex(todos, TodoIdOf, todoId)
    case None => todos
    case Some(i) => todos[i := todos[i].(isExpanded := !todos[i].isExpanded)]
  }

  /**
   * `addSubTask(todoId:title:)`: one new, open sub-task at the end of the
   * first matching task; the task's own completion is not recomputed.
   */
  function SubTaskAppended(todos: seq<TodoItem>, todoId: Uuid, newId: Uuid, title: string): (r: seq<TodoItem>)
    ensures FirstIndex(todos, TodoIdOf, todoId).None? ==> r == todos
    ensures FirstIndex(todos, TodoIdOf, todoId).Some? ==>
      var i := FirstIndex(todos, TodoIdOf, todoId).value;
      var n := |todos[i].subTasks|;
      && OthersUnchanged(r, todos, i)
      && |r[i].subTasks| == n + 1
      && r[i].subTasks[..n] == todos[i].subTasks
      && r[i].subTasks[n].id == newId && r[i].subTasks[n].title == title
      && !r[i].subTasks[n].isCompleted
      && r[i].id == todos[i].id && r[i].title == todos[i].title
      && r[i].isCompleted == todos[i].isCompleted && r[i].isExpanded == todos[i].isExpanded
  {
    match FirstIndex(todos, TodoIdOf, todoId)
    case None => todos
    case Some(i) =>
      var t := todos[i];
      assert (t.subTasks + [NewSubTask(newId, title)])[..|t.subTasks|] == t.subTasks;
      todos[i := t.(subTasks := t.subTasks + [NewSubTask(newId, title)])]
  }

  /** Where `toggleSubTaskCompletion` acts: the first matching task, then its first matching sub-task. */
  function SubTaskPosition(todos: seq<TodoItem>, todoId: Uuid, subTaskId: Uuid): (r: Option<(nat, nat)>)
    ensures r.Some? ==> r.value.0 < |todos| && r.value.1 < |todos[r.value.0].subTasks|
    ensures r.Some? ==>
      var (i, k) := r.value;
      && todos[i].id == todoId && (forall j :: 0 <= j < i ==> todos[j].id != todoId)
      && todos[i].subTasks[k].id == subTaskId
      && (forall l :: 0 <= l < k ==> todos[i].subTasks[l].id != subTaskId)
    ensures r.None? <==>
      || (forall j :: 0 <= j < |todos| ==> todos[j].id != todoId)
      || (exists i :: 0 <= i < |todos| && todos[i].id == todoId && (forall j :: 0 <= j < i ==> todos[j].id != todoId)
                      && forall l :: 0 <= l < |todos[i].subTasks| ==> todos[i].subTasks[l].id != subTaskId)
  {
    match FirstIndex(todos, TodoIdOf, todoId)
    case None => None
    case Some(i) =>
      match FirstIndex(todos[i].subTasks, SubTaskIdOf, subTaskId)
      case None => None
      case Some(k) => Some((i, k))
  }

  /**
   * `toggleSubTaskCompletion(todoId:subTaskId:)`: flip the sub-task, then set
   * the parent to "has sub-tasks and all of them are completed".
   */
  function SubTaskToggled(todos: seq<TodoItem>, todoId: Uuid, subTaskId: Uuid): (r: seq<TodoItem>)
    ensures |r| == |todos|
    ensures SubTaskPosition(todos, todoId, subTaskId).None? ==> r == todos
    ensures SubTaskPosition(todos, todoId, subTaskId).Some? ==>
      var (i, k) := SubTaskPosition(todos, todoId, subTaskId).value;
      var subs, subs' := todos[i].subTasks, r[i].subTasks;
      && OthersUnchanged(r, todos, i)
      && |subs'| == |subs|
      && subs'[k].isCompleted == !subs[k].isCompleted
      && subs'[k].id == subs[k].id && subs'[k].title == subs[k].title
      && (forall l :: 0 <= l < |subs| && l != k ==> subs'[l] == subs[l])
      && r[i].isCompleted == (|subs'| > 0 && AllCompleted(subs'))
      && r[i].id == todos[i].id && r[i].title == todos[i].title
      && r[i].isExpanded == todos[i].isExpanded
  {
    match SubTaskPosition(todos, todoId, subTaskId)
    case None => todos
    case Some((i, k)) =>
      var t := todos[i];
      var subs := t.subTasks[k := t.subTasks[k].(isCompleted := !t.subTasks[k].isCompleted)];
      todos[i := t.(subTasks := subs, isCompleted := AllCompleted(subs) && |subs| > 0)]
  }

  /**
   * `deleteSubTask(todoId:subTaskId:)`: drop every sub-task with that id from
   * the first matching task; the task's own completion is not recomputed.
   */
  function SubTasksRemoved(todos: seq<TodoItem>, todoId: Uuid, subTaskId: Uuid): (r: seq<TodoItem>)
    ensures FirstIndex(todos, TodoIdOf, todoId).None? ==> r == todos
    ensures FirstIndex(todos, TodoIdOf, todoId).Some? ==>
      var i := FirstIndex(todos, TodoIdOf, todoId).value;
      && OthersUnchanged(r, todos, i)
      && r[i].subTasks == RemovedAll(todos[i].subTasks, subTaskId)
      && r[i].id == todos[i].id && r[i].title == todos[i].title
      && r[i].isCompleted == todos[i].isCompleted && r[i].isExpanded == todos[i].isExpanded
  {
    match FirstIndex(todos, TodoIdOf, todoId)
    case None => todos
    case Some(i) => todos[i := todos[i].(subTasks := RemovedAll(todos[i].subTasks, subTaskId))]
  }
}
