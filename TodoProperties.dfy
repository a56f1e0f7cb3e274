/**
 * Properties of the use-case operations that relate several calls or rest on
 * the ids being unique: uniqueness is preserved, toggles undo themselves (or,
 * for the one-way cascade, do not), deleting by a unique id removes exactly
 * one entry, and two scenarios: adding a task, completing its only sub-task
 * and adding a second one; and deleting the first of two tasks.
 */
module Properties {
  import opened Wrappers
  import opened Model
  import opened Offsets
  import opened Transitions

  /** No two tasks share an id. */
  predicate DistinctTodoIds(todos: seq<TodoItem>) {
    forall i, j :: 0 <= i < j < |todos| ==> todos[i].id != todos[j].id
  }

  /** No two sub-tasks of one list share an id. */
  predicate DistinctSubTaskIds(subTasks: seq<SubTask>) {
    forall k, l :: 0 <= k < l < |subTasks| ==> subTasks[k].id != subTasks[l].id
  }

  /** Ids are unique among the tasks and within each task's sub-tasks. */
  predicate WellFormed(todos: seq<TodoItem>) {
    DistinctTodoIds(todos) && forall i :: 0 <= i < |todos| ==> DistinctSubTaskIds(todos[i].subTasks)
  }

  /** `id` names no task. */
  predicate FreshTodoId(todos: seq<TodoItem>, id: Uuid) {
    forall i :: 0 <= i < |todos| ==> todos[i].id != id
  }

  /** `id` names no sub-task of any task. */
  predicate FreshSubTaskId(todos: seq<TodoItem>, id: Uuid) {
    forall i, k :: 0 <= i < |todos| && 0 <= k < |todos[i].subTasks| ==> todos[i].subTasks[k].id != id
  }

  // ---- the lookup depends on the ids only ----

  lemma {:induction false} FirstIndexOfSameIds<T, U>(a: seq<T>, aId: T -> Uuid, b: seq<U>, bId: U -> Uuid, id: Uuid)
    requires |a| == |b| && forall j :: 0 <= j < |a| ==> aId(a[j]) == bId(b[j])
    ensures FirstIndex(a, aId, id) == FirstIndex(b, bId, id)
  {
    if |a| > 0 && aId(a[0]) != id {
      FirstIndexOfSameIds(a[1..], aId, b[1..], bId, id);
    }
  }

  /** With unique ids, the first task with an id is the only one. */
  lemma FirstIndexIsOnly(todos: seq<TodoItem>, id: Uuid, j: nat)
    requires DistinctTodoIds(todos) && j < |todos| && todos[j].id == id
    ensures FirstIndex(todos, TodoIdOf, id) == Some(j)
  {
  }

  // ---- uniqueness of ids is preserved ----

  lemma AppendedWellFormed(todos: seq<TodoItem>, newId: Uuid, title: string)
    requires WellFormed(todos) && FreshTodoId(todos, newId)
    ensures WellFormed(Appended(todos, newId, title))
  {
    var r := Appended(todos, newId, title);
    forall i | 0 <= i < |todos| ensures r[i] == todos[i] {
      assert r[i] == r[..|todos|][i];
    }
  }

  lemma CompletionToggledWellFormed(todos: seq<TodoItem>, todoId: Uuid)
    requires WellFormed(todos)
    ensures WellFormed(CompletionToggled(todos, todoId))
  {
  }

  lemma ExpandedToggledWellFormed(todos: seq<TodoItem>, todoId: Uuid)
    requires WellFormed(todos)
    ensures WellFormed(ExpandedToggled(todos, todoId))
  {
  }

  lemma SubTaskAppendedWellFormed(todos: seq<TodoItem>, todoId: Uuid, newId: Uuid, title: string)
    requires WellFormed(todos) && FreshSubTaskId(todos, newId)
    ensures WellFormed(SubTaskAppended(todos, todoId, newId, title))
  {
    var r := SubTaskAppended(todos, todoId, newId, title);
    if FirstIndex(todos, TodoIdOf, todoId).Some? {
      var i := FirstIndex(todos, TodoIdOf, todoId).value;
      var n := |todos[i].subTasks|;
      forall k | 0 <= k < n ensures r[i].subTasks[k] == todos[i].subTasks[k] {
        assert r[i].subTasks[k] == r[i].subTasks[..n][k];
      }
    }
  }

  lemma SubTaskToggledWellFormed(todos: seq<TodoItem>, todoId: Uuid, subTaskId: Uuid)
    requires WellFormed(todos)
    ensures WellFormed(SubTaskToggled(todos, todoId, subTaskId))
  {
    var r := SubTaskToggled(todos, todoId, subTaskId);
    if SubTaskPosition(todos, todoId, subTaskId).Some? {
      var (i, k) := SubTaskPosition(todos, todoId, subTaskId).value;
      assert forall l :: 0 <= l < |r[i].subTasks| ==> r[i].subTasks[l].id == todos[i].subTasks[l].id;
    }
  }

  /** The kept offsets are distinct, so a sub-sequence of a list with distinct ids has distinct ids. */
  lemma RemovedAllDistinct(subTasks: seq<SubTask>, id: Uuid)
    requires DistinctSubTaskIds(subTasks)
    ensures DistinctSubTaskIds(RemovedAll(subTasks, id))
  {
    var offsets := MatchingOffsets(subTasks, id);
    var kept := KeptIndices(|subTasks|, offsets);
    RemoveOffsetsSelectsKept(subTasks, offsets);
    var r := RemovedAll(subTasks, id);
    forall k, l | 0 <= k < l < |r| ensures r[k].id != r[l].id {
      assert kept[k] < kept[l];
    }
  }

  lemma SubTasksRemovedWellFormed(todos: seq<TodoItem>, todoId: Uuid, subTaskId: Uuid)
    requires WellFormed(todos)
    ensures WellFormed(SubTasksRemoved(todos, todoId, subTaskId))
  {
    if FirstIndex(todos, TodoIdOf, todoId).Some? {
      var i := FirstIndex(todos, TodoIdOf, todoId).value;
      RemovedAllDistinct(todos[i].subTasks, subTaskId);
      var r := SubTasksRemoved(todos, todoId, subTaskId);
      assert forall j :: 0 <= j < |r| ==> r[j].id == todos[j].id;
    }
  }

  lemma DeletedWellFormed(todos: seq<TodoItem>, offsets: set<nat>)
    requires WellFormed(todos) && forall i :: i in offsets ==> i < |todos|
    ensures WellFormed(Deleted(todos, offsets))
  {
    var kept := KeptIndices(|todos|, offsets);
    RemoveOffsetsSelectsKept(todos, offsets);
    var r := Deleted(todos, offsets);
    forall j, l | 0 <= j < l < |r| ensures r[j].id != r[l].id {
      assert kept[j] < kept[l];
    }
  }

  // ---- deletion ----

  /** `deleteTodo(at:)` keeps the other tasks in their original relative order. */
  lemma DeletedKeepsOrder(todos: seq<TodoItem>, offsets: set<nat>)
    requires forall i :: i in offsets ==> i < |todos|
    ensures var r, kept := Deleted(todos, offsets), KeptIndices(|todos|, offsets);
      && |r| == |kept|
      && (forall k :: 0 <= k < |r| ==> r[k] == todos[kept[k]])
      && (forall k, l :: 0 <= k < l < |kept| ==> kept[k] < kept[l])
      && (forall i :: 0 <= i < |todos| ==> (i in kept <==> i !in offsets))
  {
    RemoveOffsetsSelectsKept(todos, offsets);
  }

  /** With unique sub-task ids, deleting a present sub-task shortens the list by exactly one. */
  lemma RemovedAllRemovesOne(subTasks: seq<SubTask>, k: nat)
    requires DistinctSubTaskIds(subTasks) && k < |subTasks|
    ensures |RemovedAll(subTasks, subTasks[k].id)| == |subTasks| - 1
  {
    var id := subTasks[k].id;
    var offsets := MatchingOffsets(subTasks, id);
    assert offsets == {k};
    assert OffsetsBelow(|subTasks|, offsets) == {k};
    KeptIndicesCount(|subTasks|, offsets);
    RemoveOffsetsSelectsKept(subTasks, offsets);
  }

  /** Deleting an absent sub-task id leaves the list as it was. */
  lemma RemovedAllAbsent(subTasks: seq<SubTask>, id: Uuid)
    requires forall k :: 0 <= k < |subTasks| ==> subTasks[k].id != id
    ensures RemovedAll(subTasks, id) == subTasks
  {
    assert MatchingOffsets(subTasks, id) == {};
    RemoveOffsetsBeyondEnd(subTasks, {});
  }

  // ---- adding, then deleting what was added ----

  /** Deleting the task just added, at the last offset, restores the array. */
  lemma AppendedThenDeleted(todos: seq<TodoItem>, newId: Uuid, title: string)
    ensures Deleted(Appended(todos, newId, title), {|todos|}) == todos
  {
    var added := Appended(todos, newId, title);
    assert added[..|todos|] == todos;
    RemoveOffsetsBeyondEnd(todos, {|todos|});
  }

  /** Deleting the sub-task just added, by its fresh id, restores the array. */
  lemma SubTaskAppendedThenRemoved(todos: seq<TodoItem>, todoId: Uuid, newId: Uuid, title: string)
    requires FreshSubTaskId(todos, newId)
    ensures SubTasksRemoved(SubTaskAppended(todos, todoId, newId, title), todoId, newId) == todos
  {
    var added := SubTaskAppended(todos, todoId, newId, title);
    FirstIndexOfSameIds(todos, TodoIdOf, added, TodoIdOf, todoId);
    if FirstIndex(todos, TodoIdOf, todoId).Some? {
      var i := FirstIndex(todos, TodoIdOf, todoId).value;
      var subs := todos[i].subTasks;
      var subs' := added[i].subTasks;
      assert subs' == subs + [subs'[|subs|]] by {
        assert subs'[..|subs|] == subs;
      }
      assert MatchingOffsets(subs', newId) == {|subs|};
      assert RemovedAll(subs', newId) == RemoveOffsets(subs, {|subs|});
      RemoveOffsetsBeyondEnd(subs, {|subs|});
      var removed := SubTasksRemoved(added, todoId, newId);
      assert removed[i] == todos[i];
      assert removed == todos;
    }
  }

  // ---- toggles, applied twice ----

  /** Expanding twice restores the array. */
  lemma ExpandedToggledTwice(todos: seq<TodoItem>, todoId: Uuid)
    ensures ExpandedToggled(ExpandedToggled(todos, todoId), todoId) == todos
  {
    var once := ExpandedToggled(todos, todoId);
    FirstIndexOfSameIds(todos, TodoIdOf, once, TodoIdOf, todoId);
  }

  /**
   * The cascade is one-way: completing an open task and then reopening it
   * leaves the task open but every one of its sub-tasks completed.
   */
  lemma CompletionToggledTwice(todos: seq<TodoItem>, todoId: Uuid)
    requires FirstIndex(todos, TodoIdOf, todoId).Some?
    requires !todos[FirstIndex(todos, TodoIdOf, todoId).value].isCompleted
    ensures var i, twice := FirstIndex(todos, TodoIdOf, todoId).value, CompletionToggled(CompletionToggled(todos, todoId), todoId);
      && OthersUnchanged(twice, todos, i)
      && !twice[i].isCompleted
      && SameIdsAndTitles(twice[i].subTasks, todos[i].subTasks)
      && AllCompleted(twice[i].subTasks)
  {
    var once := CompletionToggled(todos, todoId);
    FirstIndexOfSameIds(todos, TodoIdOf, once, TodoIdOf, todoId);
  }

  /**
   * Toggling a sub-task twice restores the sub-tasks, and leaves the parent
   * as derived from them, whatever it was before.
   */
  lemma SubTaskToggledTwice(todos: seq<TodoItem>, todoId: Uuid, subTaskId: Uuid)
    requires SubTaskPosition(todos, todoId, subTaskId).Some?
    ensures var i, twice := SubTaskPosition(todos, todoId, subTaskId).value.0,
                            SubTaskToggled(SubTaskToggled(todos, todoId, subTaskId), todoId, subTaskId);
      && OthersUnchanged(twice, todos, i)
      && twice[i].subTasks == todos[i].subTasks
      && twice[i].isCompleted == AllCompleted(todos[i].subTasks)
  {
    var once := SubTaskToggled(todos, todoId, subTaskId);
    var (i, k) := SubTaskPosition(todos, todoId, subTaskId).value;
    FirstIndexOfSameIds(todos, TodoIdOf, once, TodoIdOf, todoId);
    FirstIndexOfSameIds(todos[i].subTasks, SubTaskIdOf, once[i].subTasks, SubTaskIdOf, subTaskId);
    var twice := SubTaskToggled(once, todoId, subTaskId);
    assert twice[i].subTasks == todos[i].subTasks;
  }

  // ---- completion derived from the sub-tasks ----

  /** Completing the last open sub-task completes the parent. */
  lemma LastOpenSubTaskCompletesParent(todos: seq<TodoItem>, todoId: Uuid, subTaskId: Uuid)
    requires SubTaskPosition(todos, todoId, subTaskId).Some?
    requires var (i, k) := SubTaskPosition(todos, todoId, subTaskId).value;
      !todos[i].subTasks[k].isCompleted &&
      forall l :: 0 <= l < |todos[i].subTasks| && l != k ==> todos[i].subTasks[l].isCompleted
    ensures var i := SubTaskPosition(todos, todoId, subTaskId).value.0;
      SubTaskToggled(todos, todoId, subTaskId)[i].isCompleted
  {
  }

  /** Reopening any sub-task reopens the parent. */
  lemma ReopenedSubTaskReopensParent(todos: seq<TodoItem>, todoId: Uuid, subTaskId: Uuid)
    requires SubTaskPosition(todos, todoId, subTaskId).Some?
    requires var (i, k) := SubTaskPosition(todos, todoId, subTaskId).value;
      todos[i].subTasks[k].isCompleted
    ensures var i := SubTaskPosition(todos, todoId, subTaskId).value.0;
      !SubTaskToggled(todos, todoId, subTaskId)[i].isCompleted
  {
    var (i, k) := SubTaskPosition(todos, todoId, subTaskId).value;
    assert !SubTaskToggled(todos, todoId, subTaskId)[i].subTasks[k].isCompleted;
  }

  // ---- scenarios ----

  /**
   * Start empty; add "Buy milk"; add sub-task "2% milk"; complete it (the task
   * completes too); add "Oat milk": the new sub-task is open but the task stays
   * completed, because adding does not recompute.
   */
  lemma BuyMilkScenario(task: Uuid, milk: Uuid, oat: Uuid)
    requires milk != oat
    ensures var s1 := Appended([], task, "Buy milk");
      var s2 := SubTaskAppended(s1, task, milk, "2% milk");
      var s3 := SubTaskToggled(s2, task, milk);
      var s4 := SubTaskAppended(s3, task, oat, "Oat milk");
      && |s1| == 1 && s1[0].title == "Buy milk" && !s1[0].isCompleted
      && |s2| == 1 && |s2[0].subTasks| == 1
      && s3[0].subTasks[0].isCompleted && s3[0].isCompleted
      && |s4[0].subTasks| == 2 && !s4[0].subTasks[1].isCompleted && s4[0].isCompleted
  {
    var s1 := Appended([], task, "Buy milk");
    assert FirstIndex(s1, TodoIdOf, task) == Some(0);
    var s2 := SubTaskAppended(s1, task, milk, "2% milk");
    assert FirstIndex(s2, TodoIdOf, task) == Some(0);
    assert FirstIndex(s2[0].subTasks, SubTaskIdOf, milk) == Some(0);
    var s3 := SubTaskToggled(s2, task, milk);
    assert FirstIndex(s3, TodoIdOf, task) == Some(0);
  }

  /**
   * Deleting a sub-task does not recompute the parent: removing the only open
   * sub-task leaves the parent open although every remaining one is completed.
   */
  lemma DeletingOpenSubTaskKeepsParentOpen(task: Uuid, done: Uuid, open: Uuid)
    requires done != open
    ensures var t := TodoItem(task, "t", false, [SubTask(done, "a", true), SubTask(open, "b", false)]);
      var r := SubTasksRemoved([t], task, open);
      && AllCompleted(r[0].subTasks) && |r[0].subTasks| == 1 && !r[0].isCompleted
  {
    var subs := [SubTask(done, "a", true), SubTask(open, "b", false)];
    var t := TodoItem(task, "t", false, subs);
    assert FirstIndex([t], TodoIdOf, task) == Some(0);
    RemovedAllRemovesOne(subs, 1);
    var rest := RemovedAll(subs, open);
    assert rest[0] in subs && rest[0].id != open;
    assert rest[0] == subs[0];
  }

  /** Two tasks A and B; deleting offset 0 leaves only B. */
  lemma DeleteFirstOfTwo(a: TodoItem, b: TodoItem)
    ensures Deleted([a, b], {0}) == [b]
  {
    DeletedKeepsOrder([a, b], {0});
    var kept := KeptIndices(2, {0});
    assert 1 in kept;
  }
}
