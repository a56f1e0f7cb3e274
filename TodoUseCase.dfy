/**
 * `TodoUseCase`: the authoritative in-memory array of tasks. Every operation
 * changes the array in place first and then saves the whole array; a failed
 * save is reported but the in-memory change stays (there is no rollback).
 */
module UseCase {
  import opened Wrappers
  import opened Model
  import opened Transitions
  import opened Storage

  class TodoUseCase {
    const repository: TodoRepository
    var todos: seq<TodoItem>

    /** Starts from the stored array, or from `[]` when the first load fails. */
    constructor (repository: TodoRepository)
      ensures this.repository == repository
      ensures todos == if repository.failing then [] else repository.persisted
    {
      this.repository := repository;
      todos := [];
      new;
      var loaded := repository.LoadTodos();
      if loaded.Success? {
        todos := loaded.value;
      }
    }

    /** The array was saved exactly once, after the change, and the call returns the save's outcome. */
    twostate predicate SavedOnce(new r: Result<seq<TodoItem>, StorageError>)
      reads this, repository
    {
      && repository.saveCount == old(repository.saveCount) + 1
      && repository.persisted == (if repository.failing then old(repository.persisted) else todos)
      && r == (if repository.failing then Failure(StorageError) else Success(todos))
    }

    /** Nothing was saved, and the call returns the (unchanged) array. */
    twostate predicate NotSaved(new r: Result<seq<TodoItem>, StorageError>)
      reads this, repository
    {
      && repository.saveCount == old(repository.saveCount)
      && repository.persisted == old(repository.persisted)
      && r == Success(todos)
    }

    /** `try repository.saveTodos(todos); return todos`. */
    method Save() returns (r: Result<seq<TodoItem>, StorageError>)
      modifies repository`persisted, repository`saveCount
      ensures SavedOnce(r)
    {
      var saved := repository.SaveTodos(todos);
      r := if saved.Fail? then Failure(saved.error) else Success(todos);
    }

    /** `getTodos()`: reload; the array is replaced only when the load succeeds. */
    method GetTodos() returns (r: Result<seq<TodoItem>, StorageError>)
      modifies this`todos
      ensures todos == if repository.failing then old(todos) else repository.persisted
      ensures r == if repository.failing then Failure(StorageError) else Success(todos)
    {
      var loaded := repository.LoadTodos();
      match loaded
      case Failure(e) =>
        r := Failure(e);
      case Success(ts) =>
        todos := ts;
        r := Success(todos);
    }

    /** `addTodo(title:)`, with the generated UUID passed in as `newId`. */
    method AddTodo(title: string, newId: Uuid) returns (r: Result<seq<TodoItem>, StorageError>)
      modifies this`todos, repository`persisted, repository`saveCount
      ensures todos == Appended(old(todos), newId, title)
      ensures SavedOnce(r)
    {
      var newTodo := NewTodoItem(newId, title);
      todos := todos + [newTodo];
      r := Save();
    }

    /** `toggleTodoCompletion(todoId:)`; saves only when the task exists. */
    method ToggleTodoCompletion(todoId: Uuid) returns (r: Result<seq<TodoItem>, StorageError>)
      modifies this`todos, repository`persisted, repository`saveCount
      ensures todos == CompletionToggled(old(todos), todoId)
      ensures FirstIndex(old(todos), TodoIdOf, todoId).Some? ==> SavedOnce(r)
      ensures FirstIndex(old(todos), TodoIdOf, todoId).None? ==> NotSaved(r)
    {
      var found := FirstIndex(todos, TodoIdOf, todoId);
      if found.Some? {
        var index := found.value;
        todos := todos[index := todos[index].(isCompleted := !todos[index].isCompleted)];
        if todos[index].isCompleted {
          ghost var toggled := todos;
          var i := 0;
          while i < |todos[index].subTasks|
            invariant unchanged(repository)
            invariant |todos| == |toggled| && index < |todos|
            invariant OthersUnchanged(todos, toggled, index)
            invariant todos[index] == toggled[index].(subTasks := todos[index].subTasks)
            invariant |todos[index].subTasks| == |toggled[index].subTasks|
            invariant 0 <= i <= |todos[index].subTasks|
            invariant forall k :: 0 <= k < i ==>
              todos[index].subTasks[k] == toggled[index].subTasks[k].(isCompleted := true)
            invariant forall k :: i <= k < |todos[index].subTasks| ==>
              todos[index].subTasks[k] == toggled[index].subTasks[k]
          {
            var t := todos[index];
            todos := todos[index := t.(subTasks := t.subTasks[i := t.subTasks[i].(isCompleted := true)])];
            i := i + 1;
          }
          assert todos[index].subTasks == CompletedAll(toggled[index].subTasks);
        }
        assert todos == CompletionToggled(old(todos), todoId);
        r := Save();
      } else {
        r := Success(todos);
      }
    }

    /** `deleteTodo(at:)`; the offsets must be in range, as `remove(atOffsets:)` demands. */
    method DeleteTodo(indices: set<nat>) returns (r: Result<seq<TodoItem>, StorageError>)
      requires forall i :: i in indices ==> i < |todos|
      modifies this`todos, repository`persisted, repository`saveCount
      ensures todos == Deleted(old(todos), indices)
      ensures SavedOnce(r)
    {
      todos := Deleted(todos, indices);
      r := Save();
    }

    /** `toggleTodoExpanded(todoId:)`; saves only when the task exists. */
    method ToggleTodoExpanded(todoId: Uuid) returns (r: Result<seq<TodoItem>, StorageError>)
      modifies this`todos, repository`persisted, repository`saveCount
      ensures todos == ExpandedToggled(old(todos), todoId)
      ensures FirstIndex(old(todos), TodoIdOf, todoId).Some? ==> SavedOnce(r)
      ensures FirstIndex(old(todos), TodoIdOf, todoId).None? ==> NotSaved(r)
    {
      var found := FirstIndex(todos, TodoIdOf, todoId);
      if found.Some? {
        var index := found.value;
        todos := todos[index := todos[index].(isExpanded := !todos[index].isExpanded)];
        r := Save();
      } else {
        r := Success(todos);
      }
    }

    /** `addSubTask(todoId:title:)`, with the generated UUID passed in as `newId`. */
    method AddSubTask(todoId: Uuid, title: string, newId: Uuid) returns (r: Result<seq<TodoItem>, StorageError>)
      modifies this`todos, repository`persisted, repository`saveCount
      ensures todos == SubTaskAppended(old(todos), todoId, newId, title)
      ensures FirstIndex(old(todos), TodoIdOf, todoId).Some? ==> SavedOnce(r)
      ensures FirstIndex(old(todos), TodoIdOf, todoId).None? ==> NotSaved(r)
    {
      var found := FirstIndex(todos, TodoIdOf, todoId);
      if found.Some? {
        var index := found.value;
        var newSubTask := NewSubTask(newId, title);
        todos := todos[index := todos[index].(subTasks := todos[index].subTasks + [newSubTask])];
        r := Save();
      } else {
        r := Success(todos);
      }
    }

    /** `toggleSubTaskCompletion(todoId:subTaskId:)`; saves only when both exist. */
    method ToggleSubTaskCompletion(todoId: Uuid, subTaskId: Uuid) returns (r: Result<seq<TodoItem>, StorageError>)
      modifies this`todos, repository`persisted, repository`saveCount
      ensures todos == SubTaskToggled(old(todos), todoId, subTaskId)
      ensures SubTaskPosition(old(todos), todoId, subTaskId).Some? ==> SavedOnce(r)
      ensures SubTaskPosition(old(todos), todoId, subTaskId).None? ==> NotSaved(r)
    {
      var foundTodo := FirstIndex(todos, TodoIdOf, todoId);
      if foundTodo.Some? {
        var todoIndex := foundTodo.value;
        var foundSubTask := FirstIndex(todos[todoIndex].subTasks, SubTaskIdOf, subTaskId);
        if foundSubTask.Some? {
          var subTaskIndex := foundSubTask.value;
          var t := todos[todoIndex];
          todos := todos[todoIndex := t.(subTasks := t.subTasks[subTaskIndex :=
            t.subTasks[subTaskIndex].(isCompleted := !t.subTasks[subTaskIndex].isCompleted)])];
          var allSubTasksCompleted := AllCompleted(todos[todoIndex].subTasks);
          if allSubTasksCompleted && |todos[todoIndex].subTasks| != 0 {
            todos := todos[todoIndex := todos[todoIndex].(isCompleted := true)];
          } else {
            todos := todos[todoIndex := todos[todoIndex].(isCompleted := false)];
          }
          r := Save();
          return;
        }
      }
      r := Success(todos);
    }

    /** `deleteSubTask(todoId:subTaskId:)`; saves only when the task exists. */
    method DeleteSubTask(todoId: Uuid, subTaskId: Uuid) returns (r: Result<seq<TodoItem>, StorageError>)
      modifies this`todos, repository`persisted, repository`saveCount
      ensures todos == SubTasksRemoved(old(todos), todoId, subTaskId)
      ensures FirstIndex(old(todos), TodoIdOf, todoId).Some? ==> SavedOnce(r)
      ensures FirstIndex(old(todos), TodoIdOf, todoId).None? ==> NotSaved(r)
    {
      var found := FirstIndex(todos, TodoIdOf, todoId);
      if found.Some? {
        var todoIndex := found.value;
        todos := todos[todoIndex := todos[todoIndex].(subTasks := RemovedAll(todos[todoIndex].subTasks, subTaskId))];
        r := Save();
      } else {
        r := Success(todos);
      }
    }
  }
}
