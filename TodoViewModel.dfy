/**
 * `TodoViewModel`: the published state the screen binds to. It forwards each
 * user action to the use case, takes the returned array only when the call
 * succeeds, rejects empty titles itself, and turns a thrown error into an
 * error message.
 */
module ViewModel {
  import opened Wrappers
  import opened Model
  import opened Transitions
  import opened Storage
  import opened UseCase

  /** The action named in an error message. */
  datatype Action =
    | LoadingTodos | AddingTodo | TogglingTodoCompletion | DeletingTodo
    | TogglingTodoExpanded | AddingSubTask | TogglingSubTaskCompletion | DeletingSubTask

  /** `"<action> failed: <error>"`, kept as its two parts. */
  datatype ErrorMessage = ErrorMessage(action: Action, cause: StorageError)

  /** A snapshot of every published field. */
  datatype Published = Published(
    todos: seq<TodoItem>,
    newTodoTitle: string,
    isLoading: bool,
    errorMessage: Option<ErrorMessage>,
    showingSubTaskInput: bool,
    selectedTodoId: Option<Uuid>,
    newSubTaskTitle: string)

  class TodoViewModel {
    const todoUseCase: TodoUseCase
    var todos: seq<TodoItem>
    var newTodoTitle: string
    var isLoading: bool
    var errorMessage: Option<ErrorMessage>
    var showingSubTaskInput: bool
    var selectedTodoId: Option<Uuid>
    var newSubTaskTitle: string

    /** Every published field starts at its declared default. */
    constructor (todoUseCase: TodoUseCase)
      ensures this.todoUseCase == todoUseCase
      ensures State() == Published([], "", false, None, false, None, "")
    {
      this.todoUseCase := todoUseCase;
      todos := [];
      newTodoTitle := "";
      isLoading := false;
      errorMessage := None;
      showingSubTaskInput := false;
      selectedTodoId := None;
      newSubTaskTitle := "";
    }

    function State(): Published
      reads this
    {
      Published(todos, newTodoTitle, isLoading, errorMessage, showingSubTaskInput, selectedTodoId, newSubTaskTitle)
    }

    /** Whether a call that saves (when `saves`) threw. */
    predicate SaveFails(saves: bool)
      reads todoUseCase, todoUseCase.repository
    {
      saves && todoUseCase.repository.failing
    }

    /** The store saw one save when `saves`, and none otherwise. */
    twostate predicate StoreFollows(saves: bool)
      reads todoUseCase, todoUseCase.repository
    {
      var repository := todoUseCase.repository;
      && repository.saveCount == old(repository.saveCount) + (if saves then 1 else 0)
      && repository.persisted ==
         (if saves && !repository.failing then todoUseCase.todos else old(repository.persisted))
    }

    /**
     * A forwarding call: on success the published array becomes the use
     * case's; on failure only `isLoading` and `errorMessage` change.
     */
    twostate predicate Forwarded(saves: bool, action: Action)
      reads this, todoUseCase, todoUseCase.repository
    {
      && StoreFollows(saves)
      && State() ==
         if SaveFails(saves) then old(State()).(isLoading := false, errorMessage := Some(ErrorMessage(action, StorageError)))
         else old(State()).(todos := todoUseCase.todos)
    }

    /** `handleError(error:action:)`. */
    method HandleError(error: StorageError, action: Action)
      modifies this`isLoading, this`errorMessage
      ensures State() == old(State()).(isLoading := false, errorMessage := Some(ErrorMessage(action, error)))
    {
      isLoading := false;
      errorMessage := Some(ErrorMessage(action, error));
    }

    /** `loadTodos()`: clears the error, reloads, and always ends not loading. */
    method LoadTodos()
      modifies this, todoUseCase`todos
      ensures todoUseCase.todos ==
        if todoUseCase.repository.failing then old(todoUseCase.todos) else todoUseCase.repository.persisted
      ensures State() ==
        if todoUseCase.repository.failing then
          old(State()).(isLoading := false, errorMessage := Some(ErrorMessage(LoadingTodos, StorageError)))
        else
          old(State()).(todos := todoUseCase.todos, isLoading := false, errorMessage := None)
    {
      isLoading := true;
      errorMessage := None;
      var r := todoUseCase.GetTodos();
      match r
      case Success(ts) =>
        todos := ts;
        isLoading := false;
      case Failure(e) =>
        HandleError(e, LoadingTodos);
    }

    /** `addTodo()`: ignored for an empty title; the title is cleared only on success. */
    method AddTodo(newId: Uuid)
      modifies this, todoUseCase`todos, todoUseCase.repository`persisted, todoUseCase.repository`saveCount
      ensures old(newTodoTitle) == "" ==>
        State() == old(State()) && todoUseCase.todos == old(todoUseCase.todos) && StoreFollows(false)
      ensures old(newTodoTitle) != "" ==>
        && todoUseCase.todos == Appended(old(todoUseCase.todos), newId, old(newTodoTitle))
        && StoreFollows(true)
        && State() ==
           if SaveFails(true) then old(State()).(isLoading := false, errorMessage := Some(ErrorMessage(AddingTodo, StorageError)))
           else old(State()).(todos := todoUseCase.todos, newTodoTitle := "")
    {
      if newTodoTitle == "" {
        return;
      }
      var r := todoUseCase.AddTodo(newTodoTitle, newId);
      match r
      case Success(ts) =>
        todos := ts;
        newTodoTitle := "";
      case Failure(e) =>
        HandleError(e, AddingTodo);
    }

    /** `toggleTodoCompletion(todoId:)`. */
    method ToggleTodoCompletion(todoId: Uuid)
      modifies this, todoUseCase`todos, todoUseCase.repository`persisted, todoUseCase.repository`saveCount
      ensures todoUseCase.todos == CompletionToggled(old(todoUseCase.todos), todoId)
      ensures Forwarded(FirstIndex(old(todoUseCase.todos), TodoIdOf, todoId).Some?, TogglingTodoCompletion)
    {
      var r := todoUseCase.ToggleTodoCompletion(todoId);
      match r
      case Success(ts) =>
        todos := ts;
      case Failure(e) =>
        HandleError(e, TogglingTodoCompletion);
    }

    /** `deleteTodo(at:)`; the offsets index the use case's array. */
    method DeleteTodo(offsets: set<nat>)
      requires forall i :: i in offsets ==> i < |todoUseCase.todos|
      modifies this, todoUseCase`todos, todoUseCase.repository`persisted, todoUseCase.repository`saveCount
      ensures todoUseCase.todos == Deleted(old(todoUseCase.todos), offsets)
      ensures Forwarded(true, DeletingTodo)
    {
      var r := todoUseCase.DeleteTodo(offsets);
      match r
      case Success(ts) =>
        todos := ts;
      case Failure(e) =>
        HandleError(e, DeletingTodo);
    }

    /** `toggleTodoExpanded(todoId:)`. */
    method ToggleTodoExpanded(todoId: Uuid)
      modifies this, todoUseCase`todos, todoUseCase.repository`persisted, todoUseCase.repository`saveCount
      ensures todoUseCase.todos == ExpandedToggled(old(todoUseCase.todos), todoId)
      ensures Forwarded(FirstIndex(old(todoUseCase.todos), TodoIdOf, todoId).Some?, TogglingTodoExpanded)
    {
      var r := todoUseCase.ToggleTodoExpanded(todoId);
      match r
      case Success(ts) =>
        todos := ts;
      case Failure(e) =>
        HandleError(e, TogglingTodoExpanded);
    }

    /**
     * `addSubTask(todoId:)`: ignored for an empty title; on success the title
     * is cleared and the sub-task input is hidden.
     */
    method AddSubTask(todoId: Uuid, newId: Uuid)
      modifies this, todoUseCase`todos, todoUseCase.repository`persisted, todoUseCase.repository`saveCount
      ensures old(newSubTaskTitle) == "" ==>
        State() == old(State()) && todoUseCase.todos == old(todoUseCase.todos) && StoreFollows(false)
      ensures old(newSubTaskTitle) != "" ==>
        var saves := FirstIndex(old(todoUseCase.todos), TodoIdOf, todoId).Some?;
        && todoUseCase.todos == SubTaskAppended(old(todoUseCase.todos), todoId, newId, old(newSubTaskTitle))
        && StoreFollows(saves)
        && State() ==
           if SaveFails(saves) then old(State()).(isLoading := false, errorMessage := Some(ErrorMessage(AddingSubTask, StorageError)))
           else old(State()).(todos := todoUseCase.todos, newSubTaskTitle := "", showingSubTaskInput := false)
    {
      if newSubTaskTitle == "" {
        return;
      }
      var r := todoUseCase.AddSubTask(todoId, newSubTaskTitle, newId);
      match r
      case Success(ts) =>
        todos := ts;
        newSubTaskTitle := "";
        showingSubTaskInput := false;
      case Failure(e) =>
        HandleError(e, AddingSubTask);
    }

    /** `toggleSubTaskCompletion(todoId:subTaskId:)`. */
    method ToggleSubTaskCompletion(todoId: Uuid, subTaskId: Uuid)
      modifies this, todoUseCase`todos, todoUseCase.repository`persisted, todoUseCase.repository`saveCount
      ensures todoUseCase.todos == SubTaskToggled(old(todoUseCase.todos), todoId, subTaskId)
      ensures Forwarded(SubTaskPosition(old(todoUseCase.todos), todoId, subTaskId).Some?, TogglingSubTaskCompletion)
    {
      var r := todoUseCase.ToggleSubTaskCompletion(todoId, subTaskId);
      match r
      case Success(ts) =>
        todos := ts;
      case Failure(e) =>
        HandleError(e, TogglingSubTaskCompletion);
    }

    /** `deleteSubTask(todoId:subTaskId:)`. */
    method DeleteSubTask(todoId: Uuid, subTaskId: Uuid)
      modifies this, todoUseCase`todos, todoUseCase.repository`persisted, todoUseCase.repository`saveCount
      ensures todoUseCase.todos == SubTasksRemoved(old(todoUseCase.todos), todoId, subTaskId)
      ensures Forwarded(FirstIndex(old(todoUseCase.todos), TodoIdOf, todoId).Some?, DeletingSubTask)
    {
      var r := todoUseCase.DeleteSubTask(todoId, subTaskId);
      match r
      case Success(ts) =>
        todos := ts;
      case Failure(e) =>
        HandleError(e, DeletingSubTask);
    }
  }
}
