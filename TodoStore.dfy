/**
 * The repository the use case saves to and loads from, as an abstract store:
 * the task array it would decode from the stored blob, and whether the next
 * access fails (an encoding, decoding or storage failure).
 */
module Storage {
  import opened Wrappers
  import opened Model

  /** The one error kind of the storage layer. */
  datatype StorageError = StorageError

  class TodoRepository {
    /** The array the persisted blob decodes to; `[]` when nothing was saved. */
    var persisted: seq<TodoItem>
    /** Whether loads and saves currently throw. */
    var failing: bool
    /** How many times `SaveTodos` has been called. */
    ghost var saveCount: nat

    /** A store holding `persisted`, failing or not as `failing` says. */
    constructor (persisted: seq<TodoItem>, failing: bool)
      ensures this.persisted == persisted && this.failing == failing && saveCount == 0
    {
      this.persisted := persisted;
      this.failing := failing;
      saveCount := 0;
    }

    /** `saveTodos(_:)`: overwrite the whole stored array, unless the store fails. */
    method SaveTodos(todos: seq<TodoItem>) returns (r: Outcome<StorageError>)
      modifies this`persisted, this`saveCount
      ensures saveCount == old(saveCount) + 1
      ensures r == if failing then Fail(StorageError) else Pass
      ensures persisted == if failing then old(persisted) else todos
    {
      saveCount := saveCount + 1;
      if failing {
        r := Fail(StorageError);
      } else {
        persisted := todos;
        r := Pass;
      }
    }

    /** `loadTodos()`: the stored array, unless the store fails. */
    method LoadTodos() returns (r: Result<seq<TodoItem>, StorageError>)
      ensures r == if failing then Failure(StorageError) else Success(persisted)
    {
      if failing {
        r := Failure(StorageError);
      } else {
        r := Success(persisted);
      }
    }

    /** The environment makes the store start or stop failing. */
    method SetFailing(failing: bool)
      modifies this`failing
      ensures this.failing == failing
    {
      this.failing := failing;
    }
  }

  /** Saving an array and loading it back yields the same array, in the same order. */
  method SaveThenLoad(repository: TodoRepository, todos: seq<TodoItem>)
    returns (r: Result<seq<TodoItem>, StorageError>)
    modifies repository
    ensures !old(repository.failing) ==> r == Success(todos)
    ensures old(repository.failing) ==> r.Failure?
  {
    var saved := repository.SaveTodos(todos);
    r := repository.LoadTodos();
  }
}
