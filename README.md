# MyTodo: the todo-collection state layer, modelled in Dafny

MyTodo is a single-user task list. A task (`TodoItem`) has an id, a title, a
completion flag, a flat ordered list of sub-tasks (`SubTask`) and a UI-only
"expanded" flag. `TodoUseCase` owns the authoritative in-memory array of tasks.
Each of its operations changes that array in place and then saves the whole
array through a repository. `TodoViewModel` holds the fields the screen binds
to. It forwards user actions to the use case, rejects empty titles, and turns a
thrown storage error into an error message.

The project has one module per part of the program:

- `Wrappers` (`Wrappers.dfy`): `Option`, plus `Result` and `Outcome` standing for a Swift `throws`.
- `Model` (`TodoItem.dfy`): the two value types, with Swift's default field
  values written as defaulted constructor parameters. It also has the
  hand-written `==` functions, each proved to coincide with structural equality.
- `Offsets` (`Offsets.dfy`): `remove(atOffsets:)` as a function on sequences.
  `KeptIndices` describes its result at the level of indices: the survivors,
  in their original order.
- `Transitions` (`TodoTransitions.dfy`): for each use-case operation, a
  function from the task array before the call to the array after it. Each
  function's `ensures` says what changes and what stays the same. This is the
  specification the use case's in-place code is proved against.
- `Storage` (`TodoStore.dfy`): the repository, as an abstract store
  (`TodoRepository`). It holds the array the saved blob decodes to, a `failing`
  flag for the environment, and a ghost count of save calls.
- `UseCase` (`TodoUseCase.dfy`): class `TodoUseCase`, with a `todos: seq<TodoItem>`
  field. Each method updates the field in place and then saves. The completion
  cascade is a `while` loop over the sub-tasks.
- `ViewModel` (`TodoViewModel.dfy`): class `TodoViewModel`, with the published
  fields. Each method's `ensures` gives the whole new published state.
- `Properties` (`TodoProperties.dfy`): lemmas that relate several calls. They
  cover: id uniqueness is preserved; toggles undo themselves (and the one-way
  cascade does not); deleting by a unique id removes exactly one entry; and two
  scenarios: adding a task, completing its only sub-task and then adding a
  second one (the task stays completed); and deleting the first of two tasks.

Modelling choices:

- A UUID is a 128-bit value (`Model.Uuid`). `UUID()` is modelled as a
  caller-supplied `newId` parameter. The source does not check that a new id is
  fresh, so the methods do not require it. Freshness is needed only in the lemmas
  that show id uniqueness is preserved (`Properties.AppendedWellFormed`,
  `Properties.SubTaskAppendedWellFormed`) and in the lemma that deleting the
  sub-task just added restores the array (`Properties.SubTaskAppendedThenRemoved`).
- A thrown error is a `Failure` result. The error message
  `"<action>に失敗しました: <error>"` is kept as its two parts,
  `ErrorMessage(action, cause)`.
- Persistence happens after the in-memory change and is never rolled back. The
  use-case methods state `todos` unconditionally and say separately whether a
  save happened (`SavedOnce` or `NotSaved`).
- After a failed save, the view model keeps its previous `todos`, but the use
  case's array has already changed. The two arrays then differ until the next
  successful call. The view-model contracts state this (`Forwarded`).

Where the code's behaviour may be unexpected, the model follows the code:

- `TodoUseCase.addTodo` and `addSubTask` do not reject an empty title. Only
  `TodoViewModel.addTodo` and `addSubTask` do.
- `deleteTodo(at:)` uses `remove(atOffsets:)`, which traps on an offset out of
  range; it does not ignore such offsets. `UseCase.TodoUseCase.DeleteTodo`
  therefore requires every offset to be in range.
- `deleteSubTask` removes every sub-task with the id, not just one. It never
  recomputes the parent's completion.

## Model

| member | source | states |
|---|---|---|
| `Model.NewTodoItem` | MyTodo/Domain/Model/TodoItem.swift:10-15 | a new task has the given id and title, is not completed, has no sub-tasks and is not expanded |
| `Model.NewSubTask` | MyTodo/Domain/Model/TodoItem.swift:26-29 | a new sub-task has the given id and title and is not completed |
| `Model.SubTaskEquals` | MyTodo/Domain/Model/TodoItem.swift:31-35 | the field-wise `==` of sub-tasks holds exactly when the two values are equal |
| `Model.SubTasksEqual` | MyTodo/Domain/Model/TodoItem.swift:21 | the array `==` (same count, element-wise `SubTask.==`) holds exactly when the two sequences are equal |
| `Model.TodoItemEquals` | MyTodo/Domain/Model/TodoItem.swift:17-23 | the field-wise `==` of tasks holds exactly when the two values are equal |
| `Offsets.KeptIndices` | MyTodo/Domain/UseCase/TodoUseCase.swift:61 | the offsets that survive are below n, not among the removed ones, strictly increasing, and include every offset not removed |
| `Offsets.KeptIndicesCount` | MyTodo/Domain/UseCase/TodoUseCase.swift:61 | the number of survivors is n minus the number of removed offsets below n |
| `Offsets.RemoveOffsets` | MyTodo/Domain/UseCase/TodoUseCase.swift:61 | the result is no longer than the input, contains only input elements, and contains every element at an offset that was not removed |
| `Offsets.RemoveOffsetsSelectsKept` | MyTodo/Domain/UseCase/TodoUseCase.swift:61 | the result is the input read at the surviving offsets, in order |
| `Offsets.RemoveOffsetsBeyondEnd` | MyTodo/Domain/UseCase/TodoUseCase.swift:61 | proof helper about the model's `RemoveOffsets` only (Swift traps on such offsets, and `Deleted` excludes them): offsets at or beyond the end remove nothing, so an empty set or the offset just past a list leaves it unchanged |
| `Transitions.FirstIndex` | MyTodo/Domain/UseCase/TodoUseCase.swift:84-85 | `firstIndex(where:)` on tasks or sub-tasks by id: the index found holds the id and no earlier element does; none is found exactly when no element has the id |
| `Transitions.CompletedAll` | MyTodo/Domain/UseCase/TodoUseCase.swift:51-53 | the cascade keeps every sub-task's id and title and leaves all of them completed |
| `Transitions.RemovedAll` | MyTodo/Domain/UseCase/TodoUseCase.swift:103 | no survivor has the id, every survivor was in the list, and every sub-task with another id survives; the survivors are exactly the sub-tasks at the non-matching offsets, once each and in their original order |
| `Transitions.Appended` | MyTodo/Domain/UseCase/TodoUseCase.swift:39-44 | the array grows by one: the old array is an unchanged prefix, and the new last task has the given id and title (even an empty one), is not completed, has no sub-tasks and is not expanded |
| `Transitions.CompletionToggled` | MyTodo/Domain/UseCase/TodoUseCase.swift:46-58 | an unknown id changes nothing; otherwise only the first matching task changes and its completion is negated; if it becomes completed, all its sub-tasks become completed with ids and titles kept; if it becomes open, its sub-tasks are untouched |
| `Transitions.Deleted` | MyTodo/Domain/UseCase/TodoUseCase.swift:60-64 | with offsets in range, the length drops by the number of offsets; the result has only old tasks and every task at an offset not listed |
| `Transitions.ExpandedToggled` | MyTodo/Domain/UseCase/TodoUseCase.swift:66-72 | an unknown id changes nothing; otherwise only `isExpanded` of the first matching task flips, and every other field and task is unchanged |
| `Transitions.SubTaskAppended` | MyTodo/Domain/UseCase/TodoUseCase.swift:74-81 | an unknown task changes nothing; otherwise one open sub-task with the given id and title is appended to the first matching task, whose own completion is not recomputed |
| `Transitions.SubTaskPosition` | MyTodo/Domain/UseCase/TodoUseCase.swift:84-85 | a position found is the first task with the task id and, within it, the first sub-task with the sub-task id; none is found exactly when no task has the id or the first such task has no sub-task with the sub-task id (later tasks with a repeated id are not searched) |
| `Transitions.SubTaskToggled` | MyTodo/Domain/UseCase/TodoUseCase.swift:83-99 | a missing task or sub-task changes nothing; otherwise only the first matching sub-task flips, its siblings and the other tasks are unchanged, and the parent becomes "has sub-tasks and all are completed" |
| `Transitions.SubTasksRemoved` | MyTodo/Domain/UseCase/TodoUseCase.swift:101-107 | an unknown task changes nothing; otherwise the first matching task's sub-tasks become `RemovedAll` of the old ones (every sub-task with the id goes, the rest stay in order), and its completion and other fields stay the same |
| `Storage.TodoRepository.constructor` | MyTodo/Data/LocalDataSource/TodoLocalDataSource.swift:28-30 | the store starts with the given stored array (`[]` when nothing was saved) and failure mode |
| `Storage.TodoRepository.SaveTodos` | MyTodo/Domain/Repository/TodoRepository.swift:22-24 | each call counts as one save; it fails exactly when the store is failing, and otherwise overwrites the stored array with the whole given array |
| `Storage.TodoRepository.LoadTodos` | MyTodo/Domain/Repository/TodoRepository.swift:26-28 | returns the stored array, or fails when the store is failing |
| `Storage.TodoRepository.SetFailing` | MyTodoTests/Domain/UseCase/TodoUseCaseTests.swift:217 | the environment switches the store's failure mode |
| `Storage.SaveThenLoad` | MyTodoTests/Data/LocalDataSource/TodoLocalDataSourceTests.swift:38-56 | saving an array and loading it back returns the same array, unless the store fails |
| `UseCase.TodoUseCase.constructor` | MyTodo/Domain/UseCase/TodoUseCase.swift:25-32 | the use case starts from the stored array, or from `[]` when the first load fails |
| `UseCase.TodoUseCase.Save` | MyTodo/Domain/UseCase/TodoUseCase.swift:42 | one save of the whole current array; the call fails exactly when that save fails |
| `UseCase.TodoUseCase.GetTodos` | MyTodo/Domain/UseCase/TodoUseCase.swift:34-37 | the array is replaced by the stored one only when the load succeeds; on failure it is unchanged and the call fails |
| `UseCase.TodoUseCase.AddTodo` | MyTodo/Domain/UseCase/TodoUseCase.swift:39-44 | the array becomes `Appended` of the old one, then it is saved once; a failed save keeps the change |
| `UseCase.TodoUseCase.ToggleTodoCompletion` | MyTodo/Domain/UseCase/TodoUseCase.swift:46-58 | the in-place toggle and cascade loop leave exactly `CompletionToggled`; it saves once when the task exists and not at all otherwise |
| `UseCase.TodoUseCase.DeleteTodo` | MyTodo/Domain/UseCase/TodoUseCase.swift:60-64 | with offsets in range, the array becomes `Deleted` of the old one, then it is saved once |
| `UseCase.TodoUseCase.ToggleTodoExpanded` | MyTodo/Domain/UseCase/TodoUseCase.swift:66-72 | the array becomes `ExpandedToggled`; it saves only when the task exists |
| `UseCase.TodoUseCase.AddSubTask` | MyTodo/Domain/UseCase/TodoUseCase.swift:74-81 | the array becomes `SubTaskAppended`; it saves only when the task exists |
| `UseCase.TodoUseCase.ToggleSubTaskCompletion` | MyTodo/Domain/UseCase/TodoUseCase.swift:83-99 | the array becomes `SubTaskToggled`; it saves only when both the task and the sub-task exist |
| `UseCase.TodoUseCase.DeleteSubTask` | MyTodo/Domain/UseCase/TodoUseCase.swift:101-107 | the array becomes `SubTasksRemoved`; it saves only when the task exists |
| `ViewModel.TodoViewModel.constructor` | MyTodo/Presentation/ViewModel/TodoViewModel.swift:13-26 | every published field starts at its declared default |
| `ViewModel.TodoViewModel.HandleError` | MyTodo/Presentation/ViewModel/TodoViewModel.swift:107-111 | loading stops and the error message names the action and the error; nothing else changes |
| `ViewModel.TodoViewModel.LoadTodos` | MyTodo/Presentation/ViewModel/TodoViewModel.swift:30-40 | always ends not loading; on success `todos` is the stored array and the error is cleared; on failure `todos` is unchanged and the error names the load |
| `ViewModel.TodoViewModel.AddTodo` | MyTodo/Presentation/ViewModel/TodoViewModel.swift:42-51 | an empty title changes nothing and does not call the use case; otherwise the use case appends; on success `todos` follows it and the title is cleared; on failure the title and `todos` are kept, loading stops and the error is set |
| `ViewModel.TodoViewModel.ToggleTodoCompletion` | MyTodo/Presentation/ViewModel/TodoViewModel.swift:53-59 | `todos` takes the use case's array only when the call succeeds; on failure only the loading flag and error change |
| `ViewModel.TodoViewModel.DeleteTodo` | MyTodo/Presentation/ViewModel/TodoViewModel.swift:61-67 | the same for deletion by offsets, which must be in range of the use case's array |
| `ViewModel.TodoViewModel.ToggleTodoExpanded` | MyTodo/Presentation/ViewModel/TodoViewModel.swift:69-75 | the same for the expanded flag |
| `ViewModel.TodoViewModel.AddSubTask` | MyTodo/Presentation/ViewModel/TodoViewModel.swift:77-87 | an empty sub-task title changes nothing; on success the title is cleared and the input is hidden; on failure both are kept and the error is set |
| `ViewModel.TodoViewModel.ToggleSubTaskCompletion` | MyTodo/Presentation/ViewModel/TodoViewModel.swift:89-95 | `todos` takes the use case's array only when the call succeeds |
| `ViewModel.TodoViewModel.DeleteSubTask` | MyTodo/Presentation/ViewModel/TodoViewModel.swift:97-103 | `todos` takes the use case's array only when the call succeeds |
| `Properties.FirstIndexOfSameIds` | MyTodo/Domain/UseCase/TodoUseCase.swift:84-85 | the lookup depends only on the ids, so an operation that keeps ids keeps every later lookup |
| `Properties.FirstIndexIsOnly` | MyTodo/Domain/UseCase/TodoUseCase.swift:47 | with unique ids, the task found is the only one with that id |
| `Properties.AppendedWellFormed` | MyTodo/Domain/UseCase/TodoUseCase.swift:39-44 | adding a task with a fresh id keeps all ids unique |
| `Properties.CompletionToggledWellFormed` | MyTodo/Domain/UseCase/TodoUseCase.swift:46-58 | toggling completion keeps ids unique |
| `Properties.ExpandedToggledWellFormed` | MyTodo/Domain/UseCase/TodoUseCase.swift:66-72 | toggling the expanded flag keeps ids unique |
| `Properties.SubTaskAppendedWellFormed` | MyTodo/Domain/UseCase/TodoUseCase.swift:74-81 | adding a sub-task with a fresh id keeps ids unique |
| `Properties.SubTaskToggledWellFormed` | MyTodo/Domain/UseCase/TodoUseCase.swift:83-99 | toggling a sub-task keeps ids unique |
| `Properties.RemovedAllDistinct` | MyTodo/Domain/UseCase/TodoUseCase.swift:103 | removing sub-tasks keeps the survivors' ids unique |
| `Properties.SubTasksRemovedWellFormed` | MyTodo/Domain/UseCase/TodoUseCase.swift:101-107 | deleting a sub-task keeps ids unique |
| `Properties.DeletedWellFormed` | MyTodo/Domain/UseCase/TodoUseCase.swift:60-64 | deleting tasks keeps ids unique |
| `Properties.DeletedKeepsOrder` | MyTodo/Domain/UseCase/TodoUseCase.swift:60-64 | the tasks left are exactly those at the offsets not listed, in their original relative order |
| `Properties.RemovedAllRemovesOne` | MyTodo/Domain/UseCase/TodoUseCase.swift:103 | with unique sub-task ids, deleting a present sub-task removes exactly one entry |
| `Properties.RemovedAllAbsent` | MyTodo/Domain/UseCase/TodoUseCase.swift:103 | deleting an absent sub-task id leaves the list as it was |
| `Properties.AppendedThenDeleted` | MyTodo/Domain/UseCase/TodoUseCase.swift:39-64 | deleting the task just added, at the last offset, restores the array |
| `Properties.SubTaskAppendedThenRemoved` | MyTodo/Domain/UseCase/TodoUseCase.swift:74-107 | with a fresh sub-task id, deleting the sub-task just added restores the array |
| `Properties.ExpandedToggledTwice` | MyTodo/Domain/UseCase/TodoUseCase.swift:66-72 | toggling the expanded flag twice restores the array |
| `Properties.CompletionToggledTwice` | MyTodo/Domain/UseCase/TodoUseCase.swift:48-54 | the cascade is one-way: completing and then reopening a task leaves it open with all its sub-tasks completed |
| `Properties.SubTaskToggledTwice` | MyTodo/Domain/UseCase/TodoUseCase.swift:83-99 | toggling a sub-task twice restores the sub-tasks and leaves the parent derived from them |
| `Properties.LastOpenSubTaskCompletesParent` | MyTodo/Domain/UseCase/TodoUseCase.swift:89-91 | completing the last open sub-task completes the parent |
| `Properties.ReopenedSubTaskReopensParent` | MyTodo/Domain/UseCase/TodoUseCase.swift:89-94 | reopening any sub-task reopens the parent |
| `Properties.BuyMilkScenario` | MyTodo/Domain/UseCase/TodoUseCase.swift:74-99 | add a task, add and complete its only sub-task (the task completes), add a second sub-task: it is open, but the task stays completed because adding does not recompute |
| `Properties.DeletingOpenSubTaskKeepsParentOpen` | MyTodo/Domain/UseCase/TodoUseCase.swift:101-107 | deleting the only open sub-task leaves the parent open although all remaining sub-tasks are completed |
| `Properties.DeleteFirstOfTwo` | MyTodoTests/Domain/UseCase/TodoUseCaseTests.swift:92-108 | deleting offset 0 of two tasks leaves only the second |

## Left out

- SwiftUI layout, animation and bindings (`ContentView.swift`, `MyTodoApp.swift`) are not modelled. Neither is the "n/m 完了" count, which is rendering only. `selectedTodoId` is a field of the view model, but only the screen sets it.
- The dependency container (`DIContainer.swift`) is wiring only. The model passes the repository and the use case to the constructors instead.
- `UserDefaults` and the JSON encoder and decoder are foreign calls. They are replaced by the abstract store `Storage.TodoRepository`: its stored array is what the blob decodes to, and `failing` stands for any encoding, decoding or storage error. The repository's pass-through to the data source is folded into that store.
- UUID generation is random. New ids are parameters.
- Error text, `localizedDescription`, `print` logging and the Combine `cancellables` are not modelled. The error message keeps only the action and the error.
- The view model depends on the protocol `TodoUseCaseProtocol`, and the use case on the protocol `TodoRepositoryProtocol`. The model fixes the concrete classes, so the view model's contracts can speak about the use case's state.
- Publishing of changes to observers (`@Published`) is not modelled. The model keeps only the field values.
- Model.SubTaskEquals and Model.TodoItemEquals compare titles as character sequences. Swift's `String ==` compares up to Unicode canonical equivalence (a precomposed "é" equals "e" followed by a combining acute accent); the model has no normalisation, so it treats such titles as different.
