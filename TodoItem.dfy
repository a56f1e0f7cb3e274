/**
 * The value types of the todo list: a task (`TodoItem`) owning a flat,
 * ordered list of sub-tasks (`SubTask`), with the default field values of
 * their memberwise initialisers and their hand-written `==`.
 */
module Model {

  /** A UUID: a 128-bit value. */
  newtype Uuid = x: int | 0 <= x < 0x1_0000_0000_0000_0000_0000_0000_0000_0000

  /** A sub-task; `isCompleted` defaults to false. */
  datatype SubTask = SubTask(id: Uuid, title: string, isCompleted: bool := false)

  /** A task; `isCompleted`, `subTasks` and `isExpanded` have defaults. */
  datatype TodoItem = TodoItem(
    id: Uuid,
    title: string,
    isCompleted: bool := false,
    subTasks: seq<SubTask> := [],
    isExpanded: bool := false)

  /** The `Identifiable` id of a task. */
  function TodoIdOf(t: TodoItem): Uuid {
    t.id
  }

  /** The `Identifiable` id of a sub-task. */
  function SubTaskIdOf(s: SubTask): Uuid {
    s.id
  }

  /** `TodoItem(title:)` with the generated id passed in as `id`. */
  function NewTodoItem(id: Uuid, title: string): (t: TodoItem)
    ensures t.id == id && t.title == title
    ensures !t.isCompleted && t.subTasks == [] && !t.isExpanded
  {
    TodoItem(id, title)
  }

  /** `SubTask(title:)` with the generated id passed in as `id`. */
  function NewSubTask(id: Uuid, title: string): (s: SubTask)
    ensures s.id == id && s.title == title && !s.isCompleted
  {
    SubTask(id, title)
  }

  /** `SubTask.==`: the conjunction of the three field comparisons. */
  function SubTaskEquals(lhs: SubTask, rhs: SubTask): (r: bool)
    ensures r <==> lhs == rhs
  {
    lhs.id == rhs.id &&
    lhs.title == rhs.title &&
    lhs.isCompleted == rhs.isCompleted
  }

  /** `[SubTask].==`: same count and `SubTask.==` position by position. */
  function SubTasksEqual(lhs: seq<SubTask>, rhs: seq<SubTask>): (r: bool)
    ensures r <==> lhs == rhs
  {
    |lhs| == |rhs| &&
    (|lhs| == 0 || (SubTaskEquals(lhs[0], rhs[0]) && SubTasksEqual(lhs[1..], rhs[1..])))
  }

  /** `TodoItem.==`: the conjunction of the five field comparisons. */
  function TodoItemEquals(lhs: TodoItem, rhs: TodoItem): (r: bool)
    ensures r <==> lhs == rhs
  {
    lhs.id == rhs.id &&
    lhs.title == rhs.title &&
    lhs.isCompleted == rhs.isCompleted &&
    SubTasksEqual(lhs.subTasks, rhs.subTasks) &&
    lhs.isExpanded == rhs.isExpanded
  }
}
