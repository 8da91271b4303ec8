/** The three document kinds of models/Board.js, models/List.js and models/Task.js,
    the field values a handler hands to `new Model({...})`, and Mongoose's validation
    of them on `save()`: `required`, `enum` and `default`. */
module Schema {

  /** A MongoDB ObjectId. All ids come from one counter, so they are plain naturals. */
  type Id = nat

  /** The id of the authenticated user; users live in a collection this model leaves out. */
  type UserId = nat

  /** A due date. Its contents are never inspected, so any value stands for one. */
  type Date = int

  datatype Option<T> = None | Some(value: T)

  /** What `save()` makes of a new document: it is stored as built, or validation rejects it. */
  datatype Checked<T> = Accepted(doc: T) | Rejected

  /** Mongoose's `required` rule for a String path: it fails exactly on a missing value
      and on the empty string. */
  function HasText(s: Option<string>): (r: bool)
    ensures r <==> s != None && s != Some("")
  {
    s.Some? && |s.value| > 0
  }

  // ---------------------------------------------------------------- Task

  /** The `enum: ['low', 'medium', 'high']` of the priority path. */
  datatype Priority = Low | Medium | High

  /** The priority a task gets when none is given. */
  const DefaultPriority: Priority := Medium

  function PriorityName(p: Priority): string {
    match p
    case Low => "low"
    case Medium => "medium"
    case High => "high"
  }

  /** The enum validator: only the three names, spelt exactly, are accepted. */
  function ParsePriority(s: string): (r: Option<Priority>)
    ensures r.Some? <==> s == "low" || s == "medium" || s == "high"
    ensures r.Some? ==> PriorityName(r.value) == s
  {
    if s == "low" then Some(Low)
    else if s == "medium" then Some(Medium)
    else if s == "high" then Some(High)
    else None
  }

  /** A stored task. `description` and `dueDate` stay absent when not given. */
  datatype Task = Task(
    title: string,
    description: Option<string>,
    dueDate: Option<Date>,
    priority: Priority,
    listId: Id)

  /** The fields handed to `new Task({...})`, each possibly undefined. */
  datatype TaskFields = TaskFields(
    title: Option<string>,
    description: Option<string>,
    dueDate: Option<Date>,
    priority: Option<string>,
    listId: Option<Id>)

  /** What a stored task satisfies beyond its types: its title is required. */
  predicate TaskValid(t: Task) {
    |t.title| > 0
  }

  /** The fields that rebuild a stored task. */
  function FieldsOf(t: Task): TaskFields {
    TaskFields(Some(t.title), t.description, t.dueDate, Some(PriorityName(t.priority)), Some(t.listId))
  }

  /** `new Task(fields)` followed by validation: the default priority is filled in first,
      then `title` and `listId` are required and `priority` must be in the enum. */
  function NewTask(f: TaskFields): (r: Checked<Task>)
    ensures r.Accepted? <==>
      HasText(f.title) && f.listId.Some? && (f.priority.None? || ParsePriority(f.priority.value).Some?)
    ensures r.Accepted? ==> TaskValid(r.doc) && FieldsOf(r.doc) == f.(priority := Some(PriorityName(r.doc.priority)))
    ensures r.Accepted? && f.priority.None? ==> r.doc.priority == DefaultPriority
    ensures r.Accepted? && f.priority.Some? ==> PriorityName(r.doc.priority) == f.priority.value
  {
    var priority := if f.priority.None? then Some(DefaultPriority) else ParsePriority(f.priority.value);
    if HasText(f.title) && f.listId.Some? && priority.Some? then
      Accepted(Task(f.title.value, f.description, f.dueDate, priority.value, f.listId.value))
    else
      Rejected
  }

  /** Every valid task is what `new Task` builds from its own fields. */
  lemma TaskRoundTrip(t: Task)
    requires TaskValid(t)
    ensures NewTask(FieldsOf(t)) == Accepted(t)
  {
  }

  // ---------------------------------------------------------------- List

  /** A stored list: its title, the board it belongs to and its task ids in order. */
  datatype List = List(title: string, boardId: Id, tasks: seq<Id>)

  /** The fields handed to `new List({...})`. */
  datatype ListFields = ListFields(title: Option<string>, boardId: Option<Id>)

  predicate ListValid(l: List) {
    |l.title| > 0
  }

  /** `new List(fields)` followed by validation: `title` and `boardId` are required,
      and `tasks` starts as an empty array. */
  function NewList(f: ListFields): (r: Checked<List>)
    ensures r.Accepted? <==> HasText(f.title) && f.boardId.Some?
    ensures r.Accepted? ==> ListValid(r.doc) && r.doc.tasks == []
    ensures r.Accepted? ==> f == ListFields(Some(r.doc.title), Some(r.doc.boardId))
  {
    if HasText(f.title) && f.boardId.Some? then Accepted(List(f.title.value, f.boardId.value, []))
    else Rejected
  }

  // ---------------------------------------------------------------- Board

  /** A stored board: its owner and its list ids in order. The schema does not make
      `userId` unique; one board per user is kept by the get-or-create route. */
  datatype Board = Board(userId: UserId, lists: seq<Id>)

  /** `new Board({ userId })` followed by validation: `userId` is required, and `lists`
      starts as an empty array. */
  function NewBoard(userId: Option<UserId>): (r: Checked<Board>)
    ensures r.Accepted? <==> userId.Some?
    ensures r.Accepted? ==> userId == Some(r.doc.userId) && r.doc.lists == []
  {
    if userId.Some? then Accepted(Board(userId.value, [])) else Rejected
  }
}
