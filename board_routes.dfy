/** The six handlers of routes/board.js over the Board, List and Task collections.
    Each request runs as one atomic step; the caller's user id, which the
    authentication middleware supplies, is a parameter. */
module BoardRoutes {
  import opened Schema
  import opened Refs

  /** The kind of response a handler sends: the 404s, a rejected `save()`, and the
      `TypeError` that the task deletion throws when the owning list is gone. */
  datatype Outcome<T> = Ok(value: T) | NotFound | Invalid | Fault

  // ------------------------------------------------ referential integrity

  /** Every list id on a board names a list that points back at that board. */
  ghost predicate BoardsToLists(boards: map<Id, Board>, lists: map<Id, List>) {
    forall b, l :: b in boards && l in boards[b].lists ==> l in lists && lists[l].boardId == b
  }

  /** Every list belongs to an existing board that carries its id. */
  ghost predicate ListsToBoards(boards: map<Id, Board>, lists: map<Id, List>) {
    forall l :: l in lists ==> lists[l].boardId in boards && l in boards[lists[l].boardId].lists
  }

  /** Every task id on a list names a task that points back at that list. */
  ghost predicate ListsToTasks(lists: map<Id, List>, tasks: map<Id, Task>) {
    forall l, t :: l in lists && t in lists[l].tasks ==> t in tasks && tasks[t].listId == l
  }

  /** Every task belongs to an existing list that carries its id. */
  ghost predicate TasksToLists(lists: map<Id, List>, tasks: map<Id, Task>) {
    forall t :: t in tasks ==> tasks[t].listId in lists && t in lists[tasks[t].listId].tasks
  }

  /** No reference array holds an id twice. */
  ghost predicate NoDupRefs(boards: map<Id, Board>, lists: map<Id, List>) {
    && (forall b :: b in boards ==> NoDup(boards[b].lists))
    && (forall l :: l in lists ==> NoDup(lists[l].tasks))
  }

  /** The reference arrays and the back-references agree, in both directions. */
  ghost predicate Linked(boards: map<Id, Board>, lists: map<Id, List>, tasks: map<Id, Task>) {
    && BoardsToLists(boards, lists)
    && ListsToBoards(boards, lists)
    && ListsToTasks(lists, tasks)
    && TasksToLists(lists, tasks)
    && NoDupRefs(boards, lists)
  }

  /** Task `t` is on list `l`, exactly once, and on no other list. */
  ghost predicate PlacedOnce(lists: map<Id, List>, t: Id, l: Id) {
    && l in lists
    && multiset(lists[l].tasks)[t] == 1
    && forall m :: m in lists && m != l ==> t !in lists[m].tasks
  }

  /** In a linked store every task sits on its own list and nowhere else. */
  lemma LinkedPlacesEachTaskOnce(boards: map<Id, Board>, lists: map<Id, List>, tasks: map<Id, Task>, t: Id)
    requires Linked(boards, lists, tasks) && t in tasks
    ensures PlacedOnce(lists, t, tasks[t].listId)
  {
    assert multiset(lists[tasks[t].listId].tasks)[t] <= 1;
  }

  /** `Task.deleteMany({ listId })`: the tasks left once those of `listId` are gone. */
  function DropTasksOf(tasks: map<Id, Task>, listId: Id): (r: map<Id, Task>)
    ensures forall t :: t in r <==> t in tasks && tasks[t].listId != listId
    ensures forall t :: t in r ==> r[t] == tasks[t]
  {
    map t | t in tasks && tasks[t].listId != listId :: tasks[t]
  }

  /** `board.lists.push(l)` followed by `board.save()`: `l` is appended at the end of
      board `b`'s ids, whose earlier entries stay as they were; nothing else changes. */
  function PushList(boards: map<Id, Board>, b: Id, l: Id): (r: map<Id, Board>)
    requires b in boards
    ensures r.Keys == boards.Keys
    ensures forall c :: c in boards && c != b ==> r[c] == boards[c]
    ensures r[b].userId == boards[b].userId
    ensures |r[b].lists| == |boards[b].lists| + 1 && r[b].lists[|boards[b].lists|] == l
    ensures forall i :: 0 <= i < |boards[b].lists| ==> r[b].lists[i] == boards[b].lists[i]
  {
    boards[b := boards[b].(lists := boards[b].lists + [l])]
  }

  /** `board.lists = board.lists.filter(id => id !== l)` followed by `board.save()`:
      every occurrence of `l` leaves board `b`'s ids, the others keep their order and
      their counts; nothing else changes. */
  function PullList(boards: map<Id, Board>, b: Id, l: Id): (r: map<Id, Board>)
    requires b in boards
    ensures r.Keys == boards.Keys
    ensures forall c :: c in boards && c != b ==> r[c] == boards[c]
    ensures r[b].userId == boards[b].userId
    ensures multiset(r[b].lists) == multiset(boards[b].lists)[l := 0]
    ensures Subseq(r[b].lists, boards[b].lists)
  {
    WithoutCounts(boards[b].lists, l);
    WithoutIsSubseq(boards[b].lists, l);
    boards[b := boards[b].(lists := Without(boards[b].lists, l))]
  }

  /** `list.tasks.push(t)` followed by `list.save()`: `t` is appended at the end of list
      `l`'s ids, whose earlier entries stay as they were; nothing else changes. */
  function PushTask(lists: map<Id, List>, l: Id, t: Id): (r: map<Id, List>)
    requires l in lists
    ensures r.Keys == lists.Keys
    ensures forall m :: m in lists && m != l ==> r[m] == lists[m]
    ensures r[l].title == lists[l].title && r[l].boardId == lists[l].boardId
    ensures |r[l].tasks| == |lists[l].tasks| + 1 && r[l].tasks[|lists[l].tasks|] == t
    ensures forall i :: 0 <= i < |lists[l].tasks| ==> r[l].tasks[i] == lists[l].tasks[i]
  {
    lists[l := lists[l].(tasks := lists[l].tasks + [t])]
  }

  /** `list.tasks = list.tasks.filter(id => id !== t)` followed by `list.save()`: every
      occurrence of `t` leaves list `l`'s ids, the others keep their order and their
      counts; nothing else changes. */
  function PullTask(lists: map<Id, List>, l: Id, t: Id): (r: map<Id, List>)
    requires l in lists
    ensures r.Keys == lists.Keys
    ensures forall m :: m in lists && m != l ==> r[m] == lists[m]
    ensures r[l].title == lists[l].title && r[l].boardId == lists[l].boardId
    ensures multiset(r[l].tasks) == multiset(lists[l].tasks)[t := 0]
    ensures Subseq(r[l].tasks, lists[l].tasks)
  {
    WithoutCounts(lists[l].tasks, t);
    WithoutIsSubseq(lists[l].tasks, t);
    lists[l := lists[l].(tasks := Without(lists[l].tasks, t))]
  }

  /** Lines 91-103 of the move, pointwise: the task id is filtered off `src` when that
      list exists and pushed on `dst` when that list exists; no other list changes. */
  ghost predicate Relinked(before: map<Id, List>, after: map<Id, List>, t: Id, src: Id, dst: Id) {
    && after.Keys == before.Keys
    && (forall l :: l in after && l != src && l != dst ==> after[l] == before[l])
    && (src in before ==> after[src] == before[src].(tasks := Without(before[src].tasks, t)))
    && (dst in before ==> after[dst] == before[dst].(tasks := before[dst].tasks + [t]))
  }

  // ------------------------------------------------ what each handler does to integrity

  /** Creating an empty board for a new user keeps the store linked. */
  lemma LinkedAfterNewBoard(boards: map<Id, Board>, lists: map<Id, List>, tasks: map<Id, Task>,
                            id: Id, userId: UserId)
    requires Linked(boards, lists, tasks) && id !in boards
    ensures Linked(boards[id := Board(userId, [])], lists, tasks)
  {
  }

  /** The board side of a list creation: the new list points at the board that now
      carries its id. */
  lemma NewListBoardSide(boards: map<Id, Board>, lists: map<Id, List>, b: Id, id: Id, title: string)
    requires BoardsToLists(boards, lists) && ListsToBoards(boards, lists) && b in boards && id !in lists
    ensures BoardsToLists(PushList(boards, b, id), lists[id := List(title, b, [])])
    ensures ListsToBoards(PushList(boards, b, id), lists[id := List(title, b, [])])
  {
    var boards', lists' := PushList(boards, b, id), lists[id := List(title, b, [])];
    forall c, l | c in boards' && l in boards'[c].lists
      ensures l in lists' && lists'[l].boardId == c
    {
      if c != b || l != id {
        assert l in boards[c].lists;
      }
    }
  }

  /** The task side of a list creation: the new list holds no task. */
  lemma NewListTaskSide(lists: map<Id, List>, tasks: map<Id, Task>, b: Id, id: Id, title: string)
    requires ListsToTasks(lists, tasks) && TasksToLists(lists, tasks) && id !in lists
    ensures ListsToTasks(lists[id := List(title, b, [])], tasks)
    ensures TasksToLists(lists[id := List(title, b, [])], tasks)
  {
  }

  /** Storing a new list and pushing its id on its board keeps the store linked. */
  lemma LinkedAfterNewList(boards: map<Id, Board>, lists: map<Id, List>, tasks: map<Id, Task>,
                           b: Id, id: Id, title: string)
    requires Linked(boards, lists, tasks) && b in boards && id !in lists
    ensures Linked(PushList(boards, b, id), lists[id := List(title, b, [])], tasks)
  {
    NewListBoardSide(boards, lists, b, id, title);
    NewListTaskSide(lists, tasks, b, id, title);
    assert id !in boards[b].lists;
    PushKeepsNoDup(boards[b].lists, id);
  }

  /** The task side of a task creation: the new task points at the list that now
      carries its id. */
  lemma NewTaskTaskSide(lists: map<Id, List>, tasks: map<Id, Task>, id: Id, task: Task)
    requires ListsToTasks(lists, tasks) && TasksToLists(lists, tasks) && task.listId in lists && id !in tasks
    ensures ListsToTasks(PushTask(lists, task.listId, id), tasks[id := task])
    ensures TasksToLists(PushTask(lists, task.listId, id), tasks[id := task])
  {
    var l := task.listId;
    var lists', tasks' := PushTask(lists, l, id), tasks[id := task];
    forall m, t | m in lists' && t in lists'[m].tasks
      ensures t in tasks' && tasks'[t].listId == m
    {
      if m != l || t != id {
        assert t in lists[m].tasks;
      }
    }
  }

  /** Storing a new task and pushing its id on its list keeps the store linked. */
  lemma LinkedAfterNewTask(boards: map<Id, Board>, lists: map<Id, List>, tasks: map<Id, Task>,
                           id: Id, task: Task)
    requires Linked(boards, lists, tasks) && task.listId in lists && id !in tasks
    ensures Linked(boards, PushTask(lists, task.listId, id), tasks[id := task])
  {
    var l := task.listId;
    NewTaskTaskSide(lists, tasks, id, task);
    BoardSideKept(boards, lists, PushTask(lists, l, id));
    assert id !in lists[l].tasks;
    PushKeepsNoDup(lists[l].tasks, id);
  }

  /** An edit that keeps the set of lists and each list's board keeps the board side linked. */
  lemma BoardSideKept(boards: map<Id, Board>, lists: map<Id, List>, lists': map<Id, List>)
    requires BoardsToLists(boards, lists) && ListsToBoards(boards, lists)
    requires lists'.Keys == lists.Keys
    requires forall l :: l in lists ==> lists'[l].boardId == lists[l].boardId
    ensures BoardsToLists(boards, lists') && ListsToBoards(boards, lists')
  {
  }

  /** The board side of a list deletion: the caller's board drops the id, no other
      board held it. */
  lemma DeleteListBoardSide(boards: map<Id, Board>, lists: map<Id, List>, b: Id, listId: Id)
    requires BoardsToLists(boards, lists) && ListsToBoards(boards, lists)
    requires b in boards && listId in lists && lists[listId].boardId == b
    ensures BoardsToLists(PullList(boards, b, listId), lists - {listId})
    ensures ListsToBoards(PullList(boards, b, listId), lists - {listId})
  {
    var boards', lists' := PullList(boards, b, listId), lists - {listId};
    forall c, l | c in boards' && l in boards'[c].lists
      ensures l in lists' && lists'[l].boardId == c
    {
      assert l in boards[c].lists;
    }
    forall l | l in lists'
      ensures lists'[l].boardId in boards' && l in boards'[lists'[l].boardId].lists
    {
      assert l in boards[lists[l].boardId].lists;
    }
  }

  /** The task side of a list deletion: the remaining lists hold only remaining tasks. */
  lemma DeleteListTaskSide(lists: map<Id, List>, tasks: map<Id, Task>, listId: Id)
    requires ListsToTasks(lists, tasks) && TasksToLists(lists, tasks)
    ensures ListsToTasks(lists - {listId}, DropTasksOf(tasks, listId))
    ensures TasksToLists(lists - {listId}, DropTasksOf(tasks, listId))
  {
    var lists', tasks' := lists - {listId}, DropTasksOf(tasks, listId);
    forall m, t | m in lists' && t in lists'[m].tasks
      ensures t in tasks' && tasks'[t].listId == m
    {
      assert t in lists[m].tasks;
    }
  }

  /** Deleting a list of the caller's own board, with its tasks, keeps the store linked. */
  lemma LinkedAfterDeleteList(boards: map<Id, Board>, lists: map<Id, List>, tasks: map<Id, Task>,
                              b: Id, listId: Id)
    requires Linked(boards, lists, tasks) && b in boards && listId in lists && lists[listId].boardId == b
    ensures Linked(PullList(boards, b, listId), lists - {listId}, DropTasksOf(tasks, listId))
  {
    DeleteListBoardSide(boards, lists, b, listId);
    DeleteListTaskSide(lists, tasks, listId);
    WithoutKeepsNoDup(boards[b].lists, listId);
  }

  /** The task side of a move: the task points at the new list, which holds its id. */
  lemma MoveTaskSide(lists: map<Id, List>, tasks: map<Id, Task>, lists': map<Id, List>, t: Id, dst: Id)
    requires ListsToTasks(lists, tasks) && TasksToLists(lists, tasks)
    requires t in tasks && dst in lists && dst != tasks[t].listId
    requires Relinked(lists, lists', t, tasks[t].listId, dst)
    ensures ListsToTasks(lists', tasks[t := tasks[t].(listId := dst)])
    ensures TasksToLists(lists', tasks[t := tasks[t].(listId := dst)])
  {
    var tasks' := tasks[t := tasks[t].(listId := dst)];
    forall m, u | m in lists' && u in lists'[m].tasks
      ensures u in tasks' && tasks'[u].listId == m
    {
      if m != dst || u != t {
        assert u in lists[m].tasks;
      }
    }
    forall u | u in tasks'
      ensures tasks'[u].listId in lists' && u in lists'[tasks'[u].listId].tasks
    {
      if u != t {
        assert u in lists[tasks[u].listId].tasks;
      }
    }
  }

  /** A move to an existing other list keeps the store linked. */
  lemma LinkedAfterMove(boards: map<Id, Board>, lists: map<Id, List>, tasks: map<Id, Task>,
                        lists': map<Id, List>, t: Id, dst: Id)
    requires Linked(boards, lists, tasks) && t in tasks && dst in lists && dst != tasks[t].listId
    requires Relinked(lists, lists', t, tasks[t].listId, dst)
    ensures Linked(boards, lists', tasks[t := tasks[t].(listId := dst)])
  {
    var src := tasks[t].listId;
    BoardSideKept(boards, lists, lists');
    MoveTaskSide(lists, tasks, lists', t, dst);
    WithoutKeepsNoDup(lists[src].tasks, t);
    assert t !in lists[dst].tasks;
    PushKeepsNoDup(lists[dst].tasks, t);
    assert forall l :: l in lists' ==> NoDup(lists'[l].tasks);
  }

  /** When the task sat once on its old list and nowhere else, a move to an existing
      list leaves it once on the new list and nowhere else. */
  lemma MovePlacesOnce(lists: map<Id, List>, lists': map<Id, List>, t: Id, src: Id, dst: Id)
    requires src != dst && dst in lists && PlacedOnce(lists, t, src)
    requires Relinked(lists, lists', t, src, dst)
    ensures PlacedOnce(lists', t, dst)
  {
    assert multiset(lists[dst].tasks)[t] == 0;
    assert multiset(lists'[dst].tasks) == multiset(lists[dst].tasks) + multiset{t};
    assert t !in lists'[src].tasks;
  }

  /** The task side of a task deletion: its list no longer holds its id. */
  lemma DeleteTaskTaskSide(lists: map<Id, List>, tasks: map<Id, Task>, t: Id)
    requires ListsToTasks(lists, tasks) && TasksToLists(lists, tasks) && t in tasks
    ensures tasks[t].listId in lists
    ensures ListsToTasks(PullTask(lists, tasks[t].listId, t), tasks - {t})
    ensures TasksToLists(PullTask(lists, tasks[t].listId, t), tasks - {t})
  {
    var lists', tasks' := PullTask(lists, tasks[t].listId, t), tasks - {t};
    forall m, u | m in lists' && u in lists'[m].tasks
      ensures u in tasks' && tasks'[u].listId == m
    {
      assert u in lists[m].tasks;
    }
  }

  /** Deleting a task and filtering it off its own list keeps the store linked. */
  lemma LinkedAfterDeleteTask(boards: map<Id, Board>, lists: map<Id, List>, tasks: map<Id, Task>, t: Id)
    requires Linked(boards, lists, tasks) && t in tasks
    ensures tasks[t].listId in lists
    ensures Linked(boards, PullTask(lists, tasks[t].listId, t), tasks - {t})
  {
    var l := tasks[t].listId;
    DeleteTaskTaskSide(lists, tasks, t);
    BoardSideKept(boards, lists, PullTask(lists, l, t));
    WithoutKeepsNoDup(lists[l].tasks, t);
  }

  /** In a linked store, filtering an id that names no list off a board changes nothing:
      the early save of the list deletion is then harmless. */
  lemma PullMissingListIsNoop(boards: map<Id, Board>, lists: map<Id, List>, tasks: map<Id, Task>,
                              b: Id, listId: Id)
    requires Linked(boards, lists, tasks) && b in boards && listId !in lists
    ensures PullList(boards, b, listId) == boards
  {
    WithoutAbsent(boards[b].lists, listId);
  }

  /** The list deletion never checks that the list is on the caller's board: deleting
      another board's list leaves that board holding the id of a list that is gone. */
  lemma ForeignListDeleteUnlinks(boards: map<Id, Board>, lists: map<Id, List>, tasks: map<Id, Task>,
                                 b: Id, listId: Id)
    requires Linked(boards, lists, tasks) && b in boards && listId in lists && lists[listId].boardId != b
    ensures !BoardsToLists(PullList(boards, b, listId), lists - {listId})
  {
    var owner := lists[listId].boardId;
    assert owner in boards && listId in boards[owner].lists;
    assert listId in PullList(boards, b, listId)[owner].lists && listId !in lists - {listId};
  }

  /** Moving a task to a list that does not exist still rewrites its `listId`, which
      then names no list, while its id is filtered off its old list: the task is on no
      list at all. */
  lemma MoveToMissingListUnlinks(lists: map<Id, List>, lists': map<Id, List>, tasks: map<Id, Task>,
                                 t: Id, dst: Id)
    requires t in tasks && dst !in lists && PlacedOnce(lists, t, tasks[t].listId)
    requires Relinked(lists, lists', t, tasks[t].listId, dst)
    ensures !TasksToLists(lists', tasks[t := tasks[t].(listId := dst)])
    ensures forall l :: l in lists' ==> t !in lists'[l].tasks
  {
    var tasks' := tasks[t := tasks[t].(listId := dst)];
    assert tasks'[t].listId !in lists';
  }

  /** Filtering the id of a list just pushed on a board restores the board. */
  lemma PullUndoesPushList(boards: map<Id, Board>, b: Id, l: Id)
    requires b in boards && l !in boards[b].lists
    ensures PullList(PushList(boards, b, l), b, l) == boards
  {
    WithoutPushed(boards[b].lists, l);
  }

  /** Deleting a list just created undoes the creation, when no board held its id and
      no task pointed at it. */
  lemma DeleteUndoesNewList(boards: map<Id, Board>, lists: map<Id, List>, tasks: map<Id, Task>,
                            b: Id, id: Id, title: string)
    requires BoardsToLists(boards, lists) && TasksToLists(lists, tasks) && b in boards && id !in lists
    ensures PullList(PushList(boards, b, id), b, id) == boards
    ensures lists[id := List(title, b, [])] - {id} == lists
    ensures DropTasksOf(tasks, id) == tasks
  {
    PullUndoesPushList(boards, b, id);
  }

  /** Filtering the id of a task just pushed on a list restores the list. */
  lemma PullUndoesPushTask(lists: map<Id, List>, l: Id, t: Id)
    requires l in lists && t !in lists[l].tasks
    ensures PullTask(PushTask(lists, l, t), l, t) == lists
  {
    WithoutPushed(lists[l].tasks, t);
  }

  // ------------------------------------------------ the three collections

  class Store {
    var boards: map<Id, Board>
    var lists: map<Id, List>
    var tasks: map<Id, Task>
    /** The next fresh ObjectId. */
    var nextId: nat

    /** What every handler keeps: stored ids are below `nextId`, stored
        documents passed validation, and the get-or-create route never makes a second
        board for a user. */
    ghost predicate Valid()
      reads this
    {
      && (forall id :: id in boards ==> id < nextId)
      && (forall id :: id in lists ==> id < nextId && ListValid(lists[id]))
      && (forall id :: id in tasks ==> id < nextId && TaskValid(tasks[id]))
      && (forall b, c :: b in boards && c in boards && boards[b].userId == boards[c].userId ==> b == c)
    }

    /** `Board.findOne({ userId })` finds something. */
    ghost predicate HasBoard(userId: UserId)
      reads this
    {
      exists b :: b in boards && boards[b].userId == userId
    }

    /** What `Board.findOne({ userId })` finds. */
    ghost function BoardOf(userId: UserId): Id
      reads this
      requires HasBoard(userId)
    {
      var b :| b in boards && boards[b].userId == userId; b
    }

    constructor ()
      ensures Valid() && Linked(boards, lists, tasks)
      ensures boards == map[] && lists == map[] && tasks == map[] && nextId == 0
    {
      boards, lists, tasks, nextId := map[], map[], map[], 0;
    }

    /** GET `/`: the caller's board, created empty when there is none. */
    method GetBoard(userId: UserId) returns (id: Id)
      requires Valid()
      modifies this
      ensures Valid()
      ensures id in boards && boards[id].userId == userId
      ensures old(HasBoard(userId)) ==> id == old(BoardOf(userId)) && unchanged(this)
      ensures !old(HasBoard(userId)) ==>
        && id == old(nextId) && nextId == id + 1
        && boards == old(boards)[id := Board(userId, [])]
        && lists == old(lists) && tasks == old(tasks)
    {
      if exists b :: b in boards && boards[b].userId == userId {
        id :| id in boards && boards[id].userId == userId;
        return;
      }
      var board := NewBoard(Some(userId));
      id := nextId;
      nextId := nextId + 1;
      boards := boards[id := board.doc];
    }

    /** POST `/list`: a new list on the caller's board, its id pushed at the end.
        The list is saved before the push, so a rejected list leaves the board alone. */
    method CreateList(userId: UserId, title: Option<string>) returns (r: Outcome<Id>)
      requires Valid()
      modifies this
      ensures Valid()
      ensures r.Ok? || r.NotFound? || r.Invalid?
      ensures r.NotFound? <==> !old(HasBoard(userId))
      ensures r.Invalid? <==> old(HasBoard(userId)) && !HasText(title)
      ensures !r.Ok? ==> unchanged(this)
      ensures r.Ok? ==>
        var b := old(BoardOf(userId));
        && r.value == old(nextId) && nextId == r.value + 1
        && lists == old(lists)[r.value := List(title.value, b, [])]
        && boards == PushList(old(boards), b, r.value)
        && tasks == old(tasks)
    {
      if !exists b :: b in boards && boards[b].userId == userId {
        return NotFound;
      }
      var b :| b in boards && boards[b].userId == userId;
      var list := NewList(ListFields(title, Some(b)));
      if list.Rejected? {
        return Invalid;
      }
      var id := nextId;
      nextId := nextId + 1;
      lists := lists[id := list.doc];
      boards := PushList(boards, b, id);
      r := Ok(id);
    }

    /** DELETE `/list/:id`: the id is filtered off the caller's board and that board is
        saved before the list is looked up; then the list's tasks and the list go. */
    method DeleteList(userId: UserId, listId: Id) returns (r: Outcome<()>)
      requires Valid()
      modifies this
      ensures Valid()
      ensures r.Ok? || r.NotFound?
      ensures !old(HasBoard(userId)) ==> r.NotFound? && unchanged(this)
      ensures old(HasBoard(userId)) ==>
        var b := old(BoardOf(userId));
        && boards == PullList(old(boards), b, listId)
        && (r.Ok? <==> listId in old(lists))
        && (r.Ok? ==> lists == old(lists) - {listId} && tasks == DropTasksOf(old(tasks), listId))
        && (r.NotFound? ==> lists == old(lists) && tasks == old(tasks))
      ensures nextId == old(nextId)
    {
      if !exists b :: b in boards && boards[b].userId == userId {
        return NotFound;
      }
      var b :| b in boards && boards[b].userId == userId;
      boards := PullList(boards, b, listId);
      if listId !in lists {
        return NotFound;
      }
      tasks := DropTasksOf(tasks, listId);
      lists := lists - {listId};
      r := Ok(());
    }

    /** POST `/task`: a new task on an existing list, its id pushed at the end.
        The task is saved before the push, so a rejected task leaves the list alone. */
    method CreateTask(fields: TaskFields) returns (r: Outcome<Id>)
      requires Valid()
      modifies this
      ensures Valid()
      ensures r.Ok? || r.NotFound? || r.Invalid?
      ensures r.NotFound? <==> fields.listId.None? || fields.listId.value !in old(lists)
      ensures r.Invalid? <==> !r.NotFound? && NewTask(fields).Rejected?
      ensures !r.Ok? ==> unchanged(this)
      ensures r.Ok? ==>
        && r.value == old(nextId) && nextId == r.value + 1
        && tasks == old(tasks)[r.value := NewTask(fields).doc]
        && lists == PushTask(old(lists), fields.listId.value, r.value)
        && boards == old(boards)
    {
      if fields.listId.None? || fields.listId.value !in lists {
        return NotFound;
      }
      var l := fields.listId.value;
      var task := NewTask(fields);
      if task.Rejected? {
        return Invalid;
      }
      var id := nextId;
      nextId := nextId + 1;
      tasks := tasks[id := task.doc];
      lists := PushTask(lists, l, id);
      r := Ok(id);
    }

    /** PUT `/task/:id`: only `listId` is read from the body. When it is given and
        differs, the references are moved by `Relink` and `listId` is rewritten whether
        or not the new list exists; then the task is saved. */
    method UpdateTask(taskId: Id, listId: Option<Id>) returns (r: Outcome<Task>)
      requires Valid()
      modifies this
      ensures Valid()
      ensures r.Ok? || r.NotFound?
      ensures r.NotFound? <==> taskId !in old(tasks)
      ensures r.NotFound? ==> unchanged(this)
      ensures taskId in old(tasks) ==>
        var t := old(tasks)[taskId];
        var moved := listId.Some? && listId.value != t.listId;
        && r == Ok(if moved then t.(listId := listId.value) else t)
        && tasks == old(tasks)[taskId := r.value]
        && boards == old(boards) && nextId == old(nextId)
        && (!moved ==> lists == old(lists))
        && (moved ==> Relinked(old(lists), lists, taskId, t.listId, listId.value))
    {
      if taskId !in tasks {
        return NotFound;
      }
      var task := tasks[taskId];
      if listId.Some? && listId.value != task.listId {
        Relink(taskId, task.listId, listId.value);
        task := task.(listId := listId.value);
      }
      tasks := tasks[taskId := task];
      r := Ok(task);
    }

    /** The reference edits of a move: filter the task id off the old list if it
        exists and save it, then push the id on the new list if it exists and save it. */
    method Relink(taskId: Id, src: Id, dst: Id)
      requires Valid() && src != dst
      modifies this`lists
      ensures Valid()
      ensures Relinked(old(lists), lists, taskId, src, dst)
    {
      if src in lists {
        lists := PullTask(lists, src, taskId);
      }
      if dst in lists {
        lists := PushTask(lists, dst, taskId);
      }
    }

    /** DELETE `/task/:id`: the id is filtered off the owning list, then the task goes.
        With the owning list gone, `list.tasks` throws and nothing changes. */
    method DeleteTask(taskId: Id) returns (r: Outcome<()>)
      requires Valid()
      modifies this
      ensures Valid()
      ensures r.Ok? || r.NotFound? || r.Fault?
      ensures r.NotFound? <==> taskId !in old(tasks)
      ensures r.Fault? <==> taskId in old(tasks) && old(tasks)[taskId].listId !in old(lists)
      ensures !r.Ok? ==> unchanged(this)
      ensures r.Ok? ==>
        && tasks == old(tasks) - {taskId}
        && lists == PullTask(old(lists), old(tasks)[taskId].listId, taskId)
        && boards == old(boards) && nextId == old(nextId)
    {
      if taskId !in tasks {
        return NotFound;
      }
      var l := tasks[taskId].listId;
      if l !in lists {
        return Fault;
      }
      lists := PullTask(lists, l, taskId);
      tasks := tasks - {taskId};
      r := Ok(());
    }
  }
}
