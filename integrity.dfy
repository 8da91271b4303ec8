/** What each handler of routes/board.js does to a store whose reference arrays and
    back-references agree: one handler call on any such store, followed by the lemma of
    BoardRoutes that says whether the agreement survives. */
module Integrity {
  import opened Schema
  import opened BoardRoutes

  /** Fetching the board keeps the store linked, and a second fetch finds the same board. */
  method FetchBoard(s: Store, user: UserId) returns (first: Id, second: Id)
    requires s.Valid() && Linked(s.boards, s.lists, s.tasks)
    modifies s
    ensures s.Valid() && Linked(s.boards, s.lists, s.tasks)
    ensures first == second && first in s.boards && s.boards[first].userId == user
    ensures old(s.HasBoard(user)) ==> s.boards == old(s.boards)
    ensures !old(s.HasBoard(user)) ==> s.boards == old(s.boards)[first := Board(user, [])]
    ensures s.lists == old(s.lists) && s.tasks == old(s.tasks)
  {
    ghost var b0, l0, t0 := s.boards, s.lists, s.tasks;
    first := s.GetBoard(user);
    if !old(s.HasBoard(user)) {
      LinkedAfterNewBoard(b0, l0, t0, first, user);
    }
    second := s.GetBoard(user);
  }

  /** Creating a list keeps the store linked. */
  method AddList(s: Store, user: UserId, title: Option<string>) returns (r: Outcome<Id>)
    requires s.Valid() && Linked(s.boards, s.lists, s.tasks)
    modifies s
    ensures s.Valid() && Linked(s.boards, s.lists, s.tasks)
    ensures r.Ok? <==> old(s.HasBoard(user)) && HasText(title)
    ensures r.Ok? ==> r.value in s.lists && s.lists[r.value].boardId == old(s.BoardOf(user))
  {
    ghost var b0, l0, t0 := s.boards, s.lists, s.tasks;
    r := s.CreateList(user, title);
    if r.Ok? {
      LinkedAfterNewList(b0, l0, t0, old(s.BoardOf(user)), r.value, title.value);
    }
  }

  /** Deleting a list of the caller's own board, or an id that names no list, keeps the
      store linked. */
  method DropOwnList(s: Store, user: UserId, listId: Id) returns (r: Outcome<()>)
    requires s.Valid() && Linked(s.boards, s.lists, s.tasks)
    requires s.HasBoard(user) && listId in s.lists ==> s.lists[listId].boardId == s.BoardOf(user)
    modifies s
    ensures s.Valid() && Linked(s.boards, s.lists, s.tasks)
    ensures r.Ok? <==> old(s.HasBoard(user)) && listId in old(s.lists)
    ensures old(s.HasBoard(user)) ==> listId !in s.lists
  {
    ghost var b0, l0, t0 := s.boards, s.lists, s.tasks;
    ghost var owns := s.HasBoard(user);
    ghost var b := if owns then s.BoardOf(user) else 0;
    r := s.DeleteList(user, listId);
    if owns && listId in l0 {
      LinkedAfterDeleteList(b0, l0, t0, b, listId);
    } else if owns {
      PullMissingListIsNoop(b0, l0, t0, b, listId);
    }
  }

  /** Deleting another board's list succeeds and leaves the store unlinked: the
      owner's board still holds the id of a list that is gone. */
  method DropForeignList(s: Store, user: UserId, listId: Id) returns (r: Outcome<()>)
    requires s.Valid() && Linked(s.boards, s.lists, s.tasks)
    requires s.HasBoard(user) && listId in s.lists && s.lists[listId].boardId != s.BoardOf(user)
    modifies s
    ensures s.Valid() && !Linked(s.boards, s.lists, s.tasks)
    ensures r.Ok?
    ensures var owner := old(s.lists[listId].boardId);
      owner in s.boards && listId in s.boards[owner].lists && listId !in s.lists
  {
    ghost var b0, l0, t0 := s.boards, s.lists, s.tasks;
    ghost var b := s.BoardOf(user);
    ghost var owner := s.lists[listId].boardId;
    assert owner in b0 && listId in b0[owner].lists;
    r := s.DeleteList(user, listId);
    ForeignListDeleteUnlinks(b0, l0, t0, b, listId);
  }

  /** Creating a task keeps the store linked. */
  method AddTask(s: Store, fields: TaskFields) returns (r: Outcome<Id>)
    requires s.Valid() && Linked(s.boards, s.lists, s.tasks)
    modifies s
    ensures s.Valid() && Linked(s.boards, s.lists, s.tasks)
    ensures r.Ok? <==> fields.listId.Some? && fields.listId.value in old(s.lists) && NewTask(fields).Accepted?
    ensures r.Ok? ==> r.value in s.tasks && PlacedOnce(s.lists, r.value, fields.listId.value)
  {
    ghost var b0, l0, t0 := s.boards, s.lists, s.tasks;
    r := s.CreateTask(fields);
    if r.Ok? {
      LinkedAfterNewTask(b0, l0, t0, r.value, NewTask(fields).doc);
      LinkedPlacesEachTaskOnce(s.boards, s.lists, s.tasks, r.value);
    }
  }

  /** A drag-and-drop onto an existing list, or an update that names no new list, keeps
      the store linked; after a move the task is once on its new list and on no other. */
  method MoveTask(s: Store, taskId: Id, listId: Option<Id>) returns (r: Outcome<Task>)
    requires s.Valid() && Linked(s.boards, s.lists, s.tasks)
    requires listId.Some? ==> listId.value in s.lists
    modifies s
    ensures s.Valid() && Linked(s.boards, s.lists, s.tasks)
    ensures r.Ok? <==> taskId in old(s.tasks)
    ensures r.Ok? ==> taskId in s.tasks
    ensures r.Ok? && listId.Some? ==> s.tasks[taskId].listId == listId.value
    ensures r.Ok? ==> PlacedOnce(s.lists, taskId, s.tasks[taskId].listId)
  {
    ghost var b0, l0, t0 := s.boards, s.lists, s.tasks;
    r := s.UpdateTask(taskId, listId);
    if r.Ok? {
      var src := t0[taskId].listId;
      if listId.Some? && listId.value != src {
        LinkedAfterMove(b0, l0, t0, s.lists, taskId, listId.value);
      } else {
        assert s.tasks == t0;
      }
      LinkedPlacesEachTaskOnce(s.boards, s.lists, s.tasks, taskId);
    }
  }

  /** A drag-and-drop onto an id that names no list answers with the task, yet leaves
      it pointing at no list and held by none: the store is no longer linked. For a
      task that does not exist it answers 404 and changes nothing. */
  method MoveToMissingList(s: Store, taskId: Id, listId: Id) returns (r: Outcome<Task>)
    requires s.Valid() && Linked(s.boards, s.lists, s.tasks)
    requires listId !in s.lists
    modifies s
    ensures s.Valid()
    ensures r.Ok? <==> taskId in old(s.tasks)
    ensures r.NotFound? ==> Linked(s.boards, s.lists, s.tasks) && s.tasks == old(s.tasks) && s.lists == old(s.lists)
    ensures r.Ok? ==> !Linked(s.boards, s.lists, s.tasks)
    ensures r.Ok? ==> r.value.listId == listId && taskId in s.tasks && s.tasks[taskId] == r.value
    ensures r.Ok? ==> forall l :: l in s.lists ==> taskId !in s.lists[l].tasks
  {
    ghost var b0, l0, t0 := s.boards, s.lists, s.tasks;
    if taskId in t0 {
      LinkedPlacesEachTaskOnce(b0, l0, t0, taskId);
    }
    r := s.UpdateTask(taskId, Some(listId));
    if r.Ok? {
      MoveToMissingListUnlinks(l0, s.lists, t0, taskId, listId);
    }
  }

  /** Deleting a task keeps the store linked, and in a linked store it never throws. */
  method DropTask(s: Store, taskId: Id) returns (r: Outcome<()>)
    requires s.Valid() && Linked(s.boards, s.lists, s.tasks)
    modifies s
    ensures s.Valid() && Linked(s.boards, s.lists, s.tasks)
    ensures r.Ok? <==> taskId in old(s.tasks)
    ensures r.Ok? || r.NotFound?
    ensures forall l :: l in s.lists ==> taskId !in s.lists[l].tasks
  {
    ghost var b0, l0, t0 := s.boards, s.lists, s.tasks;
    if taskId in t0 {
      LinkedAfterDeleteTask(b0, l0, t0, taskId);
      LinkedPlacesEachTaskOnce(b0, l0, t0, taskId);
    }
    r := s.DeleteTask(taskId);
  }

  /** In a store where boards hold only ids of lists that point back, creating a list
      and deleting it again restores every collection. */
  method ListCreateDelete(s: Store, user: UserId, title: string)
    requires s.Valid() && BoardsToLists(s.boards, s.lists) && TasksToLists(s.lists, s.tasks)
    requires s.HasBoard(user) && |title| > 0
    modifies s
    ensures s.boards == old(s.boards) && s.lists == old(s.lists) && s.tasks == old(s.tasks)
  {
    ghost var b0, l0, t0 := s.boards, s.lists, s.tasks;
    ghost var board := s.BoardOf(user);
    var created := s.CreateList(user, Some(title));
    var id := created.value;
    DeleteUndoesNewList(b0, l0, t0, board, id, title);
    assert board in s.boards && s.boards[board].userId == user;
    var deleted := s.DeleteList(user, id);
  }

  /** In a store where lists hold only ids of tasks that point back, creating a task and
      deleting it again restores every collection. */
  method TaskCreateDelete(s: Store, fields: TaskFields)
    requires s.Valid() && ListsToTasks(s.lists, s.tasks)
    requires fields.listId.Some? && fields.listId.value in s.lists && NewTask(fields).Accepted?
    modifies s
    ensures s.boards == old(s.boards) && s.lists == old(s.lists) && s.tasks == old(s.tasks)
  {
    ghost var l0, t0 := s.lists, s.tasks;
    var created := s.CreateTask(fields);
    var id := created.value;
    assert id !in t0 && id !in l0[fields.listId.value].tasks;
    var deleted := s.DeleteTask(id);
    PullUndoesPushTask(l0, fields.listId.value, id);
    assert s.tasks == t0;
  }
}
