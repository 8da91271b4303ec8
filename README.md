# Kanban board store

This project models the board routes of a small kanban service. A user owns one
board. The board holds lists, and a list holds tasks. Each record is kept in its own
collection, and the parent/child link is stored twice:

- the parent keeps an ordered array of child ids (`board.lists`, `list.tasks`);
- the child keeps a back-reference (`list.boardId`, `task.listId`).

The six handlers of `routes/board.js` keep the two in step with `push` and `filter`.
They do this by a sequence of separate saves, with no transaction.

The model has four modules:

- `Schema` (`schema.dfy`) covers the three Mongoose schemas of `models/`. Each record is a
  datatype. `NewBoard`, `NewList` and `NewTask` model what `new Model({...})` followed
  by `save()` validation makes of the fields a handler passes:
  - a required String rejects both absent and `""`;
  - priority must be `low`, `medium` or `high`, and defaults to `medium`;
  - `description` and `dueDate` are optional.
- `Refs` (`refs.dfy`) covers the two edits made to id arrays. `Without` models
  `filter(id => id !== x)`. The lemmas prove that it:
  - keeps the order of the remaining ids;
  - removes exactly the occurrences of `x`;
  - is the only such subsequence;
  - undoes a `push` of a new id;
  - keeps ids distinct.
- `BoardRoutes` (`board_routes.dfy`) holds the `Store` class: three maps (`boards`,
  `lists`, `tasks`) and a fresh-id counter.
  - Each handler is one atomic method. It returns `Ok`, `NotFound`, `Invalid` (a
    validation error on save) or `Fault`. `Fault` is the `TypeError` that task
    deletion throws when the owning list is gone.
  - Each method states its exact new state and keeps `Valid()`. `Valid()` means:
    ids are below the counter, stored records passed validation, and there is at
    most one board per user.
  - The referential integrity the design intends is `Linked`. It means the arrays
    and the back-references agree in both directions, and no array holds an id
    twice.
  - Value-level lemmas prove that each handler preserves `Linked` wherever the code
    does. Two lemmas show where the code breaks it.
- `Integrity` (`integrity.dfy`) has client methods that drive the handlers on any
  valid, linked store and then apply the matching lemma of `BoardRoutes`. Each states
  whether the store is still linked afterwards:
  - `FetchBoard` fetches the board twice;
  - `AddList`, `AddTask` and `DropTask` make one handler call each;
  - the list deletion has two methods: `DropOwnList` for the caller's own or a missing list, `DropForeignList` for another board's list;
  - the task update has two methods: `MoveTask` for an existing target list, `MoveToMissingList` for a missing one;
  - `ListCreateDelete` and `TaskCreateDelete` run a create and then a delete, and show that every collection is restored.

Some behaviours of the code are easy to miss, and the model states them as written:

- A move to a list id that names no list still succeeds (routes/board.js:99-106). The
  task is filtered off its old list and pushed on no list. `task.listId` is still
  rewritten, and the handler answers with the task (`UpdateTask`,
  `MoveToMissingList`).
- Deleting a list saves the caller's board, with the id filtered out, before it looks
  the list up (routes/board.js:50-55). A list that does not exist therefore gets a 404
  after the board was already saved. `DeleteList` states this board change on the 404
  path too. In a linked store the change is a no-op (`PullMissingListIsNoop`).
- The task update is described as a full update (routes/board.js:82). The handler reads
  only `listId` from the body, so every other field of the task is kept (`UpdateTask`).
- The list deletion never checks that the list belongs to the caller's board. Another
  user's delete succeeds and leaves the owner's board holding a dangling id
  (`ForeignListDeleteUnlinks`, `DropForeignList`).

## Model

| member | source | states |
|---|---|---|
| Schema.ParsePriority | models/Task.js:7 | Exactly the names `low`, `medium` and `high` are accepted, and each maps back to its name |
| Schema.HasText | models/Task.js:4 | A required String fails exactly on a missing value and on the empty string |
| Schema.NewTask | models/Task.js:3-9 | Saving succeeds iff the title is a non-empty string, `listId` is given and the priority is absent or in the enum. An absent priority becomes `medium`. The stored fields are the given ones |
| Schema.TaskRoundTrip | models/Task.js:3-9 | Every valid task is what validation builds from its own fields |
| Schema.NewList | models/List.js:3-7 | Saving succeeds iff the title is a non-empty string and `boardId` is given. A new list has no tasks and keeps the given fields |
| Schema.NewBoard | models/Board.js:3-6 | Saving succeeds iff `userId` is given. A new board has no lists |
| Refs.Without | routes/board.js:50 | The filtered array lacks the id, keeps every other id, is no longer, and has the same length iff the id was absent |
| Refs.WithoutIsSubseq | routes/board.js:94 | Filtering keeps the relative order of the remaining ids |
| Refs.WithoutCounts | routes/board.js:124 | Filtering removes every occurrence of the id and keeps each other id as often as it was |
| Refs.WithoutUnique | routes/board.js:94 | The only order-preserving subsequence with those counts is the filtered array |
| Refs.WithoutAbsent | routes/board.js:50 | Filtering an id that does not occur changes nothing |
| Refs.WithoutIdempotent | routes/board.js:50 | Filtering twice by the same id is filtering once |
| Refs.WithoutPushed | routes/board.js:124 | Filtering the id just pushed restores the array when the id was new |
| Refs.WithoutKeepsNoDup | routes/board.js:94 | Filtering cannot create a duplicate id |
| Refs.PushKeepsNoDup | routes/board.js:74 | Pushing an id not yet present keeps ids distinct, and the id then occurs once |
| BoardRoutes.PushList | routes/board.js:34-35 | The list id is appended at the end of the board's ids, the earlier ids stay as they were, and no other board changes |
| BoardRoutes.PullList | routes/board.js:50-51 | Every occurrence of the list id leaves the board's ids, the other ids keep their order and counts, and no other board changes |
| BoardRoutes.PushTask | routes/board.js:74-75 | The task id is appended at the end of the list's ids, the earlier ids stay as they were, and no other list changes |
| BoardRoutes.PullTask | routes/board.js:124-125 | Every occurrence of the task id leaves the list's ids, the other ids keep their order and counts, and no other list changes |
| BoardRoutes.DropTasksOf | routes/board.js:56 | `deleteMany({ listId })` leaves exactly the tasks of other lists, unchanged |
| BoardRoutes.LinkedPlacesEachTaskOnce | routes/board.js:123-124 | In a linked store each task sits once on its own list and on no other |
| BoardRoutes.LinkedAfterNewBoard | routes/board.js:15-17 | Creating an empty board keeps the store linked |
| BoardRoutes.LinkedAfterNewList | routes/board.js:32-35 | Storing a new list and pushing its id on its board keeps the store linked |
| BoardRoutes.LinkedAfterNewTask | routes/board.js:72-75 | Storing a new task and pushing its id on its list keeps the store linked |
| BoardRoutes.LinkedAfterDeleteList | routes/board.js:50-57 | Deleting a list of the caller's own board, with its tasks, keeps the store linked |
| BoardRoutes.LinkedAfterMove | routes/board.js:90-107 | Moving a task to an existing other list keeps the store linked |
| BoardRoutes.MovePlacesOnce | routes/board.js:90-103 | A task once on its old list only ends up once on the new list only |
| BoardRoutes.LinkedAfterDeleteTask | routes/board.js:123-127 | Filtering a task off its list and deleting it keeps the store linked |
| BoardRoutes.PullMissingListIsNoop | routes/board.js:50-55 | In a linked store, the board saved before the 404 for a missing list is unchanged |
| BoardRoutes.ForeignListDeleteUnlinks | routes/board.js:46-57 | Deleting a list owned by another board leaves that board holding the id of a deleted list |
| BoardRoutes.MoveToMissingListUnlinks | routes/board.js:99-106 | A move to a missing list leaves the task pointing at no list and held by none |
| BoardRoutes.PullUndoesPushList | routes/board.js:34-50 | Filtering a list id just pushed on a board restores the board |
| BoardRoutes.PullUndoesPushTask | routes/board.js:124 | Filtering a task id just pushed on a list restores the list |
| BoardRoutes.DeleteUndoesNewList | routes/board.js:27-63 | Deleting a list just created restores boards, lists and tasks when no board or task referred to its id |
| BoardRoutes.Store.GetBoard | routes/board.js:9-24 | The caller's board is returned unchanged. If there is none, exactly one empty board with a fresh id is added |
| BoardRoutes.Store.CreateList | routes/board.js:27-40 | 404 iff there is no board. Invalid iff the title is missing, and then nothing changes. Otherwise the list is stored and its id appended to the caller's board |
| BoardRoutes.Store.DeleteList | routes/board.js:43-63 | The caller's board is filtered even on the 404 path. Ok iff the list exists, and then the list and its tasks are gone |
| BoardRoutes.Store.CreateTask | routes/board.js:66-80 | 404 iff `listId` is missing or names no list. Invalid iff validation fails, and then nothing changes. Otherwise the task is stored and its id appended once to its list |
| BoardRoutes.Store.UpdateTask | routes/board.js:84-114 | 404 iff the task is absent. Only `listId` changes. A different `listId` is written whether or not the list exists, with the lists edited as in `Relink` |
| BoardRoutes.Store.Relink | routes/board.js:90-103 | The task id is filtered off the old list if it exists and pushed on the new list if it exists. No other list changes |
| BoardRoutes.Store.DeleteTask | routes/board.js:118-132 | 404 iff the task is absent. A fault that changes nothing iff its list is gone. Otherwise the id is filtered off its list and the task deleted |
| Integrity.FetchBoard | routes/board.js:9-24 | Fetching keeps the store linked, and a repeat fetch returns the same board and creates nothing |
| Integrity.AddList | routes/board.js:27-40 | Creating a list keeps the store linked |
| Integrity.DropOwnList | routes/board.js:43-63 | Deleting an own or a missing list keeps the store linked |
| Integrity.DropForeignList | routes/board.js:43-63 | Deleting another board's list succeeds and unlinks the store |
| Integrity.AddTask | routes/board.js:66-80 | Creating a task keeps the store linked, and the task sits once on its list only |
| Integrity.MoveTask | routes/board.js:84-114 | A move to an existing list keeps the store linked. The task then sits once on its new list only |
| Integrity.MoveToMissingList | routes/board.js:84-114 | For an existing task, a move to a missing list answers with the task, yet unlinks the store and leaves the task on no list. For an absent task it answers 404 and the store stays linked |
| Integrity.DropTask | routes/board.js:118-132 | Deleting a task keeps the store linked, and in a linked store it never faults |
| Integrity.ListCreateDelete | routes/board.js:27-63 | Creating a list and deleting it again restores every collection |
| Integrity.TaskCreateDelete | routes/board.js:66-132 | Creating a task and deleting it again restores every collection |

## Left out

- GET `/` returns the board's id. The `populate` expansion of lists and tasks is a read-only join and is not modelled.
- Authentication is not modelled. The caller's user id is a parameter, and users are not modelled as records.
- server.js is not part of this model: start-up, CORS, the database connection and its random root endpoint.
- Requests are atomic steps. Interleavings of the awaits of concurrent requests, and the races they allow, are not modelled.
- Store failures other than validation (timeouts, lost connections) are not modelled. Nor is a store failing part-way through a handler's sequence of saves.
- HTTP status codes and JSON message text are not modelled beyond the result kind.
- ObjectIds are naturals drawn from one counter, and `toString()` comparison is plain equality.
- Casting is not modelled. A malformed id string makes `findById` throw a `CastError`, so a badly formed `listId` in a move fails after the old list was saved. The model has no malformed ids.
- The body fields have the schema's types already. Mongoose's casting of other JSON values to String or Date is not modelled.
- `dueDate` is an opaque optional value, and its Date contents are not modelled.
- BoardRoutes.Store methods: none of them states on its own that it preserves `Linked`. This keeps each method's proof small. The lemmas of `BoardRoutes` state it instead, over the same state expressions the methods' postconditions give, and the `Integrity` methods connect the two.
