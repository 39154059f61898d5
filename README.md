# Mini Kanban entity store, modelled in Dafny

Mini Kanban is a small task-tracking backend. Boards hold lists, and lists
hold cards. The same entity store is written twice:

- `main.py` keeps three in-memory collections (`boards`, `lists`, `cards`)
  that its endpoint bodies change directly. The collections are loaded from a
  snapshot file at start-up and written back at exit.
- `app/repository.py` performs the same operations on three relational tables
  through a database session.

This project models both backends and proves properties of them:

- how identifiers are assigned: 1 in an empty collection, otherwise the
  largest identifier plus one;
- the parent-existence checks made before a list or a card is created or a
  card is moved;
- the AND-combined card filters of the listing endpoint;
- card lookup, update, delete and move.

Files:

- `kanban.dfy`, module `Kanban`: the records and the pure rules both
  backends share. These are identifier assignment, parent tests, first-match
  card lookup, an order-preserving `Filter`, the card filters and the field
  merge of a repository update.
- `in_memory.dfy`, module `InMemory`: class `Store`, the backend of
  `main.py`. Each HTTP 404 becomes `NotFound(m)`, where `m` names what was
  missing (board, list, target list or card).
- `repository.dfy`, module `Repository`: class `Tables`, the backend of
  `app/repository.py` with the session removed. `Valid()` is the tables'
  primary-key constraint. A query that finds no row returns `None`.
- `backends.dfy`, module `Backends`: lemmas comparing the two backends, a
  counterexample showing that card update can orphan a card, and a sprint-board
  walk-through on each backend:
  - Board `Sprint1` gets id 1, list `Todo` id 1, card `Fix bug` id 1 with
    status `todo`.
  - Moving the card to list 99 fails and changes nothing.
  - Updating the status to `done` keeps the title.
  - Deleting the card twice leaves the collection as the first delete left it.
  - On the relational backend, deleting the newest card makes the next card
    reuse its id.

Where the two backends differ, the model keeps them apart:

- **Update.** `main.py` replaces the whole card with the parsed request. An
  omitted `status` therefore becomes `"todo"` again, and an omitted
  `description` or `assignee` becomes null. The repository overwrites only the
  fields the client supplied, and never the `id`. `CardDraft` is the parsed
  request and `CardPatch` the set of supplied fields.
- **Delete.** `main.py` removes every card with the id. The repository deletes
  the single row it finds. Under distinct identifiers the two give the same
  result (`Backends.DeleteBackendsAgree`).
- **Order.** `main.py` lists in insertion order, stated with `Subseq`. SQL
  `.all()` promises no order, so repository listings are stated as exact
  multiset counts only.

## Model

| member | source | states |
|---|---|---|
| `Kanban.NextId` | main.py:55-56 | 1 for an empty collection; otherwise strictly greater than every existing id and equal to some existing id plus one (the maximum plus one) |
| `Kanban.Max` | app/repository.py:4-6 | the highest id of a non-empty table: no id exceeds it and some row has it |
| `Kanban.FreshIdKeepsDistinct` | main.py:86 | appending the id chosen by `NextId` keeps ids pairwise distinct |
| `Kanban.CreationsFromEmpty` | main.py:71-72 | n creations in an empty collection assign exactly the ids 1..n, in order, pairwise distinct |
| `Kanban.ReuseAfterDeletingMax` | app/repository.py:4-6 | after deleting the highest id, the next id equals the deleted one whenever the id just below it still exists |
| `Kanban.ReuseAfterSequentialCreations` | app/repository.py:75-79 | after n creations from empty, deleting the newest record makes the next creation get id n again |
| `Kanban.Materialize` | main.py:28 | the card built from a request copies list, title, description and assignee, takes the given id, and takes the requested status or "todo" when none was given |
| `Kanban.CardWithoutStatusIsTodo` | main.py:28 | a card created without a status has status "todo" and the assigned id |
| `Kanban.FirstCardIndex` | main.py:125-127 | absent exactly when no card has the id; otherwise the position of a card with the id such that no earlier card has it |
| `Kanban.Filter` | main.py:96 | keeps exactly the elements passing the test, each as often as in the input, as a subsequence (original order) |
| `Kanban.FilterAppend` | main.py:117 | filtering a concatenation is concatenating the filtered parts (order is preserved) |
| `Kanban.FilterFilter` | main.py:116-119 | two successive filters equal one filter by the conjunction |
| `Kanban.SelectCards` | app/repository.py:56-62 | a card is in the listing exactly when it is stored and matches every given, non-empty filter, each matching card as often as stored |
| `Kanban.SelectCardsIsConjunction` | main.py:115-120 | the status-then-assignee narrowing equals filtering by the AND of the given, non-empty filters; an omitted or empty filter drops only its own predicate |
| `Kanban.ListingAfterAppend` | main.py:104-105 | a newly appended card appears last in a listing exactly when it matches, and the earlier listing is unchanged |
| `Kanban.WithoutCard` | main.py:144 | a card remains exactly when it was present and has a different id |
| `Kanban.WithoutCardIdempotent` | main.py:141-144 | deleting the same id a second time leaves the cards unchanged |
| `Kanban.FilteredIdsDistinct` | main.py:144 | removing cards keeps the remaining ids distinct |
| `Kanban.RemoveAtIsWithoutCard` | app/repository.py:75-79 | with distinct ids, deleting the one row found removes exactly the cards with that id |
| `Kanban.Merge` | app/repository.py:68-70 | every supplied field other than `id` takes the supplied value, every omitted field keeps its prior value, and the id never changes |
| `Kanban.MergeKeepsId` | app/repository.py:68-70 | an update never changes the card's id, even when the request supplies one |
| `Kanban.MergeNothingIsIdentity` | app/repository.py:68-70 | an update that supplies no field leaves the card unchanged |
| `Kanban.MergeIdempotent` | app/repository.py:64-73 | applying the same update twice equals applying it once |
| `InMemory.Store.constructor` | main.py:31-33 | a store without a snapshot starts with three empty collections, intact and with distinct ids |
| `InMemory.Store.CreateBoard` | main.py:68-73 | appends exactly one board with id `NextId` of the existing boards; lists and cards unchanged; distinct ids and integrity preserved |
| `InMemory.Store.ListBoards` | main.py:75-78 | returns all boards in insertion order |
| `InMemory.Store.CreateList` | main.py:81-88 | missing board: `NotFound(BoardMissing)` and nothing changes; otherwise appends exactly one list with a fresh id, the given board and name; integrity preserved |
| `InMemory.Store.GetListsByBoard` | main.py:90-96 | `NotFound(BoardMissing)` exactly when no board has the id; otherwise exactly the lists of that board, with multiplicities, in insertion order |
| `InMemory.Store.CreateCard` | main.py:99-106 | missing list: `NotFound(ListMissing)` and cards unchanged; otherwise appends one card built from the request with a fresh id, status "todo" when none was given; integrity preserved |
| `InMemory.Store.GetCards` | main.py:108-120 | exactly the cards matching every given, non-empty filter, with multiplicities, in insertion order |
| `InMemory.Store.GetCard` | main.py:122-128 | `NotFound(CardMissing)` exactly when no card has the id; otherwise the first card with that id |
| `InMemory.Store.UpdateCard` | main.py:130-138 | absent id: `NotFound(CardMissing)`, cards unchanged; otherwise only the first card with the id is replaced by the request with id forced to `card_id`; length and every other position unchanged; list reference not re-checked |
| `InMemory.Store.DeleteCard` | main.py:140-144 | removes every card with the id and keeps the rest in order; a no-op when the id is absent; integrity and distinct ids preserved |
| `InMemory.Store.MoveCard` | main.py:146-155 | missing target list (checked first): `NotFound(TargetListMissing)`; missing card: `NotFound(CardMissing)`; both leave cards unchanged; otherwise only the first matching card's `list_id` changes; integrity preserved |
| `Repository.Tables.constructor` | app/models.py:4-22 | three empty tables satisfying the primary-key constraint |
| `Repository.Tables.CreateBoard` | app/repository.py:8-14 | inserts one board whose id is the highest id plus one (1 if empty); primary keys stay distinct |
| `Repository.Tables.GetBoards` | app/repository.py:16-17 | every board row, in no particular order |
| `Repository.Tables.CreateList` | app/repository.py:19-31 | `None` and no insert when no board has the id; otherwise one list with a fresh id, the given board and name |
| `Repository.Tables.GetListsByBoard` | app/repository.py:33-34 | exactly the list rows whose `board_id` is the argument, each as often as stored; no board lookup |
| `Repository.Tables.CreateCard` | app/repository.py:36-51 | `None` and no insert when no list has the id; otherwise one card copying list, title, description, assignee and status, with a fresh id |
| `Repository.Tables.GetCard` | app/repository.py:53-54 | `None` exactly when no row has the id; otherwise a row with that id, the only one under the primary key |
| `Repository.Tables.GetCards` | app/repository.py:56-62 | exactly the rows matching every given, non-empty filter, each as often as stored, in no particular order |
| `Repository.Tables.UpdateCard` | app/repository.py:64-73 | absent id: `None`, no change; otherwise the found row becomes `Merge` of it and the request: supplied fields other than `id` overwritten, omitted ones kept, id unchanged; every other row unchanged |
| `Repository.Tables.DeleteCard` | app/repository.py:75-79 | no-op for an absent id; otherwise removes that one row and no other record |
| `Repository.Tables.MoveCard` | app/repository.py:81-91 | `None` and no change when the target list (checked first) or the card is missing; otherwise only that card's `list_id` becomes the target |
| `Repository.Tables.BoardExists` | app/repository.py:93-94 | holds exactly when some board row has the id |
| `Backends.UpdateBackendsAgreeOnFullRequest` | main.py:133-136 | when the request carries every field including a status, full replacement and field merge give the same card |
| `Backends.UpdateBackendsDivergeOnOmittedStatus` | app/repository.py:68-70 | when the status is omitted, replacement resets it to "todo" while the merge keeps the stored status |
| `Backends.DeleteBackendsAgree` | app/repository.py:76-79 | with distinct ids, deleting the one row found equals removing every card with the id |
| `Backends.UpdateMayOrphanCard` | main.py:130-138 | an update of either backend can point a card at a list that does not exist (for the repository, when foreign keys are not enforced) |

## Left out

- HTTP routing, status codes, the `x-api-key` header and its comparison with the
  configured key (main.py:61-63, app/main.py:15-17) are not modelled. They are
  framework glue. `app/main.py` only maps `None` to 404; the model returns the
  result values themselves.
- Loading `data.json` at import and saving it at exit (main.py:36-52) is file
  I/O and is not modelled. The `Store` constructor stands for a start without a
  snapshot. The `Store` operations assume nothing about the loaded contents:
  distinct ids and integrity appear only as "preserved if they held before".
- The database session (`add`, `commit`, `refresh`, `delete`), table creation
  and the `/health` probe are foreign library calls. Tables are collections, and
  an insert appends a row.
- Row order of relational queries is not specified. The repository contracts
  state multiset counts, not sequence order.
- Request validation is not modelled. Request parsing for `main.py` is taken
  as done: `CardDraft` already carries the declared defaults. For the repository,
  `CardPatch` lets any field be omitted, although validation would always
  supply `list_id` and `title`.
- Concurrency is out of scope: the read-the-maximum-then-insert race of id
  assignment cannot occur in this single-threaded model.
- Aliasing of the card object that `main.py` returns from a move is not
  modelled. The model returns the updated card as a value.
- Card update in both backends may change `list_id` without checking the list,
  so a card's list can change through an update as well as through a move. No
  update contract claims integrity for cards, and `Backends.UpdateMayOrphanCard`
  exhibits the gap.
- Ids are computed from the current maximum, not from a counter, so an id can
  be reused after its record is deleted (`Kanban.ReuseAfterDeletingMax`).
- The `ForeignKey("boards.id")` and `ForeignKey("lists.id")` declarations of
  the schema (app/models.py:12, app/models.py:18) are not modelled; only the
  primary keys are (`Valid()`). The repository results assume the database
  engine does not enforce foreign keys. An engine that does would reject, at
  commit, an update that points a card at a missing list, so for such an engine
  the repository half of `Backends.UpdateMayOrphanCard` does not apply.
