# ToDoApp persistence and editing core, in Dafny

This project models the persistence and editing logic of the ToDoApp iOS to-do
list, and proves properties of that model:

- **Task record** (`entities.dfy`, `uuids.dfy`). The `Task` value, plus its
  mappings from a remote to-do item and from a stored Core Data `TaskEntity`.
  It includes the text grammar of `UUID(uuidString:)` (section 3 of RFC 4122)
  and Swift's decimal text of an `Int`.
- **Task store** (`store.dfy`). `save`, `add`, `edit`, `delete` and
  `toggleCompletion` over the Core Data context. The context is modelled as
  three parts: the entities a fetch sees, the entities last saved, and
  `hasChanges`. The store is a class. Public calls append a request to a FIFO
  queue standing in for the serial `operationQueue`. `RunNext` runs the oldest
  request and delivers its one completion. `Drain` runs the whole queue. The
  class invariant states that the context and the completions always equal the
  sequential application (`RunAll`) of the executed requests, in submission
  order.
- **Editor interactor** (`editor.dfy`). Title validation, construction of the
  task to submit, and the mapping of the provider's result onto the one output
  callback.
- **Change-set accumulator** (`data_provider.dfy`, `provider.dfy`). The
  `changes` buffer of `TaskDataProvider` and of its earlier copy
  `TaskProvider`: cleared by `controllerWillChangeContent`, grown by each object
  change report, emitted by `controllerDidChangeContent`. It also covers
  `fetchTasks`, which sends an empty change list (the list view takes it as
  "reload everything"), and `numberOfRows`. The fetch order, `createdAt`
  descending, is a sort proved to produce a sorted permutation.

Nondeterminism and the framework are parameters:
- `UUID()` is a fresh-id argument and `Date()` is a current-date argument.
  Dates are integers.
- Each store run takes an `Env`: whether the entity fetch throws, and whether
  `context.save()` throws.
- The provider's result in the editor is an argument.
- The object-change reports of the fetched-results controller are inputs.

Decisions where the sources are ambiguous or inconsistent:
- The two provider files each declare `TaskStoreUpdate`. The two declarations
  are identical, so the model declares it once (`DataProvider.TaskStoreUpdate`)
  and both classes use it.
- The interactor passes its `String?` description into `Task`'s `String`
  field, which does not compile as written. The model stores an absent
  description as the empty string (`TaskEditor.DescriptionText`). This is the
  same default that `Task(from: TaskEntity)` uses.
- `TaskEditorDataProviderProtocol` declares throwing methods without
  completions, but the interactor calls them with completions. The model
  follows the interactor: the provider's result is an input to the completion.
- The interactor's `edit` builds the new task dated `Date()`
  (TaskEditorInteractor.swift:78), and the store overwrites title, description,
  `createdAt` and `isCompleted` (TaskStore.swift:99-102). So an edit changes
  the creation date, and the model follows this.
- A failed `context.save()` leaves the unsaved changes in the context (Core
  Data does not roll back). Later fetches still see them, and a later save
  retries them.
- Any attribute assignment by `edit` counts as a change for `hasChanges`.
- `findEntity` takes the first match in the context's order.
- For the sort, an entity without a creation date sorts after every dated one
  (SQLite orders a missing value lowest). The order among entities with equal
  dates is not fixed by the code, so the sort is proved only sorted and a
  permutation. The providers' snapshot is the stable insertion sort, which
  keeps the stored order among equal dates (see "Left out").

## Model

| member | source | states |
|---|---|---|
| `Uuids.ParseUuid` | ToDoApp/Entities/Task.swift:27 | `UUID(uuidString:)` succeeds exactly on the 8-4-4-4-12 hexadecimal form. Each digit of the result is the value of the corresponding character. |
| `Uuids.ParseUuidString` | ToDoApp/Entities/Task.swift:27 | Parsing the text that `uuidString` writes gives back the same UUID. |
| `Uuids.NatTextIsDigits` | ToDoApp/Entities/Task.swift:27 | The decimal text of a non-negative `Int` is non-empty and made of digits only. |
| `Uuids.DecimalTextIsNeverUuid` | ToDoApp/Entities/Task.swift:27 | No decimal integer text, negative or not, has the UUID form, so parsing `"\(remote.id)"` always yields nil. |
| `Entities.FromRemote` | ToDoApp/Entities/Task.swift:26-32 | The id is always the fresh id (the fallback is always taken). Title and description are both `remote.todo`. The creation date is now. `isCompleted` is `remote.completed`. |
| `Entities.RemoteIdIsDiscarded` | ToDoApp/Entities/Task.swift:27 | As written, importing one remote item with two different fresh ids gives two different task ids. Remote id 1, whose text "1" is no UUID, is the witness. |
| `Entities.RemoteUuidIsInjective` | ToDoApp/Entities/Task.swift:27 | The corrected id derivation maps two 64-bit remote ids to the same UUID exactly when the ids are equal. |
| `Entities.HexDigitsOfRoundTrip` | ToDoApp/Entities/Task.swift:27 | The hexadecimal digits in a derived UUID spell back the number they were taken from. |
| `Entities.FromRemoteDeterministic` | ToDoApp/Entities/Task.swift:26-32 | Corrected import: the id is derived from the remote id. Every other field is as in `FromRemote`. |
| `Entities.DeterministicImportIds` | ToDoApp/Entities/Task.swift:26-32 | With the corrected import, two imported items get the same id exactly when their remote ids are equal, whenever they are imported. |
| `Entities.FromEntity` | ToDoApp/Entities/Task.swift:34-40 | Present attributes are copied. A missing id becomes the fresh id, a missing title or description becomes "", and a missing date becomes now. `isCompleted` is copied verbatim. |
| `Entities.EntityOf` | ToDoApp/Data/TaskStore.swift:50-55 | The entity the store writes has every attribute present and equal to the task's field: id, title, description (even when empty), creation date and completion flag. Reading it back with `FromEntity` gives the task, whatever defaults the reader would use. |
| `Entities.EntityRoundTrip` | ToDoApp/Entities/Task.swift:34-40 | Reading an entity whose attributes are all present, then writing it again, gives the same entity. |
| `Store.EntitiesOf` | ToDoApp/Data/TaskStore.swift:49-56 | The loop of `save` makes exactly one entity per task, in order, each written from that task. |
| `Store.FindEntity` | ToDoApp/Data/TaskStore.swift:176-181 | The lookup returns the position of the first entity with the id. It returns nil exactly when no entity has the id. |
| `Store.SaveIfChanged` | ToDoApp/Data/TaskStore.swift:58-61 | Saves only when the context has changes, then succeeds; a thrown save is reported, wrapped or raw as the caller asks. No contract of its own. `Store.TaskStore.SaveContextIfChanged` and `Store.SaveAddsOneEntityPerTask` state its properties. |
| `Store.Apply` | ToDoApp/Data/TaskStore.swift:44-160 | The effect of one queued operation, dispatching to the operation it names. No contract of its own. `Store.RunAll`, `Store.RunAllOutcomeAt`, `Store.FailuresAreReportedAsDeclared` and `Store.TaskStore.Perform` state its properties. |
| `Store.ApplySave` | ToDoApp/Data/TaskStore.swift:48-64 | The body of `save`. No contract of its own. `Store.SaveAddsOneEntityPerTask` and `Store.FailuresAreReportedAsDeclared` state its properties. |
| `Store.ApplyAdd` | ToDoApp/Data/TaskStore.swift:72-86 | The body of `add`. No contract of its own. `Store.AddNeverDeduplicates` and `Store.FailuresAreReportedAsDeclared` state its properties. |
| `Store.ApplyEdit` | ToDoApp/Data/TaskStore.swift:94-112 | The body of `edit`. No contract of its own. `Store.EditOverwritesFoundEntity`, `Store.MissingIdChangesNothing` and `Store.FetchErrorChangesNothing` state its properties. |
| `Store.ApplyDelete` | ToDoApp/Data/TaskStore.swift:120-135 | The body of `delete`. No contract of its own. `Store.DeleteRemovesFoundEntity`, `Store.MissingIdChangesNothing` and `Store.FetchErrorChangesNothing` state its properties. |
| `Store.ApplyToggle` | ToDoApp/Data/TaskStore.swift:143-158 | The body of `toggleCompletion`. No contract of its own. `Store.ToggleFlipsOnlyCompletion`, `Store.ToggleTwiceRestores`, `Store.MissingIdChangesNothing` and `Store.FetchErrorChangesNothing` state its properties. |
| `Store.RunAll` | ToDoApp/Data/TaskStore.swift:168-174 | Running queued operations one after another gives exactly one completion per operation. |
| `Store.RunAllSnoc` | ToDoApp/Data/TaskStore.swift:168-174 | Running one more queued operation is applying it to the context the earlier ones left. |
| `Store.RunAllOutcomeAt` | ToDoApp/Data/TaskStore.swift:168-174 | The i-th completion is that of the i-th submitted operation, run on the context its predecessors left. |
| `Store.SaveAddsOneEntityPerTask` | ToDoApp/Data/TaskStore.swift:44-66 | `save` appends one entity per task, in order, and keeps the existing ones. It fails exactly when something is pending and `save()` throws, with the error wrapped in `operationFailed`. On success after a change, the context is saved and clean. With nothing pending and no tasks, it succeeds and changes nothing. |
| `Store.AddNeverDeduplicates` | ToDoApp/Data/TaskStore.swift:68-88 | `add` appends exactly one entity from the task, even for an id already present. Lookups of that id still find the older entity. |
| `Store.FindEntityExtend` | ToDoApp/Data/TaskStore.swift:176-181 | A lookup answered in a prefix of the entities gives the same answer once more entities follow. |
| `Store.MissingIdChangesNothing` | ToDoApp/Data/TaskStore.swift:90-160 | `edit`, `delete` and `toggleCompletion` on an id that no entity has complete with `taskNotFound` and leave the context unchanged. |
| `Store.FetchErrorChangesNothing` | ToDoApp/Data/TaskStore.swift:90-160 | A lookup that throws leaves the context unchanged. `delete` reports the raw error; `edit` and `toggleCompletion` wrap it in `operationFailed`. |
| `Store.FindEntitySameIds` | ToDoApp/Data/TaskStore.swift:176-181 | Two entity lists with the same ids at every position give the same answer to every lookup. |
| `Store.EditOverwritesFoundEntity` | ToDoApp/Data/TaskStore.swift:95-102 | `edit` finds the first entity with the old task's id. It sets that entity's title, description, creation date and completion to the new task's values and keeps its id. Every other entity, and the count, is unchanged. |
| `Store.ToggleFlipsOnlyCompletion` | ToDoApp/Data/TaskStore.swift:144-148 | `toggleCompletion` flips `isCompleted` of the found entity. It changes nothing else in that entity or in any other. |
| `Store.ToggleTwiceRestores` | ToDoApp/Data/TaskStore.swift:148 | Two toggles of the same task restore every entity, whatever the saves do. |
| `Store.DeleteRemovesFoundEntity` | ToDoApp/Data/TaskStore.swift:121-125 | `delete` removes exactly the first entity with the id. The others stay, in order: one fewer entity, and the same multiset minus the removed one. |
| `Store.FailuresAreReportedAsDeclared` | ToDoApp/Data/TaskStore.swift:44-160 | Failures of `save`, `add`, `edit` and `toggleCompletion` are `TaskError`s. `delete` fails with `taskNotFound` or a raw framework error. Every reported framework error is the one the fetch or the save threw in that run. |
| `Store.TaskStore.constructor` | ToDoApp/Data/TaskStore.swift:32-36 | A store over a context starts with an empty queue and no completions. |
| `Store.TaskStore.ExecuteOperation` | ToDoApp/Data/TaskStore.swift:168-174 | An operation is queued behind every earlier one. Executed plus pending operations remain the submission sequence. |
| `Store.TaskStore.Save` | ToDoApp/Data/TaskStore.swift:44-45 | `save` only enqueues its request. |
| `Store.TaskStore.Add` | ToDoApp/Data/TaskStore.swift:68-69 | `add` only enqueues its request. |
| `Store.TaskStore.Edit` | ToDoApp/Data/TaskStore.swift:90-91 | `edit` only enqueues its request. |
| `Store.TaskStore.Delete` | ToDoApp/Data/TaskStore.swift:116-117 | `delete` only enqueues its request. |
| `Store.TaskStore.ToggleCompletion` | ToDoApp/Data/TaskStore.swift:139-140 | `toggleCompletion` only enqueues its request. |
| `Store.TaskStore.SaveContextIfChanged` | ToDoApp/Data/TaskStore.swift:58-60 | The context is saved only when it has changes. A successful save makes it clean; a failing one keeps it as it was. |
| `Store.TaskStore.PerformSave` | ToDoApp/Data/TaskStore.swift:48-64 | The `for task in tasks` loop and the save bring the context to the state `ApplySave` specifies, with the same completion. |
| `Store.TaskStore.PerformAdd` | ToDoApp/Data/TaskStore.swift:72-86 | The body of `add` matches `ApplyAdd`. |
| `Store.TaskStore.PerformEdit` | ToDoApp/Data/TaskStore.swift:94-113 | The body of `edit` matches `ApplyEdit`, including its two error paths. |
| `Store.TaskStore.PerformDelete` | ToDoApp/Data/TaskStore.swift:120-135 | The body of `delete` matches `ApplyDelete`, including the raw errors. |
| `Store.TaskStore.PerformToggle` | ToDoApp/Data/TaskStore.swift:143-158 | The body of `toggleCompletion` matches `ApplyToggle`. |
| `Store.TaskStore.Perform` | ToDoApp/Data/TaskStore.swift:44-160 | The closure a request queues is the operation it names; it brings the context to the state and completion `Apply` specifies. |
| `Store.TaskStore.RunNext` | ToDoApp/Data/TaskStore.swift:168-174 | The serial queue runs its oldest operation alone and delivers exactly one completion. The invariant is kept: the context is the sequential application of all executed operations, in submission order. |
| `Store.TaskStore.Drain` | ToDoApp/Data/TaskStore.swift:168-174 | Running every pending operation leaves the context and the completions that sequential application of the queue, in submission order, gives. |
| `TaskEditor.SendError` | ToDoApp/Modules/TaskEditor/TaskEditorInteractor.swift:102-110 | A rejection error has domain "TaskEditor", code -1, and the message as its localized description. |
| `TaskEditor.DescriptionText` | ToDoApp/Modules/TaskEditor/TaskEditorInteractor.swift:54 | A given description is kept, and an absent one is stored as "". |
| `TaskEditor.DecideAdd` | ToDoApp/Modules/TaskEditor/TaskEditorInteractor.swift:44-57 | The input is rejected exactly when the title is nil or empty, with the empty-title error. Otherwise the task has the fresh id, the title, the description, the current date, and `isCompleted == false`. |
| `TaskEditor.DecideEdit` | ToDoApp/Modules/TaskEditor/TaskEditorInteractor.swift:66-80 | The input is rejected exactly when the new title is nil or empty. Otherwise the new task keeps the original id and `isCompleted`, takes the new title and description, and is dated now. |
| `TaskEditor.HandleResult` | ToDoApp/Modules/TaskEditor/TaskEditorInteractor.swift:93-100 | Success maps to `didSaveTaskSuccessfully`. Failure maps to `didFailToSaveTask` with the same error. |
| `TaskEditor.HandleResultIsOneToOne` | ToDoApp/Modules/TaskEditor/TaskEditorInteractor.swift:93-100 | Different provider results give different callbacks. |
| `TaskEditor.AddTask` | ToDoApp/Modules/TaskEditor/TaskEditorInteractor.swift:43-63 | Exactly one output callback fires. An invalid title makes no provider call and sends the error. A valid one makes exactly one `add` call with the built task, and its result decides the callback. |
| `TaskEditor.EditTask` | ToDoApp/Modules/TaskEditor/TaskEditorInteractor.swift:65-85 | Exactly one output callback fires. An invalid title makes no provider call. A valid one makes exactly one `edit` call with the original and the rebuilt task, and its result decides the callback. |
| `TaskEditor.SubmittedEditKeepsIdentity` | ToDoApp/Modules/TaskEditor/TaskEditorInteractor.swift:74-84 | Suppose a provider forwards the interactor's edit to `TaskStore.edit` (the shown `TaskDataProvider.edit` does not). Then the edit keeps the entity's id. It stores a non-empty title and the edit date. The completion flag becomes that of the interactor's copy of the task (TaskStore.swift:102), whatever the store held. |
| `TaskEditor.StaleEditUndoesToggle` | ToDoApp/Modules/TaskEditor/TaskEditorInteractor.swift:74-84 | Suppose a provider forwards the interactor's edit to `TaskStore.edit` (the shown `TaskDataProvider.edit` does not), and a toggle runs between the interactor taking its copy of the task and the edit. Then the edit writes the stale flag back, and the entity ends with the completion flag it had before the toggle (TaskStore.swift:102, 148). |
| `TaskEditor.SubmittedAddStoresTitle` | ToDoApp/Modules/TaskEditor/TaskEditorInteractor.swift:51-62 | Suppose a provider forwards the interactor's add to `TaskStore.add` (the shown `TaskDataProvider.add` does not). Then the add appends one entity with the fresh id, the given non-empty title, and not completed. |
| `DataProvider.Translate` | ToDoApp/Data/TaskDataProvider.swift:128-153 | An insert report gives `.insert(newIndexPath)` exactly when the new path is present. Delete and update reports give their change at the old path exactly when it is present. A move report gives `.move(from:to:)` exactly when both paths are present. Unknown kinds give nothing. |
| `DataProvider.ReportFor` | ToDoApp/Data/TaskDataProvider.swift:128-153 | Every change type is what some report translates to. |
| `DataProvider.Recorded` | ToDoApp/Data/TaskDataProvider.swift:128-153 | A batch of reports never records more changes than reports. |
| `DataProvider.RecordedAppend` | ToDoApp/Data/TaskDataProvider.swift:155-158 | The changes are recorded in arrival order: two batches give the first batch's changes followed by the second's. |
| `DataProvider.RecordedReports` | ToDoApp/Data/TaskDataProvider.swift:128-158 | A batch of reports made for given changes records exactly those changes, in order. |
| `DataProvider.InsertByDate` | ToDoApp/Data/TaskDataProvider.swift:54-56 | Inserting an entity into a list adds exactly that entity and loses none. |
| `DataProvider.InsertByDateKeepsOrder` | ToDoApp/Data/TaskDataProvider.swift:54-56 | Inserting into a newest-first list keeps it newest first. |
| `DataProvider.SortByCreatedAt` | ToDoApp/Data/TaskDataProvider.swift:54-56 | The fetched snapshot is ordered by `createdAt` descending and is a permutation of the stored entities. |
| `DataProvider.TaskDataProvider.constructor` | ToDoApp/Data/TaskDataProvider.swift:69-72 | A new provider has an empty change list, no fetched objects and no delegate. |
| `DataProvider.TaskDataProvider.SetDelegate` | ToDoApp/Data/TaskDataProvider.swift:43 | Sets or clears the weakly held delegate. |
| `DataProvider.TaskDataProvider.NumberOfRows` | ToDoApp/Data/TaskDataProvider.swift:80-82 | The row count is the number of fetched objects, or 0 while there is no snapshot. The lazy controller's first fetch is not modelled (see "Left out"). |
| `DataProvider.TaskDataProvider.FetchTasks` | ToDoApp/Data/TaskDataProvider.swift:89-97 | A successful fetch makes the snapshot the stored entities newest first, makes the row count the stored count, and sends an update with an empty change list. A failed fetch sends `didFail` and no update, and keeps the snapshot. |
| `DataProvider.TaskDataProvider.ControllerWillChangeContent` | ToDoApp/Data/TaskDataProvider.swift:124-126 | The change buffer is emptied. |
| `DataProvider.TaskDataProvider.ControllerDidChange` | ToDoApp/Data/TaskDataProvider.swift:128-153 | The report's translated change, if any, is appended. Otherwise the buffer is unchanged. |
| `DataProvider.TaskDataProvider.ControllerDidChangeContent` | ToDoApp/Data/TaskDataProvider.swift:155-158 | The delegate receives exactly the changes of the reports since the batch began, in arrival order. |
| `Provider.TaskProvider.constructor` | ToDoApp/Data/TaskProvider.swift:64-67 | A new provider has an empty change list, no fetched objects and no delegate. |
| `Provider.TaskProvider.SetDelegate` | ToDoApp/Data/TaskProvider.swift:38 | Sets or clears the weakly held delegate. |
| `Provider.TaskProvider.NumberOfRows` | ToDoApp/Data/TaskProvider.swift:75-77 | The row count is the fetched count, or 0 while there is no snapshot. The lazy controller's first fetch is not modelled (see "Left out"). |
| `Provider.TaskProvider.FetchTasks` | ToDoApp/Data/TaskProvider.swift:84-92 | Success stores the newest-first snapshot and sends an empty update. An error sends `didFail` only. |
| `Provider.TaskProvider.ControllerWillChangeContent` | ToDoApp/Data/TaskProvider.swift:104-106 | The change buffer is cleared. |
| `Provider.TaskProvider.ControllerDidChange` | ToDoApp/Data/TaskProvider.swift:108-133 | Each report appends at most one change, following the same rules as `Translate`. Unknown kinds are ignored. |
| `Provider.TaskProvider.ControllerDidChangeContent` | ToDoApp/Data/TaskProvider.swift:135-138 | The buffer goes to the delegate unchanged and in order. |

## Left out

- UIKit views, presenters, routers, module assembly and app wiring: presentation and navigation only.
- `TaskNetworkService` (URLSession fetch and JSON decoding) and `TaskListInteractor`: network I/O and main-queue hops. Only the `RemoteTask` field shape is used, as the input to `FromRemote`.
- `CoreDataStack` (loading the persistent container), and `NSFetchedResultsController`'s own change computation. The controller's reports are inputs. Context `fetch` and `save()` are reduced to success or a thrown error.
- The lazy initializer of each provider's `fetchedResultsController` (TaskDataProvider.swift:51-65, TaskProvider.swift:46-60) is not modelled. On its first use it runs `try? performFetch()` and silently drops any error. So the first `numberOfRows` on a new provider gives the stored count in the source, and 0 in the model, because the model has no snapshot until `fetchTasks` succeeds.
- The controller's live refresh of `fetchedObjects` between fetches is Core Data's own work. In the model the snapshot changes only on `fetchTasks`.
- DataProvider.TaskDataProvider.FetchTasks and Provider.TaskProvider.FetchTasks fix the snapshot to `SortByCreatedAt(stored)`, a stable insertion sort. So among entities with equal creation dates, the model keeps the stored order, which the code leaves to the store. `SortByCreatedAt` itself is proved only sorted and a permutation.
- `task(at:)`: it forwards the object at a position to `Task(from: TaskEntity)` (modelled as `FromEntity`), and an out-of-range position is a crash.
- `save(_:) throws` on both providers forwards to a store signature that does not exist (the store takes a completion). The empty `add`/`edit` bodies of `TaskDataProvider` do nothing. Neither has behaviour to model.
- TaskEditor.SubmittedEditKeepsIdentity, TaskEditor.StaleEditUndoesToggle and TaskEditor.SubmittedAddStoresTitle assume a provider that forwards the interactor's task to `TaskStore.add`/`TaskStore.edit`. The provider the app wires to the editor is `TaskDataProvider`, and its `add`/`edit` bodies are empty (TaskDataProvider.swift:109-115). So in the app as written, nothing the editor submits reaches the store, and the lost update these lemmas describe cannot happen there.
- Concurrency and lifetime: `DispatchQueue.async`, `performAndWait` and `[weak self]` are replaced by the explicit FIFO queue. The case where a released store silently skips its completion is not modelled.
- The interactor's `weak var output` and the `[weak self]` captures of its completions (TaskEditorInteractor.swift:25, 60-62, 82-84) are not modelled. `TaskEditor.AddTask` and `TaskEditor.EditTask` always produce their one callback. In the source, no callback fires once the interactor or its output has been released.
- `Date+Extensions` (a `DateFormatter` call). `Date()` and `UUID()` are parameters, and dates are integers.
- Searching or filtering tasks, and a first-run import flag: neither exists in the modelled sources.
- The memberwise `Task` initializer is the datatype constructor `Entities.Task`, which stores its five fields by construction. It has no separate member.

## Findings

| source | as written | input that shows it | evidently intended | confidence | as-written member | corrected member |
|---|---|---|---|---|---|---|
| ToDoApp/Entities/Task.swift:27 | The id is `UUID(uuidString: "\(remote.id)") ?? UUID()`. Decimal text never has the RFC 4122 form, so every import gets a random id. | A remote item with `id` 1: `"1"` does not parse. Importing it twice gives two tasks with different ids. | An id derived from the remote id, the same on every import and different for different items. | medium; not executed | `Entities.RemoteIdIsDiscarded` | `Entities.FromRemoteDeterministic` |
