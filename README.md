# agency-ops data layer in Dafny

A model of the data layer of the agency-operations admin app (meanval) and
of the small rules around it, with proofs of what the code promises:

- **The client-side entity store** (`DataContext`, `Persistence`, `Numbering`).
  It holds five ordered collections: projects, clients, proposals,
  contracts and showcases. Each collection has add, update (a shallow-merge
  patch), delete and get. Proposals and contracts get `CODE-YEAR-NNN`
  numbers. The whole store is saved to browser storage as one document and
  loaded back, with its date fields revived. The store is a class with five
  `seq` fields, an `isLoaded` flag and the storage entry. Its methods call
  pure functions that are proved against their meaning.
- **The kanban board** (`Kanban`). It shows the projects in five status
  columns. Dragging over another column or card re-statuses a project at
  once. Dropping on a card of the same status reorders the list with
  `arrayMove`.
- **The showcase editor** (`ShowcaseEditor`). It edits a showcase's item
  list, derives its totals and saves or sends it.
- **The route handlers** (`RouteStore`, `ProposalsRoute`, `ContractsRoute`,
  `ProjectsRoute`, `ClientsRoute`). Initialising falls back to the seed
  when Redis is unavailable, and writes the seed when the stored list is
  absent or empty. GET applies conjunctive query filters. POST applies
  creation defaults and numbers documents by counting stored numbers that
  carry the `CODE-YEAR` prefix. Redis is one key with an availability flag.
- **The seed data and its query helpers** (`MockData`). Lemmas cover the
  dashboard aggregates, item and showcase totals, unique ids and the seed
  document numbers.
- **Small pure rules**:
  - progress percentage, relative-time buckets and the status label and
    colour tables (`Utils`);
  - the calendar legend and its deadlines (`CalendarSidebar`);
  - the calendar events (`ProjectCalendar`);
  - search and paging in the data table (`DataTable`);
  - avatar initials (`Avatar`);
  - active-link matching in the sidebar (`Sidebar`).

`Types` holds the entities. `Lists` and `Text` hold the array and string
operations the source composes its logic from: `filter`, `find`,
`findIndex`, `map`, `reduce`, `sort`, `arrayMove`, `includes`,
`startsWith`, `padStart`, `split`, `toLowerCase` and `toUpperCase`.

### Clocks and the environment

Every reading of the clock (`Date.now()`, `new Date()`, `getFullYear()`) is
a parameter. Where the source reads the clock twice, the model takes two
parameters. Dates are integers: milliseconds since the epoch. JSON is an
abstract document in which a date becomes the decimal text of its value.
Browser storage and Redis are fields holding what they store. The seed's
date-time strings without a zone, such as the note dates at
lib/mock-data.ts:462-504, are read as UTC; no proved property depends on the
time zone.

### Behaviour of the code worth knowing

- **Store numbering.** `addProposal` and `addContract` number by
  `length + 1` of the list held at the call (`DataContext.DataProvider.AddProposal`).
  After a delete, this hands out a number the list already holds
  (`DataContext.NumberReusedAfterDelete`).
- **Patches.** Nothing protects `id` or `number` from a patch.
- **Contracts.** `updateContract` never stamps `signedAt`.
- **Task due dates.** They are not revived on load, so they come back as
  text (`Persistence.DueDateNotRevived`).
- **The project POST.** It asks Redis whether it is available before it
  initialises the list. Initialising then asks again. The model takes both
  answers as parameters.

## Model

| member | source | states |
|---|---|---|
| Types.ProjectStatusNameInjective | lib/types.ts:29 | The string spellings of the five project statuses are pairwise distinct. |
| DataContext.UpdateById | lib/data-context.tsx:127-131 | The result has the same length. Position by position, a record with the id is replaced by the merge and every other record is unchanged. |
| DataContext.UpdateAbsent | lib/data-context.tsx:128-130 | An update of an id that no record has leaves the collection unchanged. |
| DataContext.MergeProjectEmpty | lib/data-context.tsx:129 | Spreading a patch that carries no field gives back the record. |
| DataContext.MergeProjectTwice | lib/data-context.tsx:129 | Two merges in a row equal one merge of the patches spread in order. Repeating the same patch changes nothing more. |
| DataContext.DeleteById | lib/data-context.tsx:133-135 | No kept record has the id. Every record with another id is kept as often as it occurred, and none with the id. The result is an order-preserving subsequence, so it is the filter itself. |
| DataContext.DeleteAbsent | lib/data-context.tsx:133-135 | Deleting an id that no record has is a no-op. |
| DataContext.DeleteTwice | lib/data-context.tsx:158-160 | Deleting twice equals deleting once. |
| DataContext.FindAfterDelete | lib/data-context.tsx:183-187 | After a delete, a lookup of the id finds nothing. |
| DataContext.FindBy | lib/data-context.tsx:137 | A record is found exactly when some record has the key. What is found is the record at the first index with that key. This covers getProject, getClient, getProposal, getContract and getShowcaseByProjectId (:162, :187, :212, :236-237). |
| DataContext.UpdateShowcaseStamps | lib/data-context.tsx:226-230 | An updated showcase carries the update's time whatever the patch says about `updatedAt`, and is otherwise the merge. Showcases with other ids are unchanged. |
| DataContext.SigningDoesNotStamp | lib/data-context.tsx:202-206 | Setting status `signed` through an update leaves every `signedAt` as it was. |
| DataContext.UpdateRenumbers | lib/data-context.tsx:177-181 | A patch with a number rewrites the number of the matching proposals, and only theirs. |
| DataContext.UpdateRenames | lib/data-context.tsx:127-131 | A patch with a different id renames the record, so it is no longer found under the old id. |
| DataContext.ClockIdInjective | lib/data-context.tsx:120 | Two `prefix + Date.now()` ids are equal exactly when the clock readings are equal. |
| DataContext.NewProject | lib/data-context.tsx:118-122 | The record literal of `addProject`, no contract of its own; its meaning is stated by `DataContext.DataProvider.AddProject` and `DataContext.SameMillisecondIds`. |
| DataContext.SameMillisecondIds | lib/data-context.tsx:117-125 | Two projects added in the same millisecond share an id, and a lookup by that id returns the first of them. |
| DataContext.NewClient | lib/data-context.tsx:140-150 | A new client starts with `totalProjects = 0` and `totalRevenue = 0`. Its id is `client-` and the clock reading, its `createdAt` is the creation reading, and its name, email, phone, company, address and status are the draft's. |
| DataContext.NewShowcase | lib/data-context.tsx:216-221 | The record literal of `addShowcase`, no contract of its own; its meaning is stated by `DataContext.DataProvider.AddShowcase` and `DataContext.AddKeepsTimesOrdered`. |
| DataContext.AddKeepsTimesOrdered | lib/data-context.tsx:215-224 | While the clock runs forward, a showcase added with its two readings keeps every showcase created no later than its last update. |
| DataContext.UpdateKeepsTimesOrdered | lib/data-context.tsx:226-230 | An update at a later time keeps that order, as long as the patch leaves `createdAt` alone. |
| DataContext.PatchBreaksTimesOrdered | lib/data-context.tsx:226-230 | A patch that moves `createdAt` past the update's time leaves a showcase updated before it was created. |
| DataContext.NewProposal | lib/data-context.tsx:166-172 | The record literal of `addProposal`, no contract of its own; its meaning is stated by `DataContext.DataProvider.AddProposal`, `DataContext.AddKeepsDense` and `DataContext.NumberReusedAfterDelete`. |
| DataContext.AddKeepsDense | lib/data-context.tsx:165-175 | Numbering by `length + 1` keeps a list whose k-th proposal is `TEK-year-k` in that form. |
| DataContext.NumberReusedAfterDelete | lib/data-context.tsx:166-170 | On a densely numbered list, deleting a present id shortens the list. The next add then gets a number the list already had. |
| DataContext.SeedNumberReused | lib/data-context.tsx:166-170 | The seed proposals are numbered densely in 2024. After deleting the first one, an add in 2024 repeats a seed number. |
| DataContext.NewContract | lib/data-context.tsx:191-197 | The record literal of `addContract`, no contract of its own; its meaning is stated by `DataContext.DataProvider.AddContract` and `DataContext.StoreContractCode`. |
| DataContext.StoreContractCode | lib/data-context.tsx:195 | A number made with code `SOZ` never equals one made with code `SÖZ`, for any years and sequence numbers. |
| DataContext.DataProvider.constructor | lib/data-context.tsx:55-60 | The collections start at the seed, nothing is loaded and storage is as found. |
| DataContext.DataProvider.SaveEffect | lib/data-context.tsx:104-114 | Storage becomes the saved document once loading has finished, and is untouched before. |
| DataContext.DataProvider.Mount | lib/data-context.tsx:63-101 | The collections become the load of storage, loading is finished and the save effect writes them back. |
| DataContext.DataProvider.AddProject | lib/data-context.tsx:117-125 | Returns the new project. Exactly that project is appended, every other collection stays, and the save effect runs. |
| DataContext.DataProvider.UpdateProject | lib/data-context.tsx:127-131 | Projects become the update by id with the merge. Every other collection stays. |
| DataContext.DataProvider.DeleteProject | lib/data-context.tsx:133-135 | Projects become the delete by id. Every other collection stays. |
| DataContext.DataProvider.AddClient | lib/data-context.tsx:140-150 | Returns the new client, which alone is appended. |
| DataContext.DataProvider.UpdateClient | lib/data-context.tsx:152-156 | Clients become the update by id with the merge. |
| DataContext.DataProvider.DeleteClient | lib/data-context.tsx:158-160 | Clients become the delete by id. |
| DataContext.DataProvider.AddProposal | lib/data-context.tsx:165-175 | The new proposal is numbered `TEK-year-` with the padded count of proposals held at the call plus one, and alone is appended. |
| DataContext.DataProvider.UpdateProposal | lib/data-context.tsx:177-181 | Proposals become the update by id with the merge. |
| DataContext.DataProvider.DeleteProposal | lib/data-context.tsx:183-185 | Proposals become the delete by id. |
| DataContext.DataProvider.AddContract | lib/data-context.tsx:190-200 | The new contract is numbered `SOZ-year-` with the padded count of contracts held at the call plus one, and alone is appended. |
| DataContext.DataProvider.UpdateContract | lib/data-context.tsx:202-206 | Contracts become the update by id with the merge. |
| DataContext.DataProvider.DeleteContract | lib/data-context.tsx:208-210 | Contracts become the delete by id. |
| DataContext.DataProvider.AddShowcase | lib/data-context.tsx:215-224 | The new showcase, stamped with two clock readings, alone is appended. |
| DataContext.DataProvider.UpdateShowcase | lib/data-context.tsx:226-230 | Showcases become the update by id with the merge, stamped with the update's time. |
| DataContext.DataProvider.DeleteShowcase | lib/data-context.tsx:232-234 | Showcases become the delete by id. |
| DataContext.NothingSavedBeforeLoad | lib/data-context.tsx:104-105 | Before loading has finished, the save effect writes nothing. |
| DataContext.MountOutcomes | lib/data-context.tsx:63-101 | With no stored entry or unparseable text, the collections stay as they were (the seed, at mount). A reload of what was saved gives back what was saved, with task due dates as text. |
| Numbering.SequenceText | lib/data-context.tsx:170 | `String(n).padStart(3, '0')` has at least three characters, all digits, and reads back as n. |
| Numbering.NumberParts | lib/data-context.tsx:170 | A document number is its `code-year` prefix, a dash and the sequence part. |
| Numbering.NumberInjective | lib/data-context.tsx:170 | Within one code and year, equal numbers have equal sequence numbers. |
| Numbering.OwnPrefixFound | app/api/proposals/route.ts:62 | A number contains the `code-year` text the route searches for. |
| Numbering.PrefixFoundOnlyInOwn | app/api/proposals/route.ts:62 | For four-digit years and a code whose first character occurs nowhere else in the other code, the search for `code-year` finds another number exactly when that number has the same code and year. |
| Numbering.CodeOpensNumber | lib/data-context.tsx:195 | The characters of the code open the number. |
| Numbering.CodesSeparateNumbers | lib/data-context.tsx:195 | Codes that differ at some position give different numbers, whatever the years and sequence numbers. |
| Persistence.DateToText | lib/data-context.tsx:106-112 | The text a saved date becomes reads back as that date. |
| Persistence.DateRoundTrip | lib/data-context.tsx:70-72 | `new Date` of a saved date gives the date back. |
| Persistence.Save | lib/data-context.tsx:106-112 | The saved document has all five keys, each with one entry per record. |
| Persistence.Load | lib/data-context.tsx:63-65 | Without a parseable stored document, the collections stay as they were. |
| Persistence.LoadDocument | lib/data-context.tsx:66-98 | The body of the load effect's `try`, no contract of its own; its meaning is stated by `Persistence.MissingKeyKeeps`, `Persistence.MalformedKeyStops`, `Persistence.MalformedClientsStop` and `Persistence.SaveLoad`. |
| Persistence.MissingKeyKeeps | lib/data-context.tsx:68-88 | A key absent from the document leaves that collection at its previous value. |
| Persistence.MalformedKeyStops | lib/data-context.tsx:66-98 | For each of the five keys: the first key whose revival throws stops the load, so the keys before it are loaded (their revived records when present) and it and every later key keep their collections. With no malformed key all five are loaded. |
| Persistence.MalformedClientsStop | lib/data-context.tsx:66-98 | A malformed clients key stops the load: the projects are loaded when present, and clients and every later collection keep their values. |
| Persistence.ProjectRoundTrip | lib/data-context.tsx:68-73 | A saved project revives to itself, except its task due dates as text. |
| Persistence.OptionRoundTrip | lib/data-context.tsx:85-92 | An optional date revives to itself, and an absent one stays absent. |
| Persistence.SaveLoad | lib/data-context.tsx:63-112 | Save then load restores every collection, for any previous collections, with task due dates as text. |
| Persistence.SaveLoadExact | lib/data-context.tsx:63-112 | Collections with no date-valued task due date come back exactly. |
| Persistence.SaveAfterReload | lib/data-context.tsx:104-112 | Saving the reloaded collections writes the same document again. |
| Persistence.DueDateNotRevived | lib/data-context.tsx:68-73 | A date-valued due date comes back as its text, which differs from the date. |
| Kanban.ColumnIndex | components/admin/kanban/kanban-board.tsx:21-27 | Every project status has a column, at the position the status is declared. |
| Kanban.ColumnsDistinct | components/admin/kanban/kanban-board.tsx:21-27 | No two columns share a status. |
| Kanban.ColumnTitlesAreStatusLabels | components/admin/kanban/kanban-board.tsx:21-27 | Each column's title is the label getStatusLabel gives its status. |
| Kanban.ColumnForStatus | components/admin/kanban/kanban-board.tsx:72 | A status's spelling finds that status's column. |
| Kanban.ColumnForOnlyStatus | components/admin/kanban/kanban-board.tsx:72 | An over-id finds a column exactly when it spells a status. |
| Kanban.ByStatus | components/admin/kanban/kanban-board.tsx:48-50 | A column holds exactly the projects of its status, each as often as it occurs in the list, in list order. |
| Kanban.ColumnsPartition | components/admin/kanban/kanban-board.tsx:123-131 | The five columns' sizes add up to the number of projects, so each project is in exactly one column. |
| Kanban.Board.constructor | components/admin/kanban/kanban-board.tsx:34-35 | The board starts from the given projects with no active card. |
| Kanban.Board.DragStart | components/admin/kanban/kanban-board.tsx:52-58 | The active card becomes the first project with the id. An unknown id keeps the previous one. |
| Kanban.Board.DragOver | components/admin/kanban/kanban-board.tsx:60-91 | The projects become the drag-over result. |
| Kanban.Board.DragEnd | components/admin/kanban/kanban-board.tsx:93-112 | The active card is cleared whatever the drop, and the projects become the drag-end result. |
| Kanban.DragOverResult | components/admin/kanban/kanban-board.tsx:60-91 | `handleDragOver`, no contract of its own; its meaning is stated by `Kanban.DragOverIgnored`, `Kanban.DragOverOnlyStatus`, `Kanban.DragOverColumn` and `Kanban.DragOverCard`. |
| Kanban.DragOverIgnored | components/admin/kanban/kanban-board.tsx:62-69 | With no target, or an active id not on the board, drag-over changes nothing. |
| Kanban.DragOverOnlyStatus | components/admin/kanban/kanban-board.tsx:72-90 | Drag-over keeps the length, the order and every field except the status. Only projects with the active id can change. |
| Kanban.FindFirst | components/admin/kanban/kanban-board.tsx:68 | At the first index holding an id, `find` and `findIndex` return that project and that index. The same applies at line 108. |
| Kanban.DragOverColumn | components/admin/kanban/kanban-board.tsx:72-80 | Over the column of another status, exactly the projects with the active id take that status. All others are unchanged, in order. |
| Kanban.CardIsNoColumn | components/admin/kanban/kanban-board.tsx:72 | An id that spells no status finds no column. |
| Kanban.DragOverCard | components/admin/kanban/kanban-board.tsx:83-90 | Over a card of another status whose id names no column, exactly the projects with the active id take the card's status. All others are unchanged. |
| Kanban.DragEndResult | components/admin/kanban/kanban-board.tsx:93-112 | `handleDragEnd`, no contract of its own; its meaning is stated by `Kanban.DragEndReorders` and `Kanban.DragEndOtherwiseUnchanged`. |
| Kanban.DragEndReorders | components/admin/kanban/kanban-board.tsx:104-111 | A drop on another card of the same status is `arrayMove` from the active index to the card's index. It puts the dragged project at that index, is a permutation, and keeps the others in order. |
| Kanban.DragEndOtherwiseUnchanged | components/admin/kanban/kanban-board.tsx:97-111 | If drag-end changes the list, there was a target with another id, both ids are on the board and both projects have the same status. |
| Lists.FindIndex | components/admin/kanban/kanban-board.tsx:108-109 | `findIndex` gives the first matching index, or -1 exactly when nothing matches. |
| Lists.ArrayMove | components/admin/kanban/kanban-board.tsx:110 | `arrayMove` keeps the length and the multiset of elements. It puts the moved element at the target index, and taking it out there leaves the rest as before. |
| Lists.Find | lib/data-context.tsx:137 | `find` returns a value exactly when some element matches, and then the element at the first matching index. |
| Lists.FilterMember | app/api/proposals/route.ts:37 | An element survives `filter` exactly when it was present and matches. |
| Lists.MapWhere | lib/data-context.tsx:129 | `map` with a conditional replacement keeps the length, and each position holds either the replacement or the old element, as the condition says. |
| Lists.SortByKey | components/admin/calendar/calendar-sidebar.tsx:38 | Sorting by a numeric key yields an ascending order that is a permutation of the input. |
| Lists.SortByKeyStable | components/admin/calendar/calendar-sidebar.tsx:38 | The sort is stable: the elements with any one key appear in the order they had. |
| Lists.InsertByKeyStable | components/admin/calendar/calendar-sidebar.tsx:38 | Inserting into a sorted list keeps the order within each key, with the new element ahead of those with its key. |
| Lists.FilterMultiplicity | lib/data-context.tsx:134 | `filter` keeps a matching element as often as it occurs, and a failing one never. |
| ShowcaseEditor.UpdateItems | components/admin/project-showcase.tsx:96-98 | Items with the id are merged with the patch. The other items and the order are unchanged. |
| ShowcaseEditor.DeleteItems | components/admin/project-showcase.tsx:100-102 | Every item with the id is removed, and every other item is kept as often as it occurred, in its order. This holds even for two identical blank items added in one millisecond. |
| ShowcaseEditor.QuantityInput | components/admin/project-showcase.tsx:258 | `parseInt(v) \|\| 1`: a parsed non-zero value is kept, and NaN or 0 gives 1. The result is never 0. |
| ShowcaseEditor.AmountInput | components/admin/project-showcase.tsx:271 | `parseFloat(v) \|\| 0`: a parsed value is kept and NaN gives 0. The same applies at line 356. |
| ShowcaseEditor.Editor.constructor | components/admin/project-showcase.tsx:66-78 | The form starts from the showcase's fields with the `\|\|` fallbacks for empty ones. It is in edit mode exactly when there is no showcase. |
| ShowcaseEditor.Editor.CurrentView | components/admin/project-showcase.tsx:432-446 | The create prompt shows exactly without a showcase outside edit mode, and the form exactly in edit mode. Otherwise the details offer Edit and Send exactly for a draft. The same applies at lines 134 and 156. |
| ShowcaseEditor.Editor.AddItem | components/admin/project-showcase.tsx:83-94 | One new blank item is appended (quantity 1, price 0, feature) and becomes the item being edited. |
| ShowcaseEditor.Editor.UpdateItem | components/admin/project-showcase.tsx:96-98 | The items become the merge by id. |
| ShowcaseEditor.Editor.DeleteItem | components/admin/project-showcase.tsx:100-102 | The items become the delete by id. |
| ShowcaseEditor.Editor.StartEditing | components/admin/project-showcase.tsx:437 | The create and edit buttons enter edit mode and change nothing else. The same applies at line 148. |
| ShowcaseEditor.Editor.Cancel | components/admin/project-showcase.tsx:388 | Cancelling leaves edit mode and keeps the form as it is. |
| ShowcaseEditor.Editor.SetQuantity | components/admin/project-showcase.tsx:257-259 | The item's quantity becomes the input with its fallback to 1. |
| ShowcaseEditor.Editor.SetUnitPrice | components/admin/project-showcase.tsx:270-272 | The item's price becomes the input with its fallback to 0. |
| ShowcaseEditor.Editor.SetDiscount | components/admin/project-showcase.tsx:356 | The discount becomes the input with its fallback to 0. |
| ShowcaseEditor.Editor.SaveShowcase | components/admin/project-showcase.tsx:104-121 | The showcase becomes the saved record, built from three clock readings: the fresh id, the fallback `createdAt` and `updatedAt`. Edit mode ends. |
| ShowcaseEditor.Editor.SendShowcase | components/admin/project-showcase.tsx:123-132 | Without a showcase nothing changes. Otherwise it is marked sent with its send and update times. |
| ShowcaseEditor.ItemsTotal | components/admin/project-showcase.tsx:80 | The `reduce` of quantity × unit price, no contract of its own; its meaning is stated by `ShowcaseEditor.SavedTotals`, `ShowcaseEditor.AddItemKeepsTotal`, `ShowcaseEditor.UpdateItemKeepsTotal` and `ShowcaseEditor.DeleteItemTotal`. |
| ShowcaseEditor.NewItem | components/admin/project-showcase.tsx:84-91 | The blank item of `addItem`, no contract of its own; its meaning is stated by `ShowcaseEditor.AddItemKeepsTotal` and `ShowcaseEditor.Editor.AddItem`. |
| ShowcaseEditor.AddItemKeepsTotal | components/admin/project-showcase.tsx:80-94 | Adding the blank item keeps the total. |
| ShowcaseEditor.UpdateItemKeepsTotal | components/admin/project-showcase.tsx:80-98 | An edit that touches neither quantity nor price keeps the total. |
| ShowcaseEditor.DeleteItemTotal | components/admin/project-showcase.tsx:80-102 | A delete takes exactly the deleted items' worth off the total. |
| ShowcaseEditor.Saved | components/admin/project-showcase.tsx:105-118 | The record `saveShowcase` builds, no contract of its own; its meaning is stated by `ShowcaseEditor.SavedTotals` and `ShowcaseEditor.SaveIdentity`. |
| ShowcaseEditor.SavedTotals | components/admin/project-showcase.tsx:80-113 | A saved showcase's total is the sum of quantity × unit price over its items, and its final amount is the total minus the discount. |
| ShowcaseEditor.SaveIdentity | components/admin/project-showcase.tsx:104-121 | Saving keeps the id, status and creation time of a showcase with an id. A first save is a draft with a fresh id, created at its own clock reading, which equals the update time exactly when the two readings coincide. Either way it is updated at the last reading and has no send, view or response time. |
| ShowcaseEditor.SentFrom | components/admin/project-showcase.tsx:125-130 | The update `sendShowcase` applies, no contract of its own; its meaning is stated by `ShowcaseEditor.SendChangesOnlyStatusAndTimes`. |
| ShowcaseEditor.SendChangesOnlyStatusAndTimes | components/admin/project-showcase.tsx:123-132 | Sending changes only status, `sentAt` and `updatedAt`, and a sent showcase is no longer a draft. The same applies at line 432. |
| RouteStore.RedisKey.constructor | app/api/proposals/route.ts:6 | A key starts with the given stored value. |
| RouteStore.InitializeResult | app/api/proposals/route.ts:8-23 | With Redis down the seed is returned and the key untouched. An absent or empty list is replaced by the seed, which is returned. A non-empty stored list is returned as it is. |
| RouteStore.Initialize | app/api/contracts/route.ts:8-23 | Returns the list, and leaves the key holding what initialising describes. |
| RouteStore.InitializeStable | app/api/projects/route.ts:9-25 | Once Redis holds a non-empty list, initialising returns it and changes nothing. |
| RouteStore.FilterIf | app/api/proposals/route.ts:36-42 | A given parameter keeps every matching record as often as it occurred, and no other, in order. An absent or empty one keeps everything. |
| RouteStore.CountAppend | app/api/proposals/route.ts:62-82 | Appending a record whose number has the prefix raises the count by one, and appending one without it does not. |
| RouteStore.NextNumber | app/api/proposals/route.ts:62-63 | The number a POST hands out, no contract of its own; its meaning is stated by `RouteStore.FirstOfYear`, `RouteStore.NextAfterPost` and `ProposalsRoute.AgreesWithStoreWhenDense`. |
| RouteStore.FirstOfYear | app/api/proposals/route.ts:62-63 | When no stored number carries the year's prefix, the next number is `-001`. |
| RouteStore.NextAfterPost | app/api/proposals/route.ts:62-82 | After a number is handed out and stored, the next one has sequence one higher. |
| RouteStore.Posted | app/api/proposals/route.ts:79-84 | With Redis available the key holds the list plus the new record. Otherwise it is left as before. |
| ProposalsRoute.FilterProposals | app/api/proposals/route.ts:34-42 | The status and client filters are conjunctive, and each applies only when given. Every record meeting both is kept as often as it occurred, in order. |
| ProposalsRoute.FromBody | app/api/proposals/route.ts:65-77 | The new proposal has the computed number and a clock id. Amount, status and items default to 0, `draft` and `[]`. |
| ProposalsRoute.Get | app/api/proposals/route.ts:26-44 | Returns the filtered initialised list, and the key is left as initialising leaves it. |
| ProposalsRoute.Post | app/api/proposals/route.ts:55-86 | The new proposal is numbered by the prefix count of the initialised list and always returned. It is stored only when the second availability check succeeds. |
| ProposalsRoute.AgreesWithStoreWhenDense | app/api/proposals/route.ts:62-63 | On a list numbered densely in one year, the route gives the same next number as the client store. |
| ProposalsRoute.SeedNextNumber | app/api/proposals/route.ts:62-63 | Over the seed, the route numbers `TEK-2024-006` in 2024 and `-001` in any other four-digit year. |
| ContractsRoute.FilterContracts | app/api/contracts/route.ts:35-47 | The status, client and project filters are conjunctive, and each applies only when given. Every record meeting all three is kept as often as it occurred, in order. |
| ContractsRoute.FromBody | app/api/contracts/route.ts:70-80 | A new contract has the computed number, is a draft unless the body says otherwise, and never has `signedAt`. |
| ContractsRoute.Get | app/api/contracts/route.ts:26-49 | Returns the filtered initialised list. |
| ContractsRoute.Post | app/api/contracts/route.ts:60-89 | The new contract is numbered by the `SOZ-year` count, stored only when Redis is available, and always returned. |
| ContractsRoute.SeedNeverCounted | app/api/contracts/route.ts:67 | The seeded `SÖZ-` numbers never count, so over the seed the first route contract of any four-digit year is `SOZ-year-001`. |
| ProjectsRoute.FilterProjects | app/api/projects/route.ts:37-45 | The status and client filters are conjunctive. Every project meeting both is kept as often as it occurred, in order. |
| ProjectsRoute.FromBody | app/api/projects/route.ts:62-75 | Description, status, budget, progress and tasks default to `''`, `planning`, 0, 0 and `[]`. |
| ProjectsRoute.Get | app/api/projects/route.ts:28-47 | Returns the filtered initialised list. |
| ProjectsRoute.Post | app/api/projects/route.ts:58-85 | The new project is always returned. It is appended to the initialised list only when Redis is available. |
| ClientsRoute.FilterClients | app/api/clients/route.ts:33-37 | Only status filters. Every client with the status is kept as often as it occurred, in order. Without the parameter, every client is returned in order. |
| ClientsRoute.FromBody | app/api/clients/route.ts:54-65 | A new client has no projects and no revenue. Phone, company and status default to `''`, `''` and `active`. |
| ClientsRoute.Get | app/api/clients/route.ts:26-39 | Returns the filtered initialised list. |
| ClientsRoute.Post | app/api/clients/route.ts:50-75 | The new client is always returned. It is appended only when Redis is available. |
| MockData.ClientById | lib/mock-data.ts:429-431 | Found exactly when some client has the id. What is found has it. |
| MockData.ProjectById | lib/mock-data.ts:433-435 | Found exactly when some project has the id. |
| MockData.ProposalById | lib/mock-data.ts:437-439 | Found exactly when some proposal has the id. |
| MockData.ContractById | lib/mock-data.ts:441-443 | Found exactly when some contract has the id. |
| MockData.ShowcaseByProjectId | lib/mock-data.ts:584-586 | Found exactly when some showcase is for the project. |
| MockData.ShowcaseById | lib/mock-data.ts:588-590 | Found exactly when some showcase has the id. |
| MockData.ProjectsByClientId | lib/mock-data.ts:445-447 | Exactly the client's projects, each as often as it occurs, in seed order. |
| MockData.ProposalsByClientId | lib/mock-data.ts:449-451 | Exactly the client's proposals, each as often as it occurs, in seed order. |
| MockData.ContractsByClientId | lib/mock-data.ts:453-455 | Exactly the client's contracts, each as often as it occurs, in seed order. |
| MockData.NotesByClientId | lib/mock-data.ts:510-514 | Only and all of the client's notes, as a permutation of the filter, sorted newest first. Notes with the same date keep their list order. |
| MockData.StatsOf | lib/mock-data.ts:404-415 | The project total is the list length and equals the sum of the five status counts. There are no more active clients than clients and no more pending proposals than proposals. |
| MockData.StatusCountsSum | lib/mock-data.ts:405-415 | The five status counts add up to the number of projects. |
| MockData.SeedStatusCounts | lib/mock-data.ts:409-415 | Over the seed, the status counts are 1 planning, 2 in progress, 1 review, 1 completed and 1 on hold. |
| MockData.SeedClientFigures | lib/mock-data.ts:406-408 | Over the seed, 4 clients are active and the revenue adds up to 865000. |
| MockData.SeedPending | lib/mock-data.ts:407 | Over the seed, 2 proposals are sent or draft. |
| MockData.SeedStats | lib/mock-data.ts:404-415 | The seed's figures: 6 projects, 4 active clients, 2 pending proposals, revenue 865000, status counts 1/2/1/1/1. |
| MockData.SeedProposalTotals | lib/mock-data.ts:192-280 | Every seeded proposal line totals quantity × unit price, and each proposal's amount is the sum of its lines. |
| MockData.SeedShowcaseTotals | lib/mock-data.ts:517-582 | Each seeded showcase stores the sum of its lines as its total, and its final amount is the total minus the discount. |
| MockData.SeedClientsIds | lib/mock-data.ts:15-76 | No two seeded clients share an id. |
| MockData.SeedProjectsIds | lib/mock-data.ts:79-189 | No two seeded projects share an id. |
| MockData.SeedProposalsIds | lib/mock-data.ts:192-280 | No two seeded proposals share an id. |
| MockData.SeedContractsIds | lib/mock-data.ts:283-342 | No two seeded contracts share an id. |
| MockData.SeedClientNotesIds | lib/mock-data.ts:458-508 | No two seeded notes share an id. |
| MockData.SeedShowcasesIds | lib/mock-data.ts:517-582 | No two seeded showcases share an id. |
| MockData.SeedProposalNumbers | lib/mock-data.ts:195-264 | The seeded proposals are numbered `TEK-2024-001` to `-005`, in order. |
| MockData.SeedContractNumbers | lib/mock-data.ts:286-333 | The seeded contracts are numbered `SÖZ-2024-001` to `-005`, in order. |
| Utils.RoundedPercent | lib/utils.ts:104 | `Math.round` of the percentage, no contract of its own; its meaning is stated by `Utils.RoundedPercentMeaning`. |
| Utils.RoundedPercentMeaning | lib/utils.ts:104 | `Math.round(100·c/n)` is the integer nearest to 100·c/n, with halves rounded up. It lies in [0, 100], is 100 when c = n and 0 when c = 0, and never drops as c grows. |
| Utils.Progress | lib/utils.ts:101-105 | `calculateProgress`, no contract of its own; its meaning is stated by `Utils.ProgressMeaning`. |
| Utils.ProgressMeaning | lib/utils.ts:101-105 | Progress is 0 for a missing or empty list, otherwise the rounded share of completed tasks. It lies in [0, 100], is 100 when all tasks are done and 0 when none is. |
| Utils.RelativeBucket | lib/utils.ts:38-48 | The floor divisions and bucket choice of `formatRelativeTime`, no contract of its own; its meaning is stated by `Utils.RelativeBuckets`. |
| Utils.RelativeText | lib/utils.ts:44-48 | The Turkish phrase `formatRelativeTime` shows for each bucket; no contract of its own, and the bucket it renders is the one `Utils.RelativeBuckets` states. |
| Utils.RelativeBuckets | lib/utils.ts:38-48 | The difference is "just now" exactly under a minute, future times included. Then come whole minutes under an hour, whole hours under a day and whole days under a week, each the floor of the difference. A week or more shows the date. |
| Utils.StatusColor | lib/utils.ts:55-76 | A listed status gets its colour and any other gets `bg-gray-100 text-gray-800`. |
| Utils.StatusLabel | lib/utils.ts:78-99 | A listed status gets its label and any other is returned unchanged. |
| Utils.EveryStatusListed | lib/utils.ts:55-99 | Every status of every entity has its own label and colour entry. |
| Utils.ProjectStatusLabels | lib/utils.ts:81-85 | The Turkish labels of the five project statuses. |
| CalendarSidebar.DueWithinWeek | components/admin/calendar/calendar-sidebar.tsx:34-37 | The upcoming-deadline filter, no contract of its own; its meaning is stated by `CalendarSidebar.Upcoming`. |
| CalendarSidebar.Upcoming | components/admin/calendar/calendar-sidebar.tsx:30-38 | A project is listed exactly when `now <= end <= now + 7 days` and it is not completed. The list is sorted by end date and is a permutation of the filter. |
| CalendarSidebar.UpcomingTiesKeepOrder | components/admin/calendar/calendar-sidebar.tsx:30-38 | Deadlines on the same end date appear in the order of the project list. |
| CalendarSidebar.DaysLeft | components/admin/calendar/calendar-sidebar.tsx:79-81 | The `Math.ceil` of the days left, no contract of its own; its meaning is stated by `CalendarSidebar.DaysLeftMeaning`. |
| CalendarSidebar.DaysLeftMeaning | components/admin/calendar/calendar-sidebar.tsx:79-93 | The days left are the ceiling of the remaining time in days. For a deadline this week they lie in [0, 7], are 0 only at this very millisecond, and the red badge shows exactly when at most two days remain. |
| CalendarSidebar.DeadlineLabel | components/admin/calendar/calendar-sidebar.tsx:96 | The badge text, no contract of its own; its meaning is stated by `CalendarSidebar.DeadlineLabelCases`. |
| CalendarSidebar.DeadlineLabelCases | components/admin/calendar/calendar-sidebar.tsx:96 | The label is `Bugün` exactly for 0 and `Yarın` exactly for 1. Any other count is spelled out before ` gün`. |
| CalendarSidebar.Tally | components/admin/calendar/calendar-sidebar.tsx:41-44 | The `reduce` into a status-count record, no contract of its own; its meaning is stated by `CalendarSidebar.TallyCounts`. |
| CalendarSidebar.LegendCount | components/admin/calendar/calendar-sidebar.tsx:59 | `projectsByStatus[status] || 0`, no contract of its own; its meaning is stated by `CalendarSidebar.TallyCounts` and `CalendarSidebar.LegendSumsToAll`. |
| CalendarSidebar.TallyCounts | components/admin/calendar/calendar-sidebar.tsx:41-59 | The legend count of a status is the number of projects with it, and 0 for a status no project has. |
| CalendarSidebar.LegendSumsToAll | components/admin/calendar/calendar-sidebar.tsx:20-44 | The five legend counts add up to the number of projects. |
| ProjectCalendar.StatusColor | components/admin/calendar/project-calendar.tsx:22-44 | A listed status gets its colour and any other gets `#6b7280`. |
| ProjectCalendar.BuildEvents | components/admin/calendar/project-calendar.tsx:34-76 | The nested loop with its pushes builds the event list: each project's range event followed by its dated tasks' events, in project order. |
| ProjectCalendar.TaskEvents | components/admin/calendar/project-calendar.tsx:55-71 | The task events of one project, no contract of its own; its meaning is stated by `ProjectCalendar.TaskEventsCount` and `ProjectCalendar.TaskEventsMembers`. |
| ProjectCalendar.EventsOf | components/admin/calendar/project-calendar.tsx:35-75 | The `flatMap` over the projects, no contract of its own; its meaning is stated by `ProjectCalendar.EventCount`, `ProjectCalendar.EventsMembers` and `ProjectCalendar.BuildEvents`. |
| ProjectCalendar.TaskEventsCount | components/admin/calendar/project-calendar.tsx:55-71 | A project's tasks add one event per dated task, and none of them is a project event. |
| ProjectCalendar.EventCount | components/admin/calendar/project-calendar.tsx:35-75 | The events number the projects plus the dated tasks, and exactly one per project is a project event. |
| ProjectCalendar.EventsOfAppend | components/admin/calendar/project-calendar.tsx:35 | The events of two lists of projects are the events of each, in order. |
| ProjectCalendar.TaskEventsMembers | components/admin/calendar/project-calendar.tsx:57-69 | The task events are exactly the events of the dated tasks, with id `{projectId}-task-{taskId}` and the project to open. Each is green exactly when its task is complete and red otherwise. |
| ProjectCalendar.EventsMembers | components/admin/calendar/project-calendar.tsx:35-75 | An event is listed exactly when it is one of some project's events. |
| ProjectCalendar.ClickTarget | components/admin/calendar/project-calendar.tsx:79-88 | `handleEventClick`, no contract of its own; its meaning is stated by `ProjectCalendar.ClickOpensProject` and `ProjectCalendar.ClickLeadsToListedProject`. |
| ProjectCalendar.ClickOpensProject | components/admin/calendar/project-calendar.tsx:79-88 | Clicking any event of a project with a non-empty id reports that project's id. |
| ProjectCalendar.ClickLeadsToListedProject | components/admin/calendar/project-calendar.tsx:79-88 | When every project has a non-empty id, every click reports the id of a listed project. |
| DataTable.MatchesQuery | components/admin/data-table.tsx:51-57 | The per-row search predicate, no contract of its own; its meaning is stated by `DataTable.Filtered`. |
| DataTable.Filtered | components/admin/data-table.tsx:50-58 | Without a search key the data is unchanged. With one, a row is kept exactly when its field is not a string or its lowercased text contains the lowercased query, and order is kept. Each kept row appears as often as it did in the data. |
| DataTable.EmptyQueryKeepsAll | components/admin/data-table.tsx:51-57 | An empty query keeps every row. |
| DataTable.TotalPages | components/admin/data-table.tsx:61 | `Math.ceil(n / pageSize)`, no contract of its own; its meaning is stated by `DataTable.TotalPagesMeaning`. |
| DataTable.TotalPagesMeaning | components/admin/data-table.tsx:61 | The page count is the smallest that holds every row, and 0 exactly for no rows. |
| DataTable.Visible | components/admin/data-table.tsx:62-65 | `paginatedData`, no contract of its own; its meaning is stated by `DataTable.PageContents`. |
| DataTable.PageContents | components/admin/data-table.tsx:62-64 | A page shows at most `pageSize` rows. A page in range shows exactly the rows from `start + 1` to `min(start + pageSize, n)`, and a page past the last shows none. The same applies at lines 134-135. |
| DataTable.Table.constructor | components/admin/data-table.tsx:46-47 | The table starts with an empty search on page 1. |
| DataTable.Table.SetSearch | components/admin/data-table.tsx:77-79 | Typing sets the search and goes back to page 1. |
| DataTable.Table.Prev | components/admin/data-table.tsx:140 | The page goes down by one but never below 1. |
| DataTable.Table.Next | components/admin/data-table.tsx:131-150 | With the controls shown, the page goes up by one but never above the page count. |
| Avatar.Initials | components/ui/avatar.tsx:20-25 | `getInitials`, no contract of its own; its meaning is stated by `Avatar.InitialsCases`. |
| Avatar.InitialsCases | components/ui/avatar.tsx:20-25 | No name or an empty name gives `?`. A single word gives its first letter upper-cased. Several words give the upper-cased first letters of the first and last words, where a leading space leaves the first of these empty. Never more than two characters. |
| Avatar.SplitFirst | components/ui/avatar.tsx:22 | The first word is empty exactly when the name starts with a space, and otherwise starts with the name's first character. |
| Avatar.Render | components/ui/avatar.tsx:37-41 | The picture-or-initials branch of the render, no contract of its own; its meaning is stated by `Avatar.RenderShowsInitialsOnlyWithoutSource`. |
| Avatar.RenderShowsInitialsOnlyWithoutSource | components/ui/avatar.tsx:37-41 | Initials are shown exactly when no source is given, and a picture always has a non-empty description. |
| Text.Split | components/ui/avatar.tsx:22 | `split(' ')` gives at least one part, none holding the separator. |
| Text.JoinSplit | components/ui/avatar.tsx:22 | Joining the parts with the separator gives back the string. |
| Text.SplitSingle | components/ui/avatar.tsx:23 | One part exactly when the string holds no separator, and then the part is the string. |
| Text.PadStart | lib/data-context.tsx:170 | `padStart` pads up to the width with the pad character, never truncates, and ends with the original text. |
| Text.ParsePadded | lib/data-context.tsx:170 | A zero-padded number reads back as the number. |
| Text.IntTextInjective | lib/data-context.tsx:170 | Different integers have different decimal texts. |
| Sidebar.IsActive | components/admin/sidebar.tsx:97 | The active-link test, no contract of its own; its meaning is stated by `Sidebar.Navigation`, `Sidebar.BelowButNotBeside` and `Sidebar.AtMostOneActive`. |
| Sidebar.Navigation | components/admin/sidebar.tsx:96-97 | The seven items render in declaration order, each active exactly when the path is its page or lies below it. |
| Sidebar.BelowButNotBeside | components/admin/sidebar.tsx:97 | `/projects/123` and `/projects` activate `/projects`, but `/projectsX` does not. |
| Sidebar.ActiveIsFirstSegment | components/admin/sidebar.tsx:97 | An active one-segment link is the path's first segment. |
| Sidebar.ActiveSegmentUnique | components/admin/sidebar.tsx:97 | Two one-segment links active on one path are the same link. |
| Sidebar.MenuItemsShape | components/admin/sidebar.tsx:21-57 | Every menu href is one segment, and no two are equal. |
| Sidebar.AtMostOneActive | components/admin/sidebar.tsx:21-97 | At most one menu item is active, whatever the path. |

## Left out

- `lib/redis.ts` and the connection to Redis. A route's Redis is one key holding an optional list, plus availability answers passed in as parameters. A failed write (`setInRedis`) is not modelled. A failed read, or stored text that does not parse, makes `getFromRedis` return null (lib/redis.ts:27-35). Initialising then overwrites the key with the seed. The model's stored value is the list itself, so it does not represent a failed read.
- The HTTP plumbing of the routes: requests, URL parsing, JSON bodies, status codes, and the error path of `try`/`catch`.
- Browser storage, `JSON.parse` and `JSON.stringify`. The stored entry is a datatype (none, unparseable, or a document with five keys). A date is saved as the decimal text of its millisecond value.
- `Invalid Date` and date text of other forms. Parsing such text is left unspecified; only text the writer produced is read back.
- Utils.RoundedPercentMeaning: states the rounding of the exact rational 100·c/n. lib/utils.ts:104 computes `(c / n) * 100` in IEEE doubles, which can land just below a half. For 23 of 40 tasks the double is 57.49999999999999, so the app shows 57 where the model gives 58. Floating point is not modelled.
- Utils.ProgressMeaning: rests on the same exact-rational rounding, so progress can differ by one from the app's double computation at such values.
- Floating point. Amounts, prices and quantities are integers. `parseInt` and `parseFloat` of an input are parameters: a number, or none for `NaN`.
- `generateId`, `Math.random` and the `Date.now()` ids: the clock reading is a parameter.
- React rendering, effect scheduling, state batching and stale closures. Each handler runs to completion in order. The store's numbering reads the list held at the call.
- `activities`, `currentUser` and `monthlyRevenue` of the seed: no core logic reads them.
- Unicode case mapping. `toLowerCase` and `toUpperCase` are modelled for ASCII letters only, so an initial outside ASCII is not upper-cased. UTF-16 code units are not modelled either: a string is a sequence of characters, so for a name starting with a character outside the Basic Multilingual Plane `Avatar.CharAt0` returns the whole character where `charAt(0)` returns half of its surrogate pair.
- `Intl` formatting (`formatDate`, `formatCurrency`): the `Absolute` relative-time bucket carries the date and leaves its text uninterpreted.
- Keys of the JavaScript object prototype (such as `constructor`) looked up in the label and colour tables. The model treats them as absent.
- The aliasing of the seed arrays by the routes' in-place `push`. When Redis is available, a stored list is an independent value.
- The project colour fallback of `project-calendar.tsx` for unknown statuses. Statuses are an enumeration, so the fallback is proved for the colour function but cannot be reached from a project.
- Utils.RelativeBuckets: `formatRelativeTime` reads the clock itself. The model passes `now` in and states the bucket, not the rendered Turkish text, which `Utils.RelativeText` builds.
- DataTable.Table: a `pageSize` of 0 makes the page count divide by zero in the source; the model requires a page size of at least 1.
- The current page is not clamped when the filtered data shrinks. The model keeps it as set, as the source does; `DataTable.PageContents` states what such a page shows.
- The "Bu Ay" figures and the month picker of the calendar page: presentation around the legend counts and deadlines.
- Authentication, charts, the dnd-kit sensors and collision detection, FullCalendar itself, and the presentational components.
