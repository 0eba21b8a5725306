# Restaurant seating manager, modelled in Dafny

The `RestManager` service seats arriving groups of guests at a fixed list of
shared tables. A group that arrives is seated at the first empty table large
enough for it. Failing that, it goes to the first occupied table that still
has room. Failing that, it waits in a queue ordered by group size. When a
seated group leaves, its seats are freed and the queue is swept: the smallest
waiting group is taken off and seated where it fits. A dequeued group that
fits nowhere is dropped. The sweep goes on until the queue is empty, or until
a group has been seated and the next one is larger than what is left of the
leaving group's seat count. `Lookup` tells which table a seated group is at.

The model has two layers.

- **Values.** Module `Admission` writes every operation as a function from one
  `ServiceState` (tables, queue, id-to-table map) to a `Step` (an `Outcome`
  and the next state). An exception is an `Outcome` of its own, together with
  the state at the moment it was thrown: the source does not roll anything back.
  Module `AdmissionProofs` proves what the operations keep and guarantee.
- **Objects.** `TableModel.Table` and `Service.RestManagerService` are classes
  with the source's fields. Each method is proved to change its object
  exactly as the matching function of `Admission` says. The loop of `OnLeave`
  keeps, as an invariant, that finishing the loop gives the result of
  `Admission.Sweep`.

Module `Scenarios` evaluates the model on the configurations and groups of the
repository's own test suite, plus two sequences that show the queue's edge cases.

Files: `basics.dfy` (Option, RemoveAt), `groups.dfy` (client groups),
`table.dfy` (tables), `queue.dfy` (the waiting queue), `configuration.dfy`
(table configuration), `admission.dfy` (the service as functions),
`admission_proofs.dfy` (its properties), `service.dfy` (the service object),
`scenarios.dfy` (the test scenarios).

Modelling choices:

- A table in the map is identified by its position in the table list. The
  source stores a reference to the table. The two agree because the list
  never changes and its objects are distinct (`RestManagerService.Distinct`).
- The priority queue is a sequence in arrival order. Its head is the first
  entry of least size.
- The second admission scan, "occupied and has room", is proved to pick the
  same table as "any table with room" whenever the first scan found nothing
  (`SharedScanIsAnyRoomScan`). So describing the second step as "any table
  with room" agrees with the code's `!IsFullyAvailable` filter. The model keeps
  the code's filter.
- The test scenarios use the corrected arrival check (`ArriveChecked`). Each
  successful arrival step also proves that the check as written (`Arrive`)
  takes the same step (by `ArriveAgreesUnlessQueued`), so the scenario results
  hold for the code as written.

## Model

| member | source | states |
|---|---|---|
| Basics.RemoveAt | RestManager/Managers/RestManagerService.cs:128 | removing the element at a position shortens the list by one and keeps every other element in order |
| Basics.RemoveAtMultiset | RestManager/Managers/RestManagerService.cs:128 | the remaining elements plus the removed one are exactly the old elements |
| Groups.FindGroup | RestManager/Managers/RestManagerService.cs:78 | finds nothing exactly when no group has the id; otherwise the position of the first group with that id |
| Groups.SizeSumAppend | RestManager/Models/Table.cs:29-30 | appending a group adds its size to the seats taken |
| Groups.SizeSumNonnegative | RestManager/Models/Table.cs:30 | groups of positive size take a non-negative number of seats, and a positive number when there is at least one group |
| Groups.SizeSumRemoveAt | RestManager/Managers/RestManagerService.cs:128-129 | removing a group frees exactly its size |
| Groups.RemoveAtKeepsDistinct | RestManager/Managers/RestManagerService.cs:128 | removing a group from a list of distinct ids keeps the ids distinct, drops exactly that id, and keeps every other id |
| TableModel.TableState.ArrangeGuesses | RestManager/Models/Table.cs:23-31 | throws "Table is too small" exactly when the group is larger than the table's whole capacity, changing nothing; otherwise appends the group and adds its size to the occupied places |
| TableModel.Release | RestManager/Managers/RestManagerService.cs:128-129 | the table loses the group at that position and its size; capacity unchanged |
| TableModel.ExactlyOneOccupancyState | RestManager/Models/Table.cs:9-13 | with occupancy between 0 and a positive capacity, a table is in exactly one of fully available, partially occupied, fully occupied |
| TableModel.CanFitMoreIsRoomLeft | RestManager/Models/Table.cs:21-31 | CanFitMore holds exactly when seating the group succeeds and keeps the table within its capacity |
| TableModel.ArrangeKeepsWellFormed | RestManager/Models/Table.cs:23-31 | seating a fitting, positive group with a new id keeps occupancy equal to the seated sizes and within capacity |
| TableModel.ReleaseKeepsWellFormed | RestManager/Managers/RestManagerService.cs:126-131 | removing a seated group keeps a well-formed table well-formed |
| TableModel.ArrangeThenRelease | RestManager/Models/Table.cs:23-31 | removing the group just seated gives back the table as it was |
| TableModel.Table.constructor | RestManager/Models/Table.cs:16-19 | a new table has the given size, no occupied places and no groups |
| TableModel.Table.ArrangeGuesses | RestManager/Models/Table.cs:23-31 | the object's new state and the outcome are those of the value-level ArrangeGuesses |
| WaitQueue.MinIndex | RestManager/Managers/RestManagerService.cs:21 | the head position holds a least size, and every earlier entry is strictly larger |
| WaitQueue.Peek | RestManager/Managers/RestManagerService.cs:90 | the peeked group is queued and no queued group is smaller |
| WaitQueue.Dequeue | RestManager/Managers/RestManagerService.cs:85 | returns the peeked group and a queue one shorter whose groups are none smaller |
| WaitQueue.DequeueIsRemoval | RestManager/Managers/RestManagerService.cs:85 | what stays queued plus the dequeued group is exactly the old queue |
| WaitQueue.DequeueKeepsDistinct | RestManager/Managers/RestManagerService.cs:85 | dequeuing keeps queued ids distinct and the dequeued id is no longer queued |
| Configurations.TablesConfiguration.Tables | RestManager/Configurations/TablesConfiguration.cs:10 | one empty table per configured size, in configuration order |
| Configurations.DefaultConfiguration | RestManager/Configurations/TablesConfiguration.cs:8-14 | the parameterless configuration has no sizes and so no tables |
| Configurations.CreateTables | RestManager/Configurations/TablesConfiguration.cs:10 | allocates one fresh, distinct table object per size, whose states are the configuration's tables |
| Admission.Initial | RestManager/Managers/RestManagerService.cs:29-33 | the new service has the configured tables, an empty queue and an empty map |
| Admission.FirstFit | RestManager/Managers/RestManagerService.cs:45 | finds nothing exactly when no table passes the filter; otherwise the first table in list order that does |
| Admission.SeatGroup | RestManager/Managers/RestManagerService.cs:120-124 | succeeds exactly when the group fits the table's capacity and its id is not seated; too large: throws and changes nothing; id already seated: throws after the table has taken the group; success: the id maps to the table |
| Admission.GetRidOfTheGroup | RestManager/Managers/RestManagerService.cs:126-131 | the group leaves its table, its seats are freed and its id leaves the map; the queue is unchanged |
| Admission.TryFitGroupFromQueue | RestManager/Managers/RestManagerService.cs:133-142 | reports a seat exactly when some table has room; with no room, nothing changes; otherwise the group is seated, as by SeatGroup, at the first table in list order that has room |
| Admission.SweepRound | RestManager/Managers/RestManagerService.cs:85-97 | one loop round: the head leaves the queue, its size is charged to the budget, the round's step is TryFitGroupFromQueue on that head with the rest of the queue, and the loop stops after an exception |
| Admission.Sweep | RestManager/Managers/RestManagerService.cs:85-98 | the loop keeps every map entry pointing at a table and the number of tables; what it does is proved by SweepKeepsInv, SweepShrinksQueue, SweepSeatsOnlyQueued and, round by round, RoundSeatsHeadOrDrops |
| Admission.Admit | RestManager/Managers/RestManagerService.cs:44-61 | the admission policy keeps the map pointing at tables; its behaviour is stated by AdmitFollowsPolicy and AdmitKeepsInv |
| Admission.Arrive | RestManager/Managers/RestManagerService.cs:35-63 | an arrival whose id is seated throws "Group has already been added" and changes nothing |
| Admission.ArriveChecked | RestManager/Managers/RestManagerService.cs:39-42 | an arrival whose id is seated or queued throws "Group has already been added" and changes nothing |
| Admission.Leave | RestManager/Managers/RestManagerService.cs:65-106 | a departure whose id is not seated throws "Group not found" and changes nothing |
| Admission.Lookup | RestManager/Managers/RestManagerService.cs:110-113 | finds a table exactly for a seated id, and it is the table the map names |
| AdmissionProofs.InitialIsVacant | RestManager/Managers/RestManagerService.cs:29-33 | a service built from positive capacities satisfies the invariant and is vacant |
| AdmissionProofs.UnmappedIdIsNotSeated | RestManager/Managers/RestManagerService.cs:27 | an id that is not in the map sits at no table |
| AdmissionProofs.SeatKeepsIndex | RestManager/Managers/RestManagerService.cs:120-124 | seating an unseated group at a table large enough never throws and keeps the map naming exactly the table of each seated id |
| AdmissionProofs.SeatKeepsSeating | RestManager/Managers/RestManagerService.cs:120-124 | seating a positive, unseated group where it fits never throws and keeps tables and map consistent |
| AdmissionProofs.SeatKeepsInv | RestManager/Managers/RestManagerService.cs:120-124 | the same, for the whole invariant including the queue |
| AdmissionProofs.ReleaseKeepsInv | RestManager/Managers/RestManagerService.cs:126-131 | a group leaving its table keeps the whole invariant |
| AdmissionProofs.DequeueKeepsInv | RestManager/Managers/RestManagerService.cs:85 | dequeuing keeps the invariant and the dequeued group is neither seated nor still queued |
| AdmissionProofs.TryFitKeepsInv | RestManager/Managers/RestManagerService.cs:133-142 | seating a dequeued group never throws and keeps the invariant |
| AdmissionProofs.RoundKeepsInv | RestManager/Managers/RestManagerService.cs:85-97 | a loop round on a consistent state never throws and keeps it consistent |
| AdmissionProofs.TryFitSeatsAtFirstRoom | RestManager/Managers/RestManagerService.cs:133-138 | an unseated group whose first table with room is i is seated there: the flag is set, table i gains the group and its size, no other table changes, and the id maps to i |
| AdmissionProofs.RoundSeatsHeadOrDrops | RestManager/Managers/RestManagerService.cs:85-97 | on a consistent state a round seats the dequeued head at the first table with room and maps its id there, or, when no table has room, drops it and changes nothing else |
| AdmissionProofs.SweepKeepsInv | RestManager/Managers/RestManagerService.cs:85-98 | the loop never throws on a consistent state and keeps it consistent |
| AdmissionProofs.SweepShrinksQueue | RestManager/Managers/RestManagerService.cs:85-98 | the loop only takes groups out of the queue |
| AdmissionProofs.RoundSeatsOnlyHead | RestManager/Managers/RestManagerService.cs:85-88 | a round seats no id other than the one it dequeued |
| AdmissionProofs.SweepSeatsOnlyQueued | RestManager/Managers/RestManagerService.cs:85-98 | every id seated after the loop was seated or queued before it |
| AdmissionProofs.LeaveKeepsInv | RestManager/Managers/RestManagerService.cs:65-106 | on a consistent state a departure succeeds exactly for a seated id, throws "Group not found" otherwise without changes, and keeps the invariant |
| AdmissionProofs.LeaveQueuedThrows | RestManager/Managers/RestManagerService.cs:67-70 | a group still waiting cannot leave: "Group not found", nothing changes |
| AdmissionProofs.LookupAfterLeave | RestManager/Managers/RestManagerService.cs:108-113 | after a group has left, Lookup no longer finds it |
| AdmissionProofs.LookupFindsSeatedTable | RestManager/Managers/RestManagerService.cs:108-113 | Lookup names table i exactly when the id sits at table i |
| AdmissionProofs.LookupQueuedIsNone | RestManager/Managers/RestManagerService.cs:108-109 | Lookup finds nothing for a group that is still queuing |
| AdmissionProofs.AdmitKeepsInv | RestManager/Managers/RestManagerService.cs:44-61 | admitting a new positive group never throws and keeps the invariant |
| AdmissionProofs.ArriveCheckedKeepsInv | RestManager/Managers/RestManagerService.cs:35-63 | with the corrected check, an arrival throws exactly for a seated or queued id, then changes nothing, and always keeps the invariant |
| AdmissionProofs.ArriveKeepsSeating | RestManager/Managers/RestManagerService.cs:35-63 | with the check as written, an arrival throws exactly for a seated id and keeps tables and map consistent |
| AdmissionProofs.AdmitFollowsPolicy | RestManager/Managers/RestManagerService.cs:44-61 | the first empty table large enough wins; failing that, the first occupied table with room; failing that, the group joins the end of the queue |
| AdmissionProofs.SharedScanIsAnyRoomScan | RestManager/Managers/RestManagerService.cs:53 | when no empty table is large enough, the occupied-with-room scan picks the same table as a scan of all tables with room |
| AdmissionProofs.SeatThenRelease | RestManager/Managers/RestManagerService.cs:120-131 | seating a group and then removing it from the same table gives back the state exactly |
| AdmissionProofs.ArriveThenLeaveRestores | RestManager/Managers/RestManagerService.cs:35-106 | with nobody queued, a group that is seated on arrival and then leaves restores the state exactly |
| AdmissionProofs.ArriveTwiceThrows | RestManager/Managers/RestManagerService.cs:39-42 | with the corrected check, a second arrival with the same id throws "Group has already been added" and changes nothing, whether the first was seated or queued |
| AdmissionProofs.ArriveAgreesUnlessQueued | RestManager/Managers/RestManagerService.cs:39-42 | the check as written and the corrected check give the same step for every arrival whose id is not queued |
| Service.RestManagerService.constructor | RestManager/Managers/RestManagerService.cs:29-33 | the new service object is valid and its state is the initial state of the configuration |
| Service.RestManagerService.OnArrive | RestManager/Managers/RestManagerService.cs:35-63 | the object's outcome and new state are those of ArriveChecked, and the object stays valid |
| Service.RestManagerService.OnLeave | RestManager/Managers/RestManagerService.cs:65-106 | the object's outcome and new state are those of Leave, and the object stays valid |
| Service.RestManagerService.Lookup | RestManager/Managers/RestManagerService.cs:110-113 | null exactly when the value-level Lookup finds nothing; otherwise the table object it names |
| Service.RestManagerService.SeatGroup | RestManager/Managers/RestManagerService.cs:120-124 | the object's new state is that of the value-level SeatGroup, which succeeds |
| Service.RestManagerService.GetRidOfTheGroup | RestManager/Managers/RestManagerService.cs:126-131 | the object's new state is that of the value-level GetRidOfTheGroup |
| Service.RestManagerService.ReadmitNext | RestManager/Managers/RestManagerService.cs:85-97 | one loop round on the object: the new state, budget and go-on flag are those of SweepRound, the invariant is kept and the queue shrinks |
| Service.RestManagerService.TryFitGroupFromQueue | RestManager/Managers/RestManagerService.cs:133-142 | the object's new state and the flag are those of the value-level TryFitGroupFromQueue |
| Scenarios.LoneGroupSeatedAlone | tests/RestManager.Tests/RestManagerServiceTests.cs:55-73 | on tables 1..6 a lone group of k takes table k: one table full, none partial, nobody queued |
| Scenarios.TooLargeGroupQueues | tests/RestManager.Tests/RestManagerServiceTests.cs:76-88 | on tables 1 and 2 a group of 5 or 6 is queued and every table stays available |
| Scenarios.FourGroupsOfThree | tests/RestManager.Tests/RestManagerServiceTests.cs:113-127 | four groups of three: nobody queued, three tables partial, one full |
| Scenarios.FourGroupsOfFour | tests/RestManager.Tests/RestManagerServiceTests.cs:133-147 | four groups of four: one queued, two tables partial, one full |
| Scenarios.SevenGroupsOnSimple | tests/RestManager.Tests/RestManagerServiceTests.cs:153-171 | seven groups on tables 1..6: six tables full, none partial, one queued |
| Scenarios.SevenGroupsOnLargeScale | tests/RestManager.Tests/RestManagerServiceTests.cs:177-197 | the same groups on tables 4, 5, 6, 4, 5, 6: two full, four partial, nobody queued |
| Scenarios.LoneGroupLeaves | tests/RestManager.Tests/RestManagerServiceTests.cs:210-228 | a lone group that arrives and leaves brings back the initial state, with all six tables available |
| Scenarios.ProcessCase1 | tests/RestManager.Tests/RestManagerServiceTests.cs:235-279 | eleven arrivals on tables 1..6 leave six queued; after group 2 leaves four are queued and group 9 is seated |
| Scenarios.ProcessCase2 | tests/RestManager.Tests/RestManagerServiceTests.cs:286-323 | on tables 1 and 6 ten are queued; after group 1 leaves eight are queued and groups 7 and 11 are seated |
| Scenarios.SweepDropsUnseatedGroup | RestManager/Managers/RestManagerService.cs:85-98 | a dequeued group that fits nowhere is dropped: after the sweep it is neither queued nor seated |
| Scenarios.QueuedIdArrivesAgain | RestManager/Managers/RestManagerService.cs:39-42 | with the check as written, a queued id arrives again and is seated; the next sweep then throws from Dictionary.Add and leaves seats no departure can free; the corrected check refuses that arrival |

## Left out

- Logging: the `_logger` calls have no effect on the state and are not modelled.
- Concurrency: the `lock` is not modelled, and each public method is one atomic step. The unknown-id check of `OnLeave` sits outside the lock. Without other threads it decides the same way as the check inside, so the second "Group is not found" throw is unreachable and both checks are modelled as one.
- `OnLeave` also has a branch for a mapped id whose table does not hold the group. The model keeps it (`Leave` returns `Ok` and changes nothing), but under the invariant it cannot happen.
- `GetState`, the controller and the unused `_occupied` list are not part of this model. The state is read directly as `ServiceState`.
- `ClientsGroup.Time` and `ToString` are test helpers and are left out.
- `IOptions` is reduced to the `TablesConfiguration` value it wraps.
- The .NET `PriorityQueue` does not promise an order among groups of equal size. The model takes the earliest arrival, and the order the scenarios show among equal sizes depends on this choice.
- Integers are unbounded. C# `int` could overflow in `OccupiedPlaces` or in the sweep budget only for absurd sizes, and this is not modelled.
- Null arguments, and callers mutating `Table.Groups` from outside, are not modelled.
- Service.RestManagerService.constructor: requires positive table sizes so that the invariant holds from the start. The source accepts any size.
- Service.RestManagerService.OnArrive: requires a positive group size. It also uses the corrected duplicate check (see Findings), not the check as written, which `Admission.Arrive` models.
- Service.RestManagerService.OnLeave: requires the invariant on entry, which the constructor establishes and every method keeps.
- Service.RestManagerService.SeatGroup: requires that the group fits and its id is unseated, which every caller guarantees. The throwing paths are modelled by `Admission.SeatGroup`.
- Service.RestManagerService.TryFitGroupFromQueue: requires an unseated id and non-negative occupancies, as every sweep round guarantees.

## Findings

| source | as written | input that shows it | evidently intended | confidence | as-written member | corrected member |
|---|---|---|---|---|---|---|
| RestManager/Managers/RestManagerService.cs:39 | the duplicate test consults only the map of seated ids, so a group id that is still queued is accepted again | one table of 3: arrive (size 2, id 1), (2, 2), (1, 2); then group 1 leaves | a group id that has already been added, seated or queued, is refused with "Group has already been added" | not executed; the input is evaluated by the verifier on the model | Admission.Arrive, Scenarios.QueuedIdArrivesAgain | Admission.ArriveChecked, AdmissionProofs.ArriveCheckedKeepsInv |

With the check as written, the second id 2 is seated next to group 1 while the first id 2 is
still queued. When group 1 leaves, the sweep seats the queued id 2 at the table. Then
`Dictionary.Add` throws, after the table has already taken the group. The leftover group holds two
seats that no departure can free and that no lookup finds.
