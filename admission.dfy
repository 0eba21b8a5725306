/**
 * The admission engine of RestManager/Managers/RestManagerService.cs, as
 * functions from one service state to the next. An operation that throws
 * reports the exception together with the state at the moment it was thrown:
 * nothing is rolled back.
 */
module Admission {
  import opened Basics
  import opened Groups
  import opened TableModel
  import opened WaitQueue
  import opened Configurations

  /** The service's fields: the tables in configuration order, the queue, and seated id -> table position. */
  datatype ServiceState = ServiceState(
    tables: seq<TableState>,
    arrivedQueue: seq<ClientsGroup>,
    groupTableMap: map<int, nat>)

  /** What an operation reports, and the state it leaves. */
  datatype Step = Step(outcome: Outcome, state: ServiceState)

  /** Every map entry names a table of the list (the source stores table references). */
  predicate Linked(s: ServiceState)
  {
    forall id :: id in s.groupTableMap ==> s.groupTableMap[id] < |s.tables|
  }

  /** The freshly constructed service. */
  function Initial(configuration: TablesConfiguration): (s: ServiceState)
    ensures Linked(s) && s.arrivedQueue == [] && s.groupTableMap == map[]
    ensures s.tables == configuration.Tables()
  {
    ServiceState(configuration.Tables(), [], map[])
  }

  /** The three table filters of the first-fit scans. */
  datatype Rule =
    | EmptyAndLargeEnough   // IsFullyAvailable && Size >= group.Size
    | SharedWithRoom        // !IsFullyAvailable && CanFitMore(group.Size)
    | AnyWithRoom           // CanFitMore(group.Size)

  predicate Admits(rule: Rule, t: TableState, groupSize: int)
  {
    match rule
    case EmptyAndLargeEnough => t.IsFullyAvailable() && t.size >= groupSize
    case SharedWithRoom => !t.IsFullyAvailable() && t.CanFitMore(groupSize)
    case AnyWithRoom => t.CanFitMore(groupSize)
  }

  /** `i` is the first table in list order that the rule admits. */
  ghost predicate IsFirstFit(ts: seq<TableState>, rule: Rule, groupSize: int, i: nat)
  {
    i < |ts| && Admits(rule, ts[i], groupSize) &&
    forall j :: 0 <= j < i ==> !Admits(rule, ts[j], groupSize)
  }

  /** No table of the list is admitted by the rule. */
  ghost predicate NoneFits(ts: seq<TableState>, rule: Rule, groupSize: int)
  {
    forall j :: 0 <= j < |ts| ==> !Admits(rule, ts[j], groupSize)
  }

  /** `Tables.FirstOrDefault(rule)`: the first table in list order that the rule admits. */
  function FirstFit(ts: seq<TableState>, rule: Rule, groupSize: int): (r: Option<nat>)
    ensures r.None? <==> forall i :: 0 <= i < |ts| ==> !Admits(rule, ts[i], groupSize)
    ensures r.Some? ==> r.value < |ts| && Admits(rule, ts[r.value], groupSize)
    ensures r.Some? ==> forall j :: 0 <= j < r.value ==> !Admits(rule, ts[j], groupSize)
  {
    FirstFitFrom(ts, rule, groupSize, 0)
  }

  /** The scan of FirstFit from position `from` on. */
  function FirstFitFrom(ts: seq<TableState>, rule: Rule, groupSize: int, from: nat): (r: Option<nat>)
    requires from <= |ts|
    ensures r.None? <==> forall i :: from <= i < |ts| ==> !Admits(rule, ts[i], groupSize)
    ensures r.Some? ==> from <= r.value < |ts| && Admits(rule, ts[r.value], groupSize)
    ensures r.Some? ==> forall j :: from <= j < r.value ==> !Admits(rule, ts[j], groupSize)
    decreases |ts| - from
  {
    if from == |ts| then None
    else if Admits(rule, ts[from], groupSize) then Some(from)
    else FirstFitFrom(ts, rule, groupSize, from + 1)
  }

  /**
   * SeatGroup: ArrangeGuesses on the table, then Dictionary.Add. The table
   * check can throw before any change; Add throws for an id that already has an
   * entry, after the table has taken the group.
   */
  function SeatGroup(s: ServiceState, i: nat, group: ClientsGroup): (r: Step)
    requires Linked(s) && i < |s.tables|
    ensures Linked(r.state) && r.state.arrivedQueue == s.arrivedQueue
    ensures r.outcome == Ok <==> group.size <= s.tables[i].size && group.groupId !in s.groupTableMap
    ensures group.size > s.tables[i].size ==> r == Step(Thrown(TableTooSmall), s)
    ensures group.size <= s.tables[i].size ==>
              r.state.tables == s.tables[i := s.tables[i].ArrangeGuesses(group).1]
    ensures group.size <= s.tables[i].size && group.groupId in s.groupTableMap ==>
              r.outcome == Thrown(KeyAlreadyPresent) && r.state.groupTableMap == s.groupTableMap
    ensures r.outcome == Ok ==> r.state.groupTableMap == s.groupTableMap[group.groupId := i]
  {
    var (outcome, table) := s.tables[i].ArrangeGuesses(group);
    if outcome != Ok then Step(outcome, s)
    else
      var seated := s.(tables := s.tables[i := table]);
      if group.groupId in s.groupTableMap then Step(Thrown(KeyAlreadyPresent), seated)
      else Step(Ok, seated.(groupTableMap := s.groupTableMap[group.groupId := i]))
  }

  /** GetRidOfTheGroup: the group at position `k` of table `i` leaves table and map. */
  function GetRidOfTheGroup(s: ServiceState, i: nat, k: nat): (r: ServiceState)
    requires Linked(s) && i < |s.tables| && k < |s.tables[i].groups|
    ensures Linked(r) && r.arrivedQueue == s.arrivedQueue
    ensures r.tables == s.tables[i := Release(s.tables[i], k)]
    ensures r.groupTableMap == s.groupTableMap - {s.tables[i].groups[k].groupId}
  {
    var t := s.tables[i];
    s.(tables := s.tables[i := Release(t, k)],
       groupTableMap := s.groupTableMap - {t.groups[k].groupId})
  }

  /** TryFitGroupFromQueue: seat at the first table with room; the flag says whether one was found. */
  function TryFitGroupFromQueue(s: ServiceState, group: ClientsGroup): (r: (Step, bool))
    requires Linked(s)
    ensures Linked(r.0.state) && r.0.state.arrivedQueue == s.arrivedQueue
    ensures |r.0.state.tables| == |s.tables|
    ensures r.1 <==> exists i :: 0 <= i < |s.tables| && s.tables[i].CanFitMore(group.size)
    ensures !r.1 ==> r.0 == Step(Ok, s)
    ensures forall i :: IsFirstFit(s.tables, AnyWithRoom, group.size, i) ==> r.0 == SeatGroup(s, i, group)
  {
    var found := FirstFit(s.tables, AnyWithRoom, group.size);
    if found.None? then (Step(Ok, s), false)
    else (SeatGroup(s, found.value, group), true)
  }

  /**
   * One round of the re-admission loop of OnLeave: dequeue the head, charge its
   * size to the budget and try to seat it (a group no table can take is
   * dropped). Returns the step, the new budget, and whether the loop goes on:
   * it stops on an exception, and after a successful seat when the next head
   * is larger than the budget.
   */
  function SweepRound(s: ServiceState, seatsAvailable: int): (r: (Step, int, bool))
    requires Linked(s) && s.arrivedQueue != []
    ensures Linked(r.0.state) && |r.0.state.tables| == |s.tables|
    ensures r.0.state.arrivedQueue == Dequeue(s.arrivedQueue).1
    ensures r.1 == seatsAvailable - Dequeue(s.arrivedQueue).0.size
    ensures r.0 == TryFitGroupFromQueue(s.(arrivedQueue := Dequeue(s.arrivedQueue).1), Dequeue(s.arrivedQueue).0).0
    ensures r.0.outcome != Ok ==> !r.2
  {
    var (nextGroup, rest) := Dequeue(s.arrivedQueue);
    var budget := seatsAvailable - nextGroup.size;
    var (step, seated) := TryFitGroupFromQueue(s.(arrivedQueue := rest), nextGroup);
    var stop := step.outcome != Ok || (seated && rest != [] && budget < Peek(rest).size);
    (step, budget, !stop)
  }

  /** The whole re-admission loop, starting from the budget `seatsAvailable`. */
  function Sweep(s: ServiceState, seatsAvailable: int): (r: Step)
    requires Linked(s)
    ensures Linked(r.state) && |r.state.tables| == |s.tables|
    decreases |s.arrivedQueue|
  {
    if s.arrivedQueue == [] then Step(Ok, s)
    else
      var (step, budget, goOn) := SweepRound(s, seatsAvailable);
      if goOn then Sweep(step.state, budget) else step
  }

  /** The two-step first-fit policy, then the queue. */
  function Admit(s: ServiceState, group: ClientsGroup): (r: Step)
    requires Linked(s)
    ensures Linked(r.state) && |r.state.tables| == |s.tables|
  {
    var emptyTable := FirstFit(s.tables, EmptyAndLargeEnough, group.size);
    if emptyTable.Some? then SeatGroup(s, emptyTable.value, group)
    else
      var sharedTable := FirstFit(s.tables, SharedWithRoom, group.size);
      if sharedTable.Some? then SeatGroup(s, sharedTable.value, group)
      else Step(Ok, s.(arrivedQueue := s.arrivedQueue + [group]))
  }

  /** OnArrive as written: only an id that is seated counts as a duplicate. */
  function Arrive(s: ServiceState, group: ClientsGroup): (r: Step)
    requires Linked(s)
    ensures Linked(r.state)
    ensures group.groupId in s.groupTableMap ==> r == Step(Thrown(GroupAlreadyAdded), s)
  {
    if group.groupId in s.groupTableMap then Step(Thrown(GroupAlreadyAdded), s)
    else Admit(s, group)
  }

  /** OnArrive with the duplicate check extended to queued ids (see README, Findings). */
  function ArriveChecked(s: ServiceState, group: ClientsGroup): (r: Step)
    requires Linked(s)
    ensures Linked(r.state)
    ensures group.groupId in s.groupTableMap || group.groupId in Ids(s.arrivedQueue) ==>
              r == Step(Thrown(GroupAlreadyAdded), s)
  {
    if group.groupId in s.groupTableMap || group.groupId in Ids(s.arrivedQueue) then
      Step(Thrown(GroupAlreadyAdded), s)
    else Admit(s, group)
  }

  /**
   * OnLeave: unknown ids throw; otherwise the stored group leaves its table and
   * the sweep runs with the caller's group size as its budget.
   */
  function Leave(s: ServiceState, leavingGroup: ClientsGroup): (r: Step)
    requires Linked(s)
    ensures Linked(r.state)
    ensures leavingGroup.groupId !in s.groupTableMap ==> r == Step(Thrown(GroupNotFound), s)
  {
    if leavingGroup.groupId !in s.groupTableMap then Step(Thrown(GroupNotFound), s)
    else
      var i := s.groupTableMap[leavingGroup.groupId];
      var k := FindGroup(s.tables[i].groups, leavingGroup.groupId);
      if k.None? then Step(Ok, s)
      else Sweep(GetRidOfTheGroup(s, i, k.value), leavingGroup.size)
  }

  /** Lookup: the position of the table holding a seated id. */
  function Lookup(s: ServiceState, groupId: int): (r: Option<nat>)
    requires Linked(s)
    ensures r.Some? <==> groupId in s.groupTableMap
    ensures r.Some? ==> r.value < |s.tables| && r.value == s.groupTableMap[groupId]
  {
    if groupId in s.groupTableMap then Some(s.groupTableMap[groupId]) else None
  }

  // ---------------------------------------------------------------------------
  // Invariants

  ghost predicate TablesOk(s: ServiceState)
  {
    forall i :: 0 <= i < |s.tables| ==> s.tables[i].WellFormed()
  }

  /** The map holds exactly the seated ids, each with the one table that seats it. */
  ghost predicate IndexOk(s: ServiceState)
  {
    && Linked(s)
    && (forall id :: id in s.groupTableMap ==> id in Ids(s.tables[s.groupTableMap[id]].groups))
    && (forall i, k :: 0 <= i < |s.tables| && 0 <= k < |s.tables[i].groups| ==>
          s.tables[i].groups[k].groupId in s.groupTableMap &&
          s.groupTableMap[s.tables[i].groups[k].groupId] == i)
  }

  /** Queued ids are distinct and none of them is seated. */
  ghost predicate QueueOk(s: ServiceState)
  {
    && DistinctIds(s.arrivedQueue)
    && AllPositive(s.arrivedQueue)
    && forall k :: 0 <= k < |s.arrivedQueue| ==> s.arrivedQueue[k].groupId !in s.groupTableMap
  }

  ghost predicate SeatingOk(s: ServiceState)
  {
    TablesOk(s) && IndexOk(s)
  }

  ghost predicate Inv(s: ServiceState)
  {
    SeatingOk(s) && QueueOk(s)
  }

  /** Tables vacant, nothing queued, nobody seated. */
  ghost predicate AllVacant(s: ServiceState)
  {
    && s.arrivedQueue == [] && s.groupTableMap == map[]
    && forall i :: 0 <= i < |s.tables| ==> s.tables[i].IsFullyAvailable() && s.tables[i].groups == []
  }
}
