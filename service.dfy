/** The service object of RestManager/Managers/RestManagerService.cs. */
module Service {
  import opened Basics
  import opened Groups
  import opened TableModel
  import opened WaitQueue
  import opened Configurations
  import opened Admission
  import opened AdmissionProofs

  /**
   * Owns the tables (in configuration order), the waiting queue and the map
   * from seated group id to the position of its table. Each public method is
   * one atomic step of module Admission.
   */
  class RestManagerService {
    const tables: seq<Table>
    var arrivedQueue: seq<ClientsGroup>
    var groupTableMap: map<int, nat>

    function State(): ServiceState
      reads this, tables
    {
      ServiceState(Snapshot(tables), arrivedQueue, groupTableMap)
    }

    /** The table objects are pairwise distinct, so changing one leaves the others alone. */
    ghost predicate Distinct()
    {
      forall i, j :: 0 <= i < j < |tables| ==> tables[i] != tables[j]
    }

    ghost predicate Valid()
      reads this, tables
    {
      Distinct() && Inv(State())
    }

    constructor (configuration: TablesConfiguration)
      requires forall i :: 0 <= i < |configuration.sizes| ==> configuration.sizes[i] > 0
      ensures Valid() && State() == Initial(configuration)
      ensures forall i :: 0 <= i < |tables| ==> fresh(tables[i])
    {
      var ts := CreateTables(configuration);
      tables := ts;
      arrivedQueue := [];
      groupTableMap := map[];
      new;
      InitialIsVacant(configuration);
    }

    method OnArrive(group: ClientsGroup) returns (r: Outcome)
      requires Valid() && group.size > 0
      modifies this, tables
      ensures Valid()
      ensures Step(r, State()) == ArriveChecked(old(State()), group)
    {
      if group.groupId in groupTableMap || group.groupId in Ids(arrivedQueue) {
        return Thrown(GroupAlreadyAdded);
      }
      AdmitKeepsInv(State(), group);
      var suitableEmptyTable := FirstFit(Snapshot(tables), EmptyAndLargeEnough, group.size);
      if suitableEmptyTable.Some? {
        SeatGroup(suitableEmptyTable.value, group);
        return Ok;
      }
      var suitableSharedTable := FirstFit(Snapshot(tables), SharedWithRoom, group.size);
      if suitableSharedTable.Some? {
        SeatGroup(suitableSharedTable.value, group);
        return Ok;
      }
      arrivedQueue := arrivedQueue + [group];
      r := Ok;
    }

    method OnLeave(leavingGroup: ClientsGroup) returns (r: Outcome)
      requires Valid()
      modifies this, tables
      ensures Valid()
      ensures Step(r, State()) == Leave(old(State()), leavingGroup)
    {
      if leavingGroup.groupId !in groupTableMap {
        return Thrown(GroupNotFound);
      }
      var groupId := leavingGroup.groupId;
      var seatsAvailable := leavingGroup.size;
      var i := groupTableMap[groupId];
      var found := FindGroup(tables[i].groups, groupId);
      assert found.Some?;
      ghost var initial := State();
      ReleaseKeepsInv(initial, i, found.value);
      GetRidOfTheGroup(i, found.value);
      ghost var released := State();
      assert Leave(initial, leavingGroup) == Sweep(released, leavingGroup.size);
      ghost var current := released;
      while arrivedQueue != []
        invariant State() == current && Inv(current)
        invariant Sweep(current, seatsAvailable) == Sweep(released, leavingGroup.size)
        decreases |arrivedQueue|
      {
        var seated;
        seatsAvailable, seated := ReadmitNext(seatsAvailable);
        current := State();
        if seated && arrivedQueue != [] {
          var arrived := Peek(arrivedQueue);
          if seatsAvailable < arrived.size {
            break;
          }
        }
      }
      r := Ok;
    }

    /** Lookup: the table holding a seated group, or null. */
    function Lookup(groupId: int): (t: Table?)
      reads this, tables
      requires Valid()
      ensures t == null <==> Admission.Lookup(State(), groupId).None?
      ensures t != null ==> t == tables[Admission.Lookup(State(), groupId).value]
    {
      if groupId in groupTableMap then tables[groupTableMap[groupId]] else null
    }

    method SeatGroup(i: nat, group: ClientsGroup)
      requires Distinct() && Linked(State()) && i < |tables|
      requires group.size <= tables[i].size && group.groupId !in groupTableMap
      modifies this, tables[i]
      ensures Step(Ok, State()) == Admission.SeatGroup(old(State()), i, group)
    {
      ghost var before := State();
      var table := tables[i];
      var _ := table.ArrangeGuesses(group);
      groupTableMap := groupTableMap[group.groupId := i];
      assert forall j :: 0 <= j < |tables| && j != i ==> tables[j].State() == before.tables[j];
      assert table.State() == before.tables[i].ArrangeGuesses(group).1;
      assert Snapshot(tables) == before.tables[i := before.tables[i].ArrangeGuesses(group).1];
    }

    method GetRidOfTheGroup(i: nat, k: nat)
      requires Distinct() && Linked(State()) && i < |tables| && k < |tables[i].groups|
      modifies this, tables[i]
      ensures State() == Admission.GetRidOfTheGroup(old(State()), i, k)
    {
      ghost var before := State();
      var table := tables[i];
      var group := table.groups[k];
      table.groups := RemoveAt(table.groups, k);
      table.occupiedPlaces := table.occupiedPlaces - group.size;
      groupTableMap := groupTableMap - {group.groupId};
      assert forall j :: 0 <= j < |tables| && j != i ==> tables[j].State() == before.tables[j];
      assert table.State() == Release(before.tables[i], k);
      assert Snapshot(tables) == before.tables[i := Release(before.tables[i], k)];
    }

    /**
     * One round of the re-admission loop: take the next group off the queue,
     * charge its size to the budget and try to seat it.
     */
    method ReadmitNext(seatsAvailable: int) returns (budget: int, seated: bool)
      requires Distinct() && Inv(State()) && arrivedQueue != []
      modifies this, tables
      ensures Inv(State()) && |arrivedQueue| < |old(arrivedQueue)|
      ensures (Step(Ok, State()), budget, !(seated && arrivedQueue != [] && budget < Peek(arrivedQueue).size))
              == SweepRound(old(State()), seatsAvailable)
    {
      ghost var before := State();
      DequeueKeepsInv(before);
      var (nextGroup, rest) := Dequeue(arrivedQueue);
      arrivedQueue := rest;
      budget := seatsAvailable - nextGroup.size;
      assert State() == before.(arrivedQueue := rest);
      TryFitKeepsInv(State(), nextGroup);
      seated := TryFitGroupFromQueue(nextGroup);
      ghost var after := State();
      assert after.arrivedQueue == arrivedQueue;
      RoundFromFit(before, seatsAvailable, after, seated);
      assert budget == seatsAvailable - Dequeue(before.arrivedQueue).0.size;
      assert SweepRound(before, seatsAvailable) ==
             (Step(Ok, after), budget, !(seated && after.arrivedQueue != [] && budget < Peek(after.arrivedQueue).size));
      assert before == old(State());
    }

    method TryFitGroupFromQueue(group: ClientsGroup) returns (seated: bool)
      requires Distinct() && Linked(State()) && group.groupId !in groupTableMap
      requires forall j :: 0 <= j < |tables| ==> tables[j].occupiedPlaces >= 0
      modifies this, tables
      ensures (Step(Ok, State()), seated) == Admission.TryFitGroupFromQueue(old(State()), group)
    {
      var suitableTable := FirstFit(Snapshot(tables), AnyWithRoom, group.size);
      if suitableTable.Some? {
        SeatGroup(suitableTable.value, group);
        return true;
      }
      return false;
    }
  }
}
