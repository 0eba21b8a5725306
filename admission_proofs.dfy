/** What the admission engine keeps and guarantees, proved over module Admission. */
module AdmissionProofs {
  import opened Basics
  import opened Groups
  import opened TableModel
  import opened WaitQueue
  import opened Configurations
  import opened Admission

  /** A group no table and no queue entry knows yet. */
  ghost predicate Fresh(s: ServiceState, group: ClientsGroup)
  {
    group.size > 0 && group.groupId !in s.groupTableMap && group.groupId !in Ids(s.arrivedQueue)
  }

  /** A service built from positive capacities starts consistent and vacant. */
  lemma InitialIsVacant(configuration: TablesConfiguration)
    requires forall i :: 0 <= i < |configuration.sizes| ==> configuration.sizes[i] > 0
    ensures Inv(Initial(configuration)) && AllVacant(Initial(configuration))
  {
  }

  /** An id that is not in the map sits at no table. */
  lemma UnmappedIdIsNotSeated(s: ServiceState, id: int)
    requires IndexOk(s) && id !in s.groupTableMap
    ensures forall i :: 0 <= i < |s.tables| ==> id !in Ids(s.tables[i].groups)
  {
  }

  /** Seating an unseated group at a table large enough keeps the map and the tables in step. */
  lemma SeatKeepsIndex(s: ServiceState, i: nat, group: ClientsGroup)
    requires IndexOk(s) && i < |s.tables| && group.size <= s.tables[i].size
    requires group.groupId !in s.groupTableMap
    ensures SeatGroup(s, i, group).outcome == Ok
    ensures IndexOk(SeatGroup(s, i, group).state)
  {
    UnmappedIdIsNotSeated(s, group.groupId);
    var r := SeatGroup(s, i, group).state;
    var old_gs := s.tables[i].groups;
    assert r.tables[i].groups == old_gs + [group];
    forall id | id in r.groupTableMap
      ensures id in Ids(r.tables[r.groupTableMap[id]].groups)
    {
      if id == group.groupId {
        assert Ids(r.tables[i].groups)[|old_gs|] == id;
      } else if s.groupTableMap[id] == i {
        var k :| 0 <= k < |old_gs| && Ids(old_gs)[k] == id;
        assert Ids(r.tables[i].groups)[k] == id;
      }
    }
  }

  /**
   * Seating an unseated positive group where it fits keeps the tables and the
   * map consistent; neither exception of SeatGroup is raised.
   */
  lemma SeatKeepsSeating(s: ServiceState, i: nat, group: ClientsGroup)
    requires SeatingOk(s) && i < |s.tables| && s.tables[i].CanFitMore(group.size)
    requires group.size > 0 && group.groupId !in s.groupTableMap
    ensures SeatGroup(s, i, group).outcome == Ok
    ensures SeatingOk(SeatGroup(s, i, group).state)
  {
    UnmappedIdIsNotSeated(s, group.groupId);
    ArrangeKeepsWellFormed(s.tables[i], group);
    SeatKeepsIndex(s, i, group);
  }

  /** The same, with the queue: a fresh group keeps the whole invariant. */
  lemma SeatKeepsInv(s: ServiceState, i: nat, group: ClientsGroup)
    requires Inv(s) && i < |s.tables| && s.tables[i].CanFitMore(group.size) && Fresh(s, group)
    ensures SeatGroup(s, i, group).outcome == Ok
    ensures Inv(SeatGroup(s, i, group).state)
  {
    SeatKeepsSeating(s, i, group);
    var r := SeatGroup(s, i, group).state;
    forall k | 0 <= k < |r.arrivedQueue| ensures r.arrivedQueue[k].groupId !in r.groupTableMap {
      assert Ids(s.arrivedQueue)[k] == s.arrivedQueue[k].groupId;
    }
  }

  /** A departure from the tables keeps the whole invariant. */
  lemma ReleaseKeepsInv(s: ServiceState, i: nat, k: nat)
    requires Inv(s) && i < |s.tables| && k < |s.tables[i].groups|
    ensures Inv(GetRidOfTheGroup(s, i, k))
  {
    var r := GetRidOfTheGroup(s, i, k);
    var gs := s.tables[i].groups;
    var gone := gs[k].groupId;
    ReleaseKeepsWellFormed(s.tables[i], k);
    RemoveAtKeepsDistinct(gs, k);
    forall id | id in r.groupTableMap
      ensures id in Ids(r.tables[r.groupTableMap[id]].groups)
    {
    }
    forall j, m | 0 <= j < |r.tables| && 0 <= m < |r.tables[j].groups|
      ensures r.tables[j].groups[m].groupId in r.groupTableMap
      ensures r.groupTableMap[r.tables[j].groups[m].groupId] == j
    {
      if j == i {
        var g := r.tables[j].groups[m];
        assert Ids(r.tables[j].groups)[m] == g.groupId;
        assert g.groupId != gone;
        if m < k { assert g == gs[m]; } else { assert g == gs[m + 1]; }
      }
    }
  }

  /** Dequeuing the head keeps the invariant and leaves a group fresh for the rest. */
  lemma DequeueKeepsInv(s: ServiceState)
    requires Inv(s) && s.arrivedQueue != []
    ensures Inv(s.(arrivedQueue := Dequeue(s.arrivedQueue).1))
    ensures Fresh(s.(arrivedQueue := Dequeue(s.arrivedQueue).1), Dequeue(s.arrivedQueue).0)
  {
  }

  /** With a fresh group TryFitGroupFromQueue never throws and keeps the invariant. */
  lemma TryFitKeepsInv(s: ServiceState, group: ClientsGroup)
    requires Inv(s) && Fresh(s, group)
    ensures TryFitGroupFromQueue(s, group).0.outcome == Ok
    ensures Inv(TryFitGroupFromQueue(s, group).0.state)
  {
    var found := FirstFit(s.tables, AnyWithRoom, group.size);
    if found.Some? {
      SeatKeepsInv(s, found.value, group);
    }
  }

  /** A round of the sweep on a consistent state never throws and keeps it consistent. */
  lemma RoundKeepsInv(s: ServiceState, seatsAvailable: int)
    requires Inv(s) && s.arrivedQueue != []
    ensures SweepRound(s, seatsAvailable).0.outcome == Ok
    ensures Inv(SweepRound(s, seatsAvailable).0.state)
  {
    var (nextGroup, rest) := Dequeue(s.arrivedQueue);
    DequeueKeepsInv(s);
    TryFitKeepsInv(s.(arrivedQueue := rest), nextGroup);
  }

  /** One round of the sweep, read off from what TryFitGroupFromQueue did with the dequeued head. */
  lemma RoundFromFit(s: ServiceState, seatsAvailable: int, after: ServiceState, seated: bool)
    requires Linked(s) && s.arrivedQueue != []
    requires TryFitGroupFromQueue(s.(arrivedQueue := Dequeue(s.arrivedQueue).1), Dequeue(s.arrivedQueue).0)
             == (Step(Ok, after), seated)
    ensures var budget := seatsAvailable - Dequeue(s.arrivedQueue).0.size;
            SweepRound(s, seatsAvailable) ==
              (Step(Ok, after), budget,
               !(seated && after.arrivedQueue != [] && budget < Peek(after.arrivedQueue).size))
  {
  }

  /**
   * TryFitGroupFromQueue with an unseated group and `i` the first table with
   * room: the group is seated there, its size is taken from that table, no
   * other table changes, and its id is mapped to `i`.
   */
  lemma TryFitSeatsAtFirstRoom(s: ServiceState, group: ClientsGroup, i: nat)
    requires Linked(s) && group.groupId !in s.groupTableMap
    requires IsFirstFit(s.tables, AnyWithRoom, group.size, i) && s.tables[i].occupied >= 0
    ensures var (step, seated) := TryFitGroupFromQueue(s, group);
            && seated && step.outcome == Ok
            && step.state.tables[i].groups == s.tables[i].groups + [group]
            && step.state.tables[i].occupied == s.tables[i].occupied + group.size
            && step.state.tables[i].size == s.tables[i].size
            && (forall j :: 0 <= j < |s.tables| && j != i ==> step.state.tables[j] == s.tables[j])
            && step.state.groupTableMap == s.groupTableMap[group.groupId := i]
            && step.state.arrivedQueue == s.arrivedQueue
  {
  }

  /**
   * One round of the sweep on a consistent state: the dequeued head is seated
   * at the first table with room and mapped to it, or, when no table has room,
   * dropped with nothing else changed.
   */
  lemma RoundSeatsHeadOrDrops(s: ServiceState, seatsAvailable: int, i: nat)
    requires Inv(s) && s.arrivedQueue != []
    ensures var head := Dequeue(s.arrivedQueue).0;
            var after := SweepRound(s, seatsAvailable).0.state;
            && (NoneFits(s.tables, AnyWithRoom, head.size) ==>
                  after == s.(arrivedQueue := Dequeue(s.arrivedQueue).1))
            && (IsFirstFit(s.tables, AnyWithRoom, head.size, i) ==>
                  && after.tables[i].groups == s.tables[i].groups + [head]
                  && after.tables[i].occupied == s.tables[i].occupied + head.size
                  && (forall j :: 0 <= j < |s.tables| && j != i ==> after.tables[j] == s.tables[j])
                  && after.groupTableMap == s.groupTableMap[head.groupId := i])
  {
    var rest := Dequeue(s.arrivedQueue).1;
    var head := Dequeue(s.arrivedQueue).0;
    DequeueKeepsInv(s);
    if IsFirstFit(s.tables, AnyWithRoom, head.size, i) {
      TryFitSeatsAtFirstRoom(s.(arrivedQueue := rest), head, i);
    }
  }

  /** The sweep never throws on a consistent state and leaves it consistent. */
  lemma {:induction false} SweepKeepsInv(s: ServiceState, seatsAvailable: int)
    requires Inv(s)
    ensures Sweep(s, seatsAvailable).outcome == Ok
    ensures Inv(Sweep(s, seatsAvailable).state)
    decreases |s.arrivedQueue|
  {
    if s.arrivedQueue != [] {
      var (step, budget, goOn) := SweepRound(s, seatsAvailable);
      RoundKeepsInv(s, seatsAvailable);
      if goOn {
        SweepKeepsInv(step.state, budget);
      }
    }
  }

  /** The sweep only takes entries out of the queue; it never adds any. */
  lemma {:induction false} SweepShrinksQueue(s: ServiceState, seatsAvailable: int)
    requires Linked(s)
    ensures multiset(Sweep(s, seatsAvailable).state.arrivedQueue) <= multiset(s.arrivedQueue)
    decreases |s.arrivedQueue|
  {
    if s.arrivedQueue != [] {
      var (step, budget, goOn) := SweepRound(s, seatsAvailable);
      DequeueIsRemoval(s.arrivedQueue);
      if goOn {
        SweepShrinksQueue(step.state, budget);
      }
    }
  }

  /** A round seats at most the group it dequeued. */
  lemma RoundSeatsOnlyHead(s: ServiceState, seatsAvailable: int)
    requires Linked(s) && s.arrivedQueue != []
    ensures forall id :: id in SweepRound(s, seatsAvailable).0.state.groupTableMap ==>
              id in s.groupTableMap || id == Dequeue(s.arrivedQueue).0.groupId
  {
  }

  /** The sweep seats only ids that were queued: every id it maps was mapped or queued before. */
  lemma {:induction false} SweepSeatsOnlyQueued(s: ServiceState, seatsAvailable: int)
    requires Linked(s)
    ensures forall id :: id in Sweep(s, seatsAvailable).state.groupTableMap ==>
              id in s.groupTableMap || id in Ids(s.arrivedQueue)
    decreases |s.arrivedQueue|
  {
    if s.arrivedQueue != [] {
      var q := s.arrivedQueue;
      var (step, budget, goOn) := SweepRound(s, seatsAvailable);
      RoundSeatsOnlyHead(s, seatsAvailable);
      var k := MinIndex(q);
      var rest := Dequeue(q).1;
      assert Ids(q)[k] == Dequeue(q).0.groupId;
      forall id | id in Ids(rest) ensures id in Ids(q) {
        var j :| 0 <= j < |rest| && Ids(rest)[j] == id;
        if j < k { assert Ids(q)[j] == id; } else { assert Ids(q)[j + 1] == id; }
      }
      if goOn {
        SweepSeatsOnlyQueued(step.state, budget);
      }
    }
  }

  /**
   * OnLeave on a consistent state: it throws "Group not found" exactly for an id
   * that is not seated, and then changes nothing; otherwise it succeeds and the
   * state stays consistent.
   */
  lemma LeaveKeepsInv(s: ServiceState, leavingGroup: ClientsGroup)
    requires Inv(s)
    ensures Leave(s, leavingGroup).outcome == Ok <==> leavingGroup.groupId in s.groupTableMap
    ensures Leave(s, leavingGroup).outcome != Ok ==>
              Leave(s, leavingGroup) == Step(Thrown(GroupNotFound), s)
    ensures Inv(Leave(s, leavingGroup).state)
  {
    var id := leavingGroup.groupId;
    if id in s.groupTableMap {
      var i := s.groupTableMap[id];
      var k := FindGroup(s.tables[i].groups, id);
      assert k.Some?;
      ReleaseKeepsInv(s, i, k.value);
      SweepKeepsInv(GetRidOfTheGroup(s, i, k.value), leavingGroup.size);
    }
  }

  /** A queued group cannot leave: its id is not in the map. */
  lemma LeaveQueuedThrows(s: ServiceState, leavingGroup: ClientsGroup)
    requires Inv(s) && leavingGroup.groupId in Ids(s.arrivedQueue)
    ensures Leave(s, leavingGroup) == Step(Thrown(GroupNotFound), s)
  {
  }

  /** After a group has left, Lookup no longer finds it (the sweep cannot re-seat its id). */
  lemma LookupAfterLeave(s: ServiceState, leavingGroup: ClientsGroup)
    requires Inv(s) && leavingGroup.groupId in s.groupTableMap
    ensures Lookup(Leave(s, leavingGroup).state, leavingGroup.groupId) == None
  {
    var id := leavingGroup.groupId;
    var i := s.groupTableMap[id];
    var k := FindGroup(s.tables[i].groups, id).value;
    var s1 := GetRidOfTheGroup(s, i, k);
    assert s.tables[i].groups[k].groupId == id;
    SweepSeatsOnlyQueued(s1, leavingGroup.size);
  }

  /** Lookup finds a table exactly for an id seated there, in both directions. */
  lemma LookupFindsSeatedTable(s: ServiceState, groupId: int, i: nat)
    requires IndexOk(s) && i < |s.tables|
    ensures Lookup(s, groupId) == Some(i) <==> groupId in Ids(s.tables[i].groups)
  {
  }

  /** Lookup does not find a queued group. */
  lemma LookupQueuedIsNone(s: ServiceState, groupId: int)
    requires Inv(s) && groupId in Ids(s.arrivedQueue)
    ensures Lookup(s, groupId) == None
  {
  }

  /** The admission policy on a fresh group never throws and keeps the invariant. */
  lemma AdmitKeepsInv(s: ServiceState, group: ClientsGroup)
    requires Inv(s) && Fresh(s, group)
    ensures Admit(s, group).outcome == Ok
    ensures Inv(Admit(s, group).state)
  {
    var emptyTable := FirstFit(s.tables, EmptyAndLargeEnough, group.size);
    var sharedTable := FirstFit(s.tables, SharedWithRoom, group.size);
    if emptyTable.Some? {
      SeatKeepsInv(s, emptyTable.value, group);
    } else if sharedTable.Some? {
      SeatKeepsInv(s, sharedTable.value, group);
    } else {
      var r := Admit(s, group).state;
      assert r.arrivedQueue == s.arrivedQueue + [group];
      forall a, b | 0 <= a < b < |r.arrivedQueue|
        ensures r.arrivedQueue[a].groupId != r.arrivedQueue[b].groupId
      {
        if b == |s.arrivedQueue| { assert Ids(s.arrivedQueue)[a] == r.arrivedQueue[a].groupId; }
      }
    }
  }

  /**
   * OnArrive with the corrected duplicate check: it throws exactly for an id
   * that is seated or queued, and then changes nothing; otherwise it succeeds
   * and keeps the invariant.
   */
  lemma ArriveCheckedKeepsInv(s: ServiceState, group: ClientsGroup)
    requires Inv(s) && group.size > 0
    ensures ArriveChecked(s, group).outcome != Ok <==>
              group.groupId in s.groupTableMap || group.groupId in Ids(s.arrivedQueue)
    ensures ArriveChecked(s, group).outcome != Ok ==>
              ArriveChecked(s, group) == Step(Thrown(GroupAlreadyAdded), s)
    ensures Inv(ArriveChecked(s, group).state)
  {
    if !(group.groupId in s.groupTableMap || group.groupId in Ids(s.arrivedQueue)) {
      AdmitKeepsInv(s, group);
    }
  }

  /**
   * OnArrive as written keeps the tables and the map consistent and never
   * reaches "Table is too small"; only the queue part of the invariant can break.
   */
  lemma ArriveKeepsSeating(s: ServiceState, group: ClientsGroup)
    requires SeatingOk(s) && group.size > 0
    ensures Arrive(s, group).outcome == Ok <==> group.groupId !in s.groupTableMap
    ensures SeatingOk(Arrive(s, group).state)
  {
    if group.groupId !in s.groupTableMap {
      var emptyTable := FirstFit(s.tables, EmptyAndLargeEnough, group.size);
      var sharedTable := FirstFit(s.tables, SharedWithRoom, group.size);
      if emptyTable.Some? {
        SeatKeepsSeating(s, emptyTable.value, group);
      } else if sharedTable.Some? {
        SeatKeepsSeating(s, sharedTable.value, group);
      }
    }
  }

  /** The check as written and the corrected one agree on every arrival whose id is not queued. */
  lemma ArriveAgreesUnlessQueued(s: ServiceState, group: ClientsGroup)
    requires Linked(s) && group.groupId !in Ids(s.arrivedQueue)
    ensures Arrive(s, group) == ArriveChecked(s, group)
  {
  }

  /**
   * The admission order: the first empty table large enough; failing that, the
   * first occupied table with room; failing that, the end of the queue.
   */
  lemma AdmitFollowsPolicy(s: ServiceState, group: ClientsGroup, i: nat)
    requires Linked(s)
    ensures IsFirstFit(s.tables, EmptyAndLargeEnough, group.size, i) ==>
              Admit(s, group) == SeatGroup(s, i, group)
    ensures NoneFits(s.tables, EmptyAndLargeEnough, group.size) &&
            IsFirstFit(s.tables, SharedWithRoom, group.size, i) ==>
              Admit(s, group) == SeatGroup(s, i, group)
    ensures NoneFits(s.tables, EmptyAndLargeEnough, group.size) &&
            NoneFits(s.tables, SharedWithRoom, group.size) ==>
              Admit(s, group) == Step(Ok, s.(arrivedQueue := s.arrivedQueue + [group]))
  {
  }

  /**
   * When no empty table is large enough, the second scan (occupied tables with
   * room) picks the same table as a scan over all tables with room would.
   */
  lemma SharedScanIsAnyRoomScan(ts: seq<TableState>, groupSize: int)
    requires forall i :: 0 <= i < |ts| ==> ts[i].occupied >= 0
    requires NoneFits(ts, EmptyAndLargeEnough, groupSize)
    ensures FirstFit(ts, SharedWithRoom, groupSize) == FirstFit(ts, AnyWithRoom, groupSize)
  {
  }

  /** Seating a group and then removing it from the same table gives back the original state. */
  lemma SeatThenRelease(s: ServiceState, i: nat, group: ClientsGroup)
    requires Linked(s) && i < |s.tables| && group.size <= s.tables[i].size
    requires group.groupId !in s.groupTableMap && group.groupId !in Ids(s.tables[i].groups)
    ensures SeatGroup(s, i, group).outcome == Ok
    ensures var a := SeatGroup(s, i, group).state;
            && FindGroup(a.tables[i].groups, group.groupId) == Some(|s.tables[i].groups|)
            && GetRidOfTheGroup(a, i, |s.tables[i].groups|) == s
  {
    var a := SeatGroup(s, i, group).state;
    var gs := s.tables[i].groups;
    assert a.tables[i].groups == gs + [group];
    var k := FindGroup(a.tables[i].groups, group.groupId);
    assert Ids(a.tables[i].groups)[|gs|] == group.groupId;
    assert k.value == |gs|;
    ArrangeThenRelease(s.tables[i], group);
    var r := GetRidOfTheGroup(a, i, |gs|);
    assert r.tables[i] == s.tables[i];
    assert r.tables == s.tables;
    assert r.groupTableMap == s.groupTableMap;
  }

  /**
   * Arrive followed at once by Leave of the same group, on a service with an
   * empty queue, restores the state exactly whenever the group was seated.
   */
  lemma ArriveThenLeaveRestores(s: ServiceState, group: ClientsGroup)
    requires Inv(s) && s.arrivedQueue == [] && Fresh(s, group)
    requires ArriveChecked(s, group).state.arrivedQueue == []
    ensures Leave(ArriveChecked(s, group).state, group) == Step(Ok, s)
  {
    var e := FirstFit(s.tables, EmptyAndLargeEnough, group.size);
    var sh := FirstFit(s.tables, SharedWithRoom, group.size);
    assert e.Some? || sh.Some?;
    var i := if e.Some? then e.value else sh.value;
    assert ArriveChecked(s, group) == SeatGroup(s, i, group);
    UnmappedIdIsNotSeated(s, group.groupId);
    SeatThenRelease(s, i, group);
    var a := SeatGroup(s, i, group).state;
    assert a.groupTableMap[group.groupId] == i;
    assert Leave(a, group) == Sweep(s, group.size);
  }

  /** Arriving twice with the same id: the second call throws and changes nothing. */
  lemma ArriveTwiceThrows(s: ServiceState, group: ClientsGroup)
    requires Inv(s) && Fresh(s, group)
    ensures ArriveChecked(ArriveChecked(s, group).state, group) ==
              Step(Thrown(GroupAlreadyAdded), ArriveChecked(s, group).state)
  {
    var e := FirstFit(s.tables, EmptyAndLargeEnough, group.size);
    var sh := FirstFit(s.tables, SharedWithRoom, group.size);
    if e.None? && sh.None? {
      var q := ArriveChecked(s, group).state.arrivedQueue;
      assert Ids(q)[|q| - 1] == group.groupId;
    }
  }
}
