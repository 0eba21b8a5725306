/**
 * The scenarios of tests/RestManager.Tests/RestManagerServiceTests.cs, worked
 * out on the value model, and the duplicate-id scenario behind the finding in
 * README.md. Each state along the way is written out as a constant, and each
 * evaluation of an operation on one of them is a numbered lemma of its own
 * (`<Scenario>Step<n>`), so that every proof stays small. The lemmas with doc
 * comments state what the scenario shows; they only chain the numbered ones.
 * The replays use the corrected arrival check (`ArriveChecked`); every
 * successful arrival step also proves that the check as written (`Arrive`)
 * takes the same step, so the results hold for the code as written too.
 */
module Scenarios {
  import opened Basics
  import opened Groups
  import opened TableModel
  import opened WaitQueue
  import opened Configurations
  import opened Admission
  import opened AdmissionProofs

  /** The three occupancy states the tests count tables by. */
  datatype Occupancy = FullyOccupied | PartiallyOccupied | FullyAvailable

  predicate InState(t: TableState, state: Occupancy)
  {
    match state
    case FullyOccupied => t.IsFullyOccupied()
    case PartiallyOccupied => t.IsPartiallyOccupied()
    case FullyAvailable => t.IsFullyAvailable()
  }

  /** `tables.Count(x => ...)` over the tables from position `from` on. */
  function Count(ts: seq<TableState>, state: Occupancy, from: nat := 0): (n: nat)
    requires from <= |ts|
    ensures n <= |ts| - from
    decreases |ts| - from
  {
    if from == |ts| then 0 else (if InState(ts[from], state) then 1 else 0) + Count(ts, state, from + 1)
  }

  /** A lone group of `k` arriving at `s` is seated on table `k - 1`, which it fills, and nobody shares or waits. */
  predicate SeatedAlone(s: ServiceState, k: int)
    requires Linked(s)
  {
    var r := ArriveChecked(s, ClientsGroup(k, k));
    && r.outcome == Ok && Lookup(r.state, k) == Some(k - 1)
    && Count(r.state.tables, FullyOccupied) == 1
    && Count(r.state.tables, PartiallyOccupied) == 0
    && r.state.arrivedQueue == []
  }

  /** A lone group of `k` that arrives at `s` and leaves again brings the service back to `s`. */
  predicate ComesAndGoes(s: ServiceState, k: int)
    requires Linked(s)
  {
    var arrived := ArriveChecked(s, ClientsGroup(k, k));
    var left := Leave(arrived.state, ClientsGroup(k, k));
    left.outcome == Ok && left.state == s
  }

  /** OnArrive for the groups from position `from` on, in turn, stopping at the first exception. */
  function ArriveAll(s: ServiceState, arrivals: seq<ClientsGroup>, from: nat := 0): (r: Step)
    requires Linked(s) && from <= |arrivals|
    ensures Linked(r.state)
    decreases |arrivals| - from
  {
    if from == |arrivals| then Step(Ok, s)
    else
      var r := ArriveChecked(s, arrivals[from]);
      if r.outcome != Ok then r else ArriveAll(r.state, arrivals, from + 1)
  }

  // ---------------------------------------------------------------------------
  // Tables of sizes 1 to 6

  const SimpleCapacity := TablesConfiguration([1, 2, 3, 4, 5, 6])

  const SimpleStart := ServiceState(
    [TableState(1, 0, []), TableState(2, 0, []), TableState(3, 0, []), TableState(4, 0, []), TableState(5, 0, []), TableState(6, 0, [])],
    [], map[])

  lemma SimpleInitial()
    ensures Initial(SimpleCapacity) == SimpleStart
  {
    assert SimpleCapacity.Tables() == SimpleStart.tables;
  }

  const LoneState1 := ServiceState(
    [TableState(1, 1, [ClientsGroup(1, 1)]), TableState(2, 0, []), TableState(3, 0, []), TableState(4, 0, []), TableState(5, 0, []), TableState(6, 0, [])],
    [],
    map[1 := 0])
  const LoneState2 := ServiceState(
    [TableState(1, 0, []), TableState(2, 2, [ClientsGroup(2, 2)]), TableState(3, 0, []), TableState(4, 0, []), TableState(5, 0, []), TableState(6, 0, [])],
    [],
    map[2 := 1])
  const LoneState3 := ServiceState(
    [TableState(1, 0, []), TableState(2, 0, []), TableState(3, 3, [ClientsGroup(3, 3)]), TableState(4, 0, []), TableState(5, 0, []), TableState(6, 0, [])],
    [],
    map[3 := 2])
  const LoneState4 := ServiceState(
    [TableState(1, 0, []), TableState(2, 0, []), TableState(3, 0, []), TableState(4, 4, [ClientsGroup(4, 4)]), TableState(5, 0, []), TableState(6, 0, [])],
    [],
    map[4 := 3])
  const LoneState5 := ServiceState(
    [TableState(1, 0, []), TableState(2, 0, []), TableState(3, 0, []), TableState(4, 0, []), TableState(5, 5, [ClientsGroup(5, 5)]), TableState(6, 0, [])],
    [],
    map[5 := 4])
  const LoneState6 := ServiceState(
    [TableState(1, 0, []), TableState(2, 0, []), TableState(3, 0, []), TableState(4, 0, []), TableState(5, 0, []), TableState(6, 6, [ClientsGroup(6, 6)])],
    [],
    map[6 := 5])

  lemma LoneStep1()
    ensures ArriveChecked(SimpleStart, ClientsGroup(1, 1)) == Step(Ok, LoneState1)
    ensures Arrive(SimpleStart, ClientsGroup(1, 1)) == Step(Ok, LoneState1)
  {
    var s := SimpleStart;
    assert 1 !in Ids(s.arrivedQueue);
    ArriveAgreesUnlessQueued(s, ClientsGroup(1, 1));
    assert FirstFit(s.tables, EmptyAndLargeEnough, 1) == Some(0);
    assert [] + [ClientsGroup(1, 1)] == [ClientsGroup(1, 1)];
    assert s.tables[0 := TableState(1, 1, [ClientsGroup(1, 1)])] == [TableState(1, 1, [ClientsGroup(1, 1)]), TableState(2, 0, []), TableState(3, 0, []), TableState(4, 0, []), TableState(5, 0, []), TableState(6, 0, [])];
    assert s.groupTableMap[1 := 0] == map[1 := 0];
  }

  lemma LoneStep2()
    ensures FindGroup([ClientsGroup(1, 1)], 1) == Some(0)
  {
  }

  lemma LoneStep3()
    ensures GetRidOfTheGroup(LoneState1, 0, 0) == SimpleStart
  {
    var s := LoneState1;
    assert RemoveAt([ClientsGroup(1, 1)], 0) == [];
    assert s.tables[0 := TableState(1, 0, [])] == [TableState(1, 0, []), TableState(2, 0, []), TableState(3, 0, []), TableState(4, 0, []), TableState(5, 0, []), TableState(6, 0, [])];
    assert s.groupTableMap - {1} == map[];
  }

  lemma LoneStep4()
    ensures Leave(LoneState1, ClientsGroup(1, 1)) == Step(Ok, SimpleStart)
  {
    LoneStep2();
    LoneStep3();
    assert Sweep(SimpleStart, 1) == Step(Ok, SimpleStart);
  }

  lemma LoneStep5()
    ensures ArriveChecked(SimpleStart, ClientsGroup(2, 2)) == Step(Ok, LoneState2)
    ensures Arrive(SimpleStart, ClientsGroup(2, 2)) == Step(Ok, LoneState2)
  {
    var s := SimpleStart;
    assert 2 !in Ids(s.arrivedQueue);
    ArriveAgreesUnlessQueued(s, ClientsGroup(2, 2));
    assert FirstFit(s.tables, EmptyAndLargeEnough, 2) == Some(1);
    assert [] + [ClientsGroup(2, 2)] == [ClientsGroup(2, 2)];
    assert s.tables[1 := TableState(2, 2, [ClientsGroup(2, 2)])] == [TableState(1, 0, []), TableState(2, 2, [ClientsGroup(2, 2)]), TableState(3, 0, []), TableState(4, 0, []), TableState(5, 0, []), TableState(6, 0, [])];
    assert s.groupTableMap[2 := 1] == map[2 := 1];
  }

  lemma LoneStep6()
    ensures FindGroup([ClientsGroup(2, 2)], 2) == Some(0)
  {
  }

  lemma LoneStep7()
    ensures GetRidOfTheGroup(LoneState2, 1, 0) == SimpleStart
  {
    var s := LoneState2;
    assert RemoveAt([ClientsGroup(2, 2)], 0) == [];
    assert s.tables[1 := TableState(2, 0, [])] == [TableState(1, 0, []), TableState(2, 0, []), TableState(3, 0, []), TableState(4, 0, []), TableState(5, 0, []), TableState(6, 0, [])];
    assert s.groupTableMap - {2} == map[];
  }

  lemma LoneStep8()
    ensures Leave(LoneState2, ClientsGroup(2, 2)) == Step(Ok, SimpleStart)
  {
    LoneStep6();
    LoneStep7();
    assert Sweep(SimpleStart, 2) == Step(Ok, SimpleStart);
  }

  lemma LoneStep9()
    ensures ArriveChecked(SimpleStart, ClientsGroup(3, 3)) == Step(Ok, LoneState3)
    ensures Arrive(SimpleStart, ClientsGroup(3, 3)) == Step(Ok, LoneState3)
  {
    var s := SimpleStart;
    assert 3 !in Ids(s.arrivedQueue);
    ArriveAgreesUnlessQueued(s, ClientsGroup(3, 3));
    assert FirstFit(s.tables, EmptyAndLargeEnough, 3) == Some(2);
    assert [] + [ClientsGroup(3, 3)] == [ClientsGroup(3, 3)];
    assert s.tables[2 := TableState(3, 3, [ClientsGroup(3, 3)])] == [TableState(1, 0, []), TableState(2, 0, []), TableState(3, 3, [ClientsGroup(3, 3)]), TableState(4, 0, []), TableState(5, 0, []), TableState(6, 0, [])];
    assert s.groupTableMap[3 := 2] == map[3 := 2];
  }

  lemma LoneStep10()
    ensures FindGroup([ClientsGroup(3, 3)], 3) == Some(0)
  {
  }

  lemma LoneStep11()
    ensures GetRidOfTheGroup(LoneState3, 2, 0) == SimpleStart
  {
    var s := LoneState3;
    assert RemoveAt([ClientsGroup(3, 3)], 0) == [];
    assert s.tables[2 := TableState(3, 0, [])] == [TableState(1, 0, []), TableState(2, 0, []), TableState(3, 0, []), TableState(4, 0, []), TableState(5, 0, []), TableState(6, 0, [])];
    assert s.groupTableMap - {3} == map[];
  }

  lemma LoneStep12()
    ensures Leave(LoneState3, ClientsGroup(3, 3)) == Step(Ok, SimpleStart)
  {
    LoneStep10();
    LoneStep11();
    assert Sweep(SimpleStart, 3) == Step(Ok, SimpleStart);
  }

  lemma LoneStep13()
    ensures ArriveChecked(SimpleStart, ClientsGroup(4, 4)) == Step(Ok, LoneState4)
    ensures Arrive(SimpleStart, ClientsGroup(4, 4)) == Step(Ok, LoneState4)
  {
    var s := SimpleStart;
    assert 4 !in Ids(s.arrivedQueue);
    ArriveAgreesUnlessQueued(s, ClientsGroup(4, 4));
    assert FirstFit(s.tables, EmptyAndLargeEnough, 4) == Some(3);
    assert [] + [ClientsGroup(4, 4)] == [ClientsGroup(4, 4)];
    assert s.tables[3 := TableState(4, 4, [ClientsGroup(4, 4)])] == [TableState(1, 0, []), TableState(2, 0, []), TableState(3, 0, []), TableState(4, 4, [ClientsGroup(4, 4)]), TableState(5, 0, []), TableState(6, 0, [])];
    assert s.groupTableMap[4 := 3] == map[4 := 3];
  }

  lemma LoneStep14()
    ensures FindGroup([ClientsGroup(4, 4)], 4) == Some(0)
  {
  }

  lemma LoneStep15()
    ensures GetRidOfTheGroup(LoneState4, 3, 0) == SimpleStart
  {
    var s := LoneState4;
    assert RemoveAt([ClientsGroup(4, 4)], 0) == [];
    assert s.tables[3 := TableState(4, 0, [])] == [TableState(1, 0, []), TableState(2, 0, []), TableState(3, 0, []), TableState(4, 0, []), TableState(5, 0, []), TableState(6, 0, [])];
    assert s.groupTableMap - {4} == map[];
  }

  lemma LoneStep16()
    ensures Leave(LoneState4, ClientsGroup(4, 4)) == Step(Ok, SimpleStart)
  {
    LoneStep14();
    LoneStep15();
    assert Sweep(SimpleStart, 4) == Step(Ok, SimpleStart);
  }

  lemma LoneStep17()
    ensures ArriveChecked(SimpleStart, ClientsGroup(5, 5)) == Step(Ok, LoneState5)
    ensures Arrive(SimpleStart, ClientsGroup(5, 5)) == Step(Ok, LoneState5)
  {
    var s := SimpleStart;
    assert 5 !in Ids(s.arrivedQueue);
    ArriveAgreesUnlessQueued(s, ClientsGroup(5, 5));
    assert FirstFit(s.tables, EmptyAndLargeEnough, 5) == Some(4);
    assert [] + [ClientsGroup(5, 5)] == [ClientsGroup(5, 5)];
    assert s.tables[4 := TableState(5, 5, [ClientsGroup(5, 5)])] == [TableState(1, 0, []), TableState(2, 0, []), TableState(3, 0, []), TableState(4, 0, []), TableState(5, 5, [ClientsGroup(5, 5)]), TableState(6, 0, [])];
    assert s.groupTableMap[5 := 4] == map[5 := 4];
  }

  lemma LoneStep18()
    ensures FindGroup([ClientsGroup(5, 5)], 5) == Some(0)
  {
  }

  lemma LoneStep19()
    ensures GetRidOfTheGroup(LoneState5, 4, 0) == SimpleStart
  {
    var s := LoneState5;
    assert RemoveAt([ClientsGroup(5, 5)], 0) == [];
    assert s.tables[4 := TableState(5, 0, [])] == [TableState(1, 0, []), TableState(2, 0, []), TableState(3, 0, []), TableState(4, 0, []), TableState(5, 0, []), TableState(6, 0, [])];
    assert s.groupTableMap - {5} == map[];
  }

  lemma LoneStep20()
    ensures Leave(LoneState5, ClientsGroup(5, 5)) == Step(Ok, SimpleStart)
  {
    LoneStep18();
    LoneStep19();
    assert Sweep(SimpleStart, 5) == Step(Ok, SimpleStart);
  }

  lemma LoneStep21()
    ensures ArriveChecked(SimpleStart, ClientsGroup(6, 6)) == Step(Ok, LoneState6)
    ensures Arrive(SimpleStart, ClientsGroup(6, 6)) == Step(Ok, LoneState6)
  {
    var s := SimpleStart;
    assert 6 !in Ids(s.arrivedQueue);
    ArriveAgreesUnlessQueued(s, ClientsGroup(6, 6));
    assert FirstFit(s.tables, EmptyAndLargeEnough, 6) == Some(5);
    assert [] + [ClientsGroup(6, 6)] == [ClientsGroup(6, 6)];
    assert s.tables[5 := TableState(6, 6, [ClientsGroup(6, 6)])] == [TableState(1, 0, []), TableState(2, 0, []), TableState(3, 0, []), TableState(4, 0, []), TableState(5, 0, []), TableState(6, 6, [ClientsGroup(6, 6)])];
    assert s.groupTableMap[6 := 5] == map[6 := 5];
  }

  lemma LoneStep22()
    ensures FindGroup([ClientsGroup(6, 6)], 6) == Some(0)
  {
  }

  lemma LoneStep23()
    ensures GetRidOfTheGroup(LoneState6, 5, 0) == SimpleStart
  {
    var s := LoneState6;
    assert RemoveAt([ClientsGroup(6, 6)], 0) == [];
    assert s.tables[5 := TableState(6, 0, [])] == [TableState(1, 0, []), TableState(2, 0, []), TableState(3, 0, []), TableState(4, 0, []), TableState(5, 0, []), TableState(6, 0, [])];
    assert s.groupTableMap - {6} == map[];
  }

  lemma LoneStep24()
    ensures Leave(LoneState6, ClientsGroup(6, 6)) == Step(Ok, SimpleStart)
  {
    LoneStep22();
    LoneStep23();
    assert Sweep(SimpleStart, 6) == Step(Ok, SimpleStart);
  }

  lemma LoneSeated1()
    ensures SeatedAlone(SimpleStart, 1)
  {
    LoneStep1();
  }

  lemma LoneLeaves1()
    ensures ComesAndGoes(SimpleStart, 1)
  {
    LoneStep1();
    LoneStep4();
  }

  lemma LoneSeated2()
    ensures SeatedAlone(SimpleStart, 2)
  {
    LoneStep5();
  }

  lemma LoneLeaves2()
    ensures ComesAndGoes(SimpleStart, 2)
  {
    LoneStep5();
    LoneStep8();
  }

  lemma LoneSeated3()
    ensures SeatedAlone(SimpleStart, 3)
  {
    LoneStep9();
  }

  lemma LoneLeaves3()
    ensures ComesAndGoes(SimpleStart, 3)
  {
    LoneStep9();
    LoneStep12();
  }

  lemma LoneSeated4()
    ensures SeatedAlone(SimpleStart, 4)
  {
    LoneStep13();
  }

  lemma LoneLeaves4()
    ensures ComesAndGoes(SimpleStart, 4)
  {
    LoneStep13();
    LoneStep16();
  }

  lemma LoneSeated5()
    ensures SeatedAlone(SimpleStart, 5)
  {
    LoneStep17();
  }

  lemma LoneLeaves5()
    ensures ComesAndGoes(SimpleStart, 5)
  {
    LoneStep17();
    LoneStep20();
  }

  lemma LoneSeated6()
    ensures SeatedAlone(SimpleStart, 6)
  {
    LoneStep21();
  }

  lemma LoneLeaves6()
    ensures ComesAndGoes(SimpleStart, 6)
  {
    LoneStep21();
    LoneStep24();
  }

  /** A lone group of k (1 to 6) takes the empty table of size k: one table full, none shared, nobody queued. */
  lemma LoneGroupSeatedAlone()
    ensures SeatedAlone(Initial(SimpleCapacity), 1)
    ensures SeatedAlone(Initial(SimpleCapacity), 2)
    ensures SeatedAlone(Initial(SimpleCapacity), 3)
    ensures SeatedAlone(Initial(SimpleCapacity), 4)
    ensures SeatedAlone(Initial(SimpleCapacity), 5)
    ensures SeatedAlone(Initial(SimpleCapacity), 6)
  {
    SimpleInitial();
    LoneSeated1();
    LoneSeated2();
    LoneSeated3();
    LoneSeated4();
    LoneSeated5();
    LoneSeated6();
  }

  /** A lone group of k (1 to 6) that arrives and leaves again brings back the initial state: every table available, nobody queued. */
  lemma LoneGroupLeaves()
    ensures ComesAndGoes(Initial(SimpleCapacity), 1)
    ensures ComesAndGoes(Initial(SimpleCapacity), 2)
    ensures ComesAndGoes(Initial(SimpleCapacity), 3)
    ensures ComesAndGoes(Initial(SimpleCapacity), 4)
    ensures ComesAndGoes(Initial(SimpleCapacity), 5)
    ensures ComesAndGoes(Initial(SimpleCapacity), 6)
    ensures Count(Initial(SimpleCapacity).tables, FullyAvailable) == 6 && Initial(SimpleCapacity).arrivedQueue == []
  {
    SimpleInitial();
    assert Count(SimpleStart.tables, FullyAvailable) == 6;
    LoneLeaves1();
    LoneLeaves2();
    LoneLeaves3();
    LoneLeaves4();
    LoneLeaves5();
    LoneLeaves6();
  }

  const GroupsOfThree := [ClientsGroup(3, 1), ClientsGroup(3, 2), ClientsGroup(3, 3), ClientsGroup(3, 4)]

  const FourOfThreeState1 := ServiceState(
    [TableState(1, 0, []), TableState(2, 0, []), TableState(3, 3, [ClientsGroup(3, 1)]), TableState(4, 0, []), TableState(5, 0, []), TableState(6, 0, [])],
    [],
    map[1 := 2])
  const FourOfThreeState2 := ServiceState(
    [TableState(1, 0, []), TableState(2, 0, []), TableState(3, 3, [ClientsGroup(3, 1)]), TableState(4, 3, [ClientsGroup(3, 2)]), TableState(5, 0, []), TableState(6, 0, [])],
    [],
    map[1 := 2, 2 := 3])
  const FourOfThreeState3 := ServiceState(
    [TableState(1, 0, []), TableState(2, 0, []), TableState(3, 3, [ClientsGroup(3, 1)]), TableState(4, 3, [ClientsGroup(3, 2)]), TableState(5, 3, [ClientsGroup(3, 3)]), TableState(6, 0, [])],
    [],
    map[1 := 2, 2 := 3, 3 := 4])
  const FourOfThreeState4 := ServiceState(
    [TableState(1, 0, []), TableState(2, 0, []), TableState(3, 3, [ClientsGroup(3, 1)]), TableState(4, 3, [ClientsGroup(3, 2)]), TableState(5, 3, [ClientsGroup(3, 3)]), TableState(6, 3, [ClientsGroup(3, 4)])],
    [],
    map[1 := 2, 2 := 3, 3 := 4, 4 := 5])

  lemma FourOfThreeStep1()
    ensures ArriveChecked(SimpleStart, ClientsGroup(3, 1)) == Step(Ok, FourOfThreeState1)
    ensures Arrive(SimpleStart, ClientsGroup(3, 1)) == Step(Ok, FourOfThreeState1)
  {
    var s := SimpleStart;
    assert 1 !in Ids(s.arrivedQueue);
    ArriveAgreesUnlessQueued(s, ClientsGroup(3, 1));
    assert FirstFit(s.tables, EmptyAndLargeEnough, 3) == Some(2);
    assert [] + [ClientsGroup(3, 1)] == [ClientsGroup(3, 1)];
    assert s.tables[2 := TableState(3, 3, [ClientsGroup(3, 1)])] == [TableState(1, 0, []), TableState(2, 0, []), TableState(3, 3, [ClientsGroup(3, 1)]), TableState(4, 0, []), TableState(5, 0, []), TableState(6, 0, [])];
    assert s.groupTableMap[1 := 2] == map[1 := 2];
  }

  lemma FourOfThreeStep2()
    ensures ArriveChecked(FourOfThreeState1, ClientsGroup(3, 2)) == Step(Ok, FourOfThreeState2)
    ensures Arrive(FourOfThreeState1, ClientsGroup(3, 2)) == Step(Ok, FourOfThreeState2)
  {
    var s := FourOfThreeState1;
    assert 2 !in Ids(s.arrivedQueue);
    ArriveAgreesUnlessQueued(s, ClientsGroup(3, 2));
    assert FirstFit(s.tables, EmptyAndLargeEnough, 3) == Some(3);
    assert [] + [ClientsGroup(3, 2)] == [ClientsGroup(3, 2)];
    assert s.tables[3 := TableState(4, 3, [ClientsGroup(3, 2)])] == [TableState(1, 0, []), TableState(2, 0, []), TableState(3, 3, [ClientsGroup(3, 1)]), TableState(4, 3, [ClientsGroup(3, 2)]), TableState(5, 0, []), TableState(6, 0, [])];
    assert s.groupTableMap[2 := 3] == map[1 := 2, 2 := 3];
  }

  lemma FourOfThreeStep3()
    ensures ArriveChecked(FourOfThreeState2, ClientsGroup(3, 3)) == Step(Ok, FourOfThreeState3)
    ensures Arrive(FourOfThreeState2, ClientsGroup(3, 3)) == Step(Ok, FourOfThreeState3)
  {
    var s := FourOfThreeState2;
    assert 3 !in Ids(s.arrivedQueue);
    ArriveAgreesUnlessQueued(s, ClientsGroup(3, 3));
    assert FirstFit(s.tables, EmptyAndLargeEnough, 3) == Some(4);
    assert [] + [ClientsGroup(3, 3)] == [ClientsGroup(3, 3)];
    assert s.tables[4 := TableState(5, 3, [ClientsGroup(3, 3)])] == [TableState(1, 0, []), TableState(2, 0, []), TableState(3, 3, [ClientsGroup(3, 1)]), TableState(4, 3, [ClientsGroup(3, 2)]), TableState(5, 3, [ClientsGroup(3, 3)]), TableState(6, 0, [])];
    assert s.groupTableMap[3 := 4] == map[1 := 2, 2 := 3, 3 := 4];
  }

  lemma FourOfThreeStep4()
    ensures ArriveChecked(FourOfThreeState3, ClientsGroup(3, 4)) == Step(Ok, FourOfThreeState4)
    ensures Arrive(FourOfThreeState3, ClientsGroup(3, 4)) == Step(Ok, FourOfThreeState4)
  {
    var s := FourOfThreeState3;
    assert 4 !in Ids(s.arrivedQueue);
    ArriveAgreesUnlessQueued(s, ClientsGroup(3, 4));
    assert FirstFit(s.tables, EmptyAndLargeEnough, 3) == Some(5);
    assert [] + [ClientsGroup(3, 4)] == [ClientsGroup(3, 4)];
    assert s.tables[5 := TableState(6, 3, [ClientsGroup(3, 4)])] == [TableState(1, 0, []), TableState(2, 0, []), TableState(3, 3, [ClientsGroup(3, 1)]), TableState(4, 3, [ClientsGroup(3, 2)]), TableState(5, 3, [ClientsGroup(3, 3)]), TableState(6, 3, [ClientsGroup(3, 4)])];
    assert s.groupTableMap[4 := 5] == map[1 := 2, 2 := 3, 3 := 4, 4 := 5];
  }

  lemma FourOfThreeStep5()
    ensures ArriveAll(SimpleStart, GroupsOfThree) == Step(Ok, FourOfThreeState4)
  {
    FourOfThreeStep1();
    FourOfThreeStep2();
    FourOfThreeStep3();
    FourOfThreeStep4();
    assert ArriveAll(FourOfThreeState4, GroupsOfThree, 4) == Step(Ok, FourOfThreeState4);
    assert ArriveAll(FourOfThreeState3, GroupsOfThree, 3) == Step(Ok, FourOfThreeState4);
    assert ArriveAll(FourOfThreeState2, GroupsOfThree, 2) == Step(Ok, FourOfThreeState4);
    assert ArriveAll(FourOfThreeState1, GroupsOfThree, 1) == Step(Ok, FourOfThreeState4);
    assert ArriveAll(SimpleStart, GroupsOfThree, 0) == Step(Ok, FourOfThreeState4);
  }

  lemma FourOfThreeStep6()
    ensures FourOfThreeState4.arrivedQueue == [] && Count(FourOfThreeState4.tables, PartiallyOccupied) == 3 && Count(FourOfThreeState4.tables, FullyOccupied) == 1
  {
  }

  /** Four groups of three on tables 1..6: nobody queued, three tables shared, the table of three full. */
  lemma FourGroupsOfThree()
    ensures var r := ArriveAll(Initial(SimpleCapacity), GroupsOfThree);
            && r.outcome == Ok && r.state.arrivedQueue == []
            && Count(r.state.tables, PartiallyOccupied) == 3
            && Count(r.state.tables, FullyOccupied) == 1
  {
    SimpleInitial();
    FourOfThreeStep5();
    FourOfThreeStep6();
  }

  const GroupsOfFour := [ClientsGroup(4, 1), ClientsGroup(4, 2), ClientsGroup(4, 3), ClientsGroup(4, 4)]

  const FourOfFourState1 := ServiceState(
    [TableState(1, 0, []), TableState(2, 0, []), TableState(3, 0, []), TableState(4, 4, [ClientsGroup(4, 1)]), TableState(5, 0, []), TableState(6, 0, [])],
    [],
    map[1 := 3])
  const FourOfFourState2 := ServiceState(
    [TableState(1, 0, []), TableState(2, 0, []), TableState(3, 0, []), TableState(4, 4, [ClientsGroup(4, 1)]), TableState(5, 4, [ClientsGroup(4, 2)]), TableState(6, 0, [])],
    [],
    map[1 := 3, 2 := 4])
  const FourOfFourState3 := ServiceState(
    [TableState(1, 0, []), TableState(2, 0, []), TableState(3, 0, []), TableState(4, 4, [ClientsGroup(4, 1)]), TableState(5, 4, [ClientsGroup(4, 2)]), TableState(6, 4, [ClientsGroup(4, 3)])],
    [],
    map[1 := 3, 2 := 4, 3 := 5])
  const FourOfFourState4 := ServiceState(
    [TableState(1, 0, []), TableState(2, 0, []), TableState(3, 0, []), TableState(4, 4, [ClientsGroup(4, 1)]), TableState(5, 4, [ClientsGroup(4, 2)]), TableState(6, 4, [ClientsGroup(4, 3)])],
    [ClientsGroup(4, 4)],
    map[1 := 3, 2 := 4, 3 := 5])

  lemma FourOfFourStep1()
    ensures ArriveChecked(SimpleStart, ClientsGroup(4, 1)) == Step(Ok, FourOfFourState1)
    ensures Arrive(SimpleStart, ClientsGroup(4, 1)) == Step(Ok, FourOfFourState1)
  {
    var s := SimpleStart;
    assert 1 !in Ids(s.arrivedQueue);
    ArriveAgreesUnlessQueued(s, ClientsGroup(4, 1));
    assert FirstFit(s.tables, EmptyAndLargeEnough, 4) == Some(3);
    assert [] + [ClientsGroup(4, 1)] == [ClientsGroup(4, 1)];
    assert s.tables[3 := TableState(4, 4, [ClientsGroup(4, 1)])] == [TableState(1, 0, []), TableState(2, 0, []), TableState(3, 0, []), TableState(4, 4, [ClientsGroup(4, 1)]), TableState(5, 0, []), TableState(6, 0, [])];
    assert s.groupTableMap[1 := 3] == map[1 := 3];
  }

  lemma FourOfFourStep2()
    ensures ArriveChecked(FourOfFourState1, ClientsGroup(4, 2)) == Step(Ok, FourOfFourState2)
    ensures Arrive(FourOfFourState1, ClientsGroup(4, 2)) == Step(Ok, FourOfFourState2)
  {
    var s := FourOfFourState1;
    assert 2 !in Ids(s.arrivedQueue);
    ArriveAgreesUnlessQueued(s, ClientsGroup(4, 2));
    assert FirstFit(s.tables, EmptyAndLargeEnough, 4) == Some(4);
    assert [] + [ClientsGroup(4, 2)] == [ClientsGroup(4, 2)];
    assert s.tables[4 := TableState(5, 4, [ClientsGroup(4, 2)])] == [TableState(1, 0, []), TableState(2, 0, []), TableState(3, 0, []), TableState(4, 4, [ClientsGroup(4, 1)]), TableState(5, 4, [ClientsGroup(4, 2)]), TableState(6, 0, [])];
    assert s.groupTableMap[2 := 4] == map[1 := 3, 2 := 4];
  }

  lemma FourOfFourStep3()
    ensures ArriveChecked(FourOfFourState2, ClientsGroup(4, 3)) == Step(Ok, FourOfFourState3)
    ensures Arrive(FourOfFourState2, ClientsGroup(4, 3)) == Step(Ok, FourOfFourState3)
  {
    var s := FourOfFourState2;
    assert 3 !in Ids(s.arrivedQueue);
    ArriveAgreesUnlessQueued(s, ClientsGroup(4, 3));
    assert FirstFit(s.tables, EmptyAndLargeEnough, 4) == Some(5);
    assert [] + [ClientsGroup(4, 3)] == [ClientsGroup(4, 3)];
    assert s.tables[5 := TableState(6, 4, [ClientsGroup(4, 3)])] == [TableState(1, 0, []), TableState(2, 0, []), TableState(3, 0, []), TableState(4, 4, [ClientsGroup(4, 1)]), TableState(5, 4, [ClientsGroup(4, 2)]), TableState(6, 4, [ClientsGroup(4, 3)])];
    assert s.groupTableMap[3 := 5] == map[1 := 3, 2 := 4, 3 := 5];
  }

  lemma FourOfFourStep4()
    ensures ArriveChecked(FourOfFourState3, ClientsGroup(4, 4)) == Step(Ok, FourOfFourState4)
    ensures Arrive(FourOfFourState3, ClientsGroup(4, 4)) == Step(Ok, FourOfFourState4)
  {
    var s := FourOfFourState3;
    assert 4 !in Ids(s.arrivedQueue);
    ArriveAgreesUnlessQueued(s, ClientsGroup(4, 4));
    assert FirstFit(s.tables, EmptyAndLargeEnough, 4) == None;
    assert FirstFit(s.tables, SharedWithRoom, 4) == None;
    assert [] + [ClientsGroup(4, 4)] == [ClientsGroup(4, 4)];
  }

  lemma FourOfFourStep5()
    ensures ArriveAll(SimpleStart, GroupsOfFour) == Step(Ok, FourOfFourState4)
  {
    FourOfFourStep1();
    FourOfFourStep2();
    FourOfFourStep3();
    FourOfFourStep4();
    assert ArriveAll(FourOfFourState4, GroupsOfFour, 4) == Step(Ok, FourOfFourState4);
    assert ArriveAll(FourOfFourState3, GroupsOfFour, 3) == Step(Ok, FourOfFourState4);
    assert ArriveAll(FourOfFourState2, GroupsOfFour, 2) == Step(Ok, FourOfFourState4);
    assert ArriveAll(FourOfFourState1, GroupsOfFour, 1) == Step(Ok, FourOfFourState4);
    assert ArriveAll(SimpleStart, GroupsOfFour, 0) == Step(Ok, FourOfFourState4);
  }

  lemma FourOfFourStep6()
    ensures |FourOfFourState4.arrivedQueue| == 1 && Count(FourOfFourState4.tables, PartiallyOccupied) == 2 && Count(FourOfFourState4.tables, FullyOccupied) == 1
  {
  }

  /** Four groups of four on tables 1..6: one queued, two tables shared, the table of four full. */
  lemma FourGroupsOfFour()
    ensures var r := ArriveAll(Initial(SimpleCapacity), GroupsOfFour);
            && r.outcome == Ok && |r.state.arrivedQueue| == 1
            && Count(r.state.tables, PartiallyOccupied) == 2
            && Count(r.state.tables, FullyOccupied) == 1
  {
    SimpleInitial();
    FourOfFourStep5();
    FourOfFourStep6();
  }

  const SevenGroups := [ClientsGroup(5, 1), ClientsGroup(6, 2), ClientsGroup(2, 3), ClientsGroup(3, 4), ClientsGroup(4, 5), ClientsGroup(1, 6), ClientsGroup(1, 7)]

  const SevenState1 := ServiceState(
    [TableState(1, 0, []), TableState(2, 0, []), TableState(3, 0, []), TableState(4, 0, []), TableState(5, 5, [ClientsGroup(5, 1)]), TableState(6, 0, [])],
    [],
    map[1 := 4])
  const SevenState2 := ServiceState(
    [TableState(1, 0, []), TableState(2, 0, []), TableState(3, 0, []), TableState(4, 0, []), TableState(5, 5, [ClientsGroup(5, 1)]), TableState(6, 6, [ClientsGroup(6, 2)])],
    [],
    map[1 := 4, 2 := 5])
  const SevenState3 := ServiceState(
    [TableState(1, 0, []), TableState(2, 2, [ClientsGroup(2, 3)]), TableState(3, 0, []), TableState(4, 0, []), TableState(5, 5, [ClientsGroup(5, 1)]), TableState(6, 6, [ClientsGroup(6, 2)])],
    [],
    map[1 := 4, 2 := 5, 3 := 1])
  const SevenState4 := ServiceState(
    [TableState(1, 0, []), TableState(2, 2, [ClientsGroup(2, 3)]), TableState(3, 3, [ClientsGroup(3, 4)]), TableState(4, 0, []), TableState(5, 5, [ClientsGroup(5, 1)]), TableState(6, 6, [ClientsGroup(6, 2)])],
    [],
    map[1 := 4, 2 := 5, 3 := 1, 4 := 2])
  const SevenState5 := ServiceState(
    [TableState(1, 0, []), TableState(2, 2, [ClientsGroup(2, 3)]), TableState(3, 3, [ClientsGroup(3, 4)]), TableState(4, 4, [ClientsGroup(4, 5)]), TableState(5, 5, [ClientsGroup(5, 1)]), TableState(6, 6, [ClientsGroup(6, 2)])],
    [],
    map[1 := 4, 2 := 5, 3 := 1, 4 := 2, 5 := 3])
  const SevenState6 := ServiceState(
    [TableState(1, 1, [ClientsGroup(1, 6)]), TableState(2, 2, [ClientsGroup(2, 3)]), TableState(3, 3, [ClientsGroup(3, 4)]), TableState(4, 4, [ClientsGroup(4, 5)]), TableState(5, 5, [ClientsGroup(5, 1)]), TableState(6, 6, [ClientsGroup(6, 2)])],
    [],
    map[1 := 4, 2 := 5, 3 := 1, 4 := 2, 5 := 3, 6 := 0])
  const SevenState7 := ServiceState(
    [TableState(1, 1, [ClientsGroup(1, 6)]), TableState(2, 2, [ClientsGroup(2, 3)]), TableState(3, 3, [ClientsGroup(3, 4)]), TableState(4, 4, [ClientsGroup(4, 5)]), TableState(5, 5, [ClientsGroup(5, 1)]), TableState(6, 6, [ClientsGroup(6, 2)])],
    [ClientsGroup(1, 7)],
    map[1 := 4, 2 := 5, 3 := 1, 4 := 2, 5 := 3, 6 := 0])

  lemma SevenStep1()
    ensures ArriveChecked(SimpleStart, ClientsGroup(5, 1)) == Step(Ok, SevenState1)
    ensures Arrive(SimpleStart, ClientsGroup(5, 1)) == Step(Ok, SevenState1)
  {
    var s := SimpleStart;
    assert 1 !in Ids(s.arrivedQueue);
    ArriveAgreesUnlessQueued(s, ClientsGroup(5, 1));
    assert FirstFit(s.tables, EmptyAndLargeEnough, 5) == Some(4);
    assert [] + [ClientsGroup(5, 1)] == [ClientsGroup(5, 1)];
    assert s.tables[4 := TableState(5, 5, [ClientsGroup(5, 1)])] == [TableState(1, 0, []), TableState(2, 0, []), TableState(3, 0, []), TableState(4, 0, []), TableState(5, 5, [ClientsGroup(5, 1)]), TableState(6, 0, [])];
    assert s.groupTableMap[1 := 4] == map[1 := 4];
  }

  lemma SevenStep2()
    ensures ArriveChecked(SevenState1, ClientsGroup(6, 2)) == Step(Ok, SevenState2)
    ensures Arrive(SevenState1, ClientsGroup(6, 2)) == Step(Ok, SevenState2)
  {
    var s := SevenState1;
    assert 2 !in Ids(s.arrivedQueue);
    ArriveAgreesUnlessQueued(s, ClientsGroup(6, 2));
    assert FirstFit(s.tables, EmptyAndLargeEnough, 6) == Some(5);
    assert [] + [ClientsGroup(6, 2)] == [ClientsGroup(6, 2)];
    assert s.tables[5 := TableState(6, 6, [ClientsGroup(6, 2)])] == [TableState(1, 0, []), TableState(2, 0, []), TableState(3, 0, []), TableState(4, 0, []), TableState(5, 5, [ClientsGroup(5, 1)]), TableState(6, 6, [ClientsGroup(6, 2)])];
    assert s.groupTableMap[2 := 5] == map[1 := 4, 2 := 5];
  }

  lemma SevenStep3()
    ensures ArriveChecked(SevenState2, ClientsGroup(2, 3)) == Step(Ok, SevenState3)
    ensures Arrive(SevenState2, ClientsGroup(2, 3)) == Step(Ok, SevenState3)
  {
    var s := SevenState2;
    assert 3 !in Ids(s.arrivedQueue);
    ArriveAgreesUnlessQueued(s, ClientsGroup(2, 3));
    assert FirstFit(s.tables, EmptyAndLargeEnough, 2) == Some(1);
    assert [] + [ClientsGroup(2, 3)] == [ClientsGroup(2, 3)];
    assert s.tables[1 := TableState(2, 2, [ClientsGroup(2, 3)])] == [TableState(1, 0, []), TableState(2, 2, [ClientsGroup(2, 3)]), TableState(3, 0, []), TableState(4, 0, []), TableState(5, 5, [ClientsGroup(5, 1)]), TableState(6, 6, [ClientsGroup(6, 2)])];
    assert s.groupTableMap[3 := 1] == map[1 := 4, 2 := 5, 3 := 1];
  }

  lemma SevenStep4()
    ensures ArriveChecked(SevenState3, ClientsGroup(3, 4)) == Step(Ok, SevenState4)
    ensures Arrive(SevenState3, ClientsGroup(3, 4)) == Step(Ok, SevenState4)
  {
    var s := SevenState3;
    assert 4 !in Ids(s.arrivedQueue);
    ArriveAgreesUnlessQueued(s, ClientsGroup(3, 4));
    assert FirstFit(s.tables, EmptyAndLargeEnough, 3) == Some(2);
    assert [] + [ClientsGroup(3, 4)] == [ClientsGroup(3, 4)];
    assert s.tables[2 := TableState(3, 3, [ClientsGroup(3, 4)])] == [TableState(1, 0, []), TableState(2, 2, [ClientsGroup(2, 3)]), TableState(3, 3, [ClientsGroup(3, 4)]), TableState(4, 0, []), TableState(5, 5, [ClientsGroup(5, 1)]), TableState(6, 6, [ClientsGroup(6, 2)])];
    assert s.groupTableMap[4 := 2] == map[1 := 4, 2 := 5, 3 := 1, 4 := 2];
  }

  lemma SevenStep5()
    ensures ArriveChecked(SevenState4, ClientsGroup(4, 5)) == Step(Ok, SevenState5)
    ensures Arrive(SevenState4, ClientsGroup(4, 5)) == Step(Ok, SevenState5)
  {
    var s := SevenState4;
    assert 5 !in Ids(s.arrivedQueue);
    ArriveAgreesUnlessQueued(s, ClientsGroup(4, 5));
    assert FirstFit(s.tables, EmptyAndLargeEnough, 4) == Some(3);
    assert [] + [ClientsGroup(4, 5)] == [ClientsGroup(4, 5)];
    assert s.tables[3 := TableState(4, 4, [ClientsGroup(4, 5)])] == [TableState(1, 0, []), TableState(2, 2, [ClientsGroup(2, 3)]), TableState(3, 3, [ClientsGroup(3, 4)]), TableState(4, 4, [ClientsGroup(4, 5)]), TableState(5, 5, [ClientsGroup(5, 1)]), TableState(6, 6, [ClientsGroup(6, 2)])];
    assert s.groupTableMap[5 := 3] == map[1 := 4, 2 := 5, 3 := 1, 4 := 2, 5 := 3];
  }

  lemma SevenStep6()
    ensures ArriveChecked(SevenState5, ClientsGroup(1, 6)) == Step(Ok, SevenState6)
    ensures Arrive(SevenState5, ClientsGroup(1, 6)) == Step(Ok, SevenState6)
  {
    var s := SevenState5;
    assert 6 !in Ids(s.arrivedQueue);
    ArriveAgreesUnlessQueued(s, ClientsGroup(1, 6));
    assert FirstFit(s.tables, EmptyAndLargeEnough, 1) == Some(0);
    assert [] + [ClientsGroup(1, 6)] == [ClientsGroup(1, 6)];
    assert s.tables[0 := TableState(1, 1, [ClientsGroup(1, 6)])] == [TableState(1, 1, [ClientsGroup(1, 6)]), TableState(2, 2, [ClientsGroup(2, 3)]), TableState(3, 3, [ClientsGroup(3, 4)]), TableState(4, 4, [ClientsGroup(4, 5)]), TableState(5, 5, [ClientsGroup(5, 1)]), TableState(6, 6, [ClientsGroup(6, 2)])];
    assert s.groupTableMap[6 := 0] == map[1 := 4, 2 := 5, 3 := 1, 4 := 2, 5 := 3, 6 := 0];
  }

  lemma SevenStep7()
    ensures ArriveChecked(SevenState6, ClientsGroup(1, 7)) == Step(Ok, SevenState7)
    ensures Arrive(SevenState6, ClientsGroup(1, 7)) == Step(Ok, SevenState7)
  {
    var s := SevenState6;
    assert 7 !in Ids(s.arrivedQueue);
    ArriveAgreesUnlessQueued(s, ClientsGroup(1, 7));
    assert FirstFit(s.tables, EmptyAndLargeEnough, 1) == None;
    assert FirstFit(s.tables, SharedWithRoom, 1) == None;
    assert [] + [ClientsGroup(1, 7)] == [ClientsGroup(1, 7)];
  }

  lemma SevenStep8()
    ensures ArriveAll(SimpleStart, SevenGroups) == Step(Ok, SevenState7)
  {
    SevenStep1();
    SevenStep2();
    SevenStep3();
    SevenStep4();
    SevenStep5();
    SevenStep6();
    SevenStep7();
    assert ArriveAll(SevenState7, SevenGroups, 7) == Step(Ok, SevenState7);
    assert ArriveAll(SevenState6, SevenGroups, 6) == Step(Ok, SevenState7);
    assert ArriveAll(SevenState5, SevenGroups, 5) == Step(Ok, SevenState7);
    assert ArriveAll(SevenState4, SevenGroups, 4) == Step(Ok, SevenState7);
    assert ArriveAll(SevenState3, SevenGroups, 3) == Step(Ok, SevenState7);
    assert ArriveAll(SevenState2, SevenGroups, 2) == Step(Ok, SevenState7);
    assert ArriveAll(SevenState1, SevenGroups, 1) == Step(Ok, SevenState7);
    assert ArriveAll(SimpleStart, SevenGroups, 0) == Step(Ok, SevenState7);
  }

  lemma SevenStep9()
    ensures |SevenState7.arrivedQueue| == 1 && Count(SevenState7.tables, FullyOccupied) == 6 && Count(SevenState7.tables, PartiallyOccupied) == 0
  {
  }

  /** Groups of 5, 6, 2, 3, 4, 1, 1 on tables 1..6: every table full, one group queued. */
  lemma SevenGroupsOnSimple()
    ensures var r := ArriveAll(Initial(SimpleCapacity), SevenGroups);
            && r.outcome == Ok && |r.state.arrivedQueue| == 1
            && Count(r.state.tables, FullyOccupied) == 6
            && Count(r.state.tables, PartiallyOccupied) == 0
  {
    SimpleInitial();
    SevenStep8();
    SevenStep9();
  }

  const ElevenGroups := [ClientsGroup(5, 1), ClientsGroup(6, 2), ClientsGroup(6, 3), ClientsGroup(6, 4), ClientsGroup(6, 5), ClientsGroup(4, 6), ClientsGroup(2, 7), ClientsGroup(3, 8), ClientsGroup(4, 9), ClientsGroup(4, 10), ClientsGroup(2, 11)]

  const ElevenState1 := ServiceState(
    [TableState(1, 0, []), TableState(2, 0, []), TableState(3, 0, []), TableState(4, 0, []), TableState(5, 5, [ClientsGroup(5, 1)]), TableState(6, 6, [ClientsGroup(6, 2)])],
    [ClientsGroup(6, 3)],
    map[1 := 4, 2 := 5])
  const ElevenState2 := ServiceState(
    [TableState(1, 0, []), TableState(2, 0, []), TableState(3, 0, []), TableState(4, 0, []), TableState(5, 5, [ClientsGroup(5, 1)]), TableState(6, 6, [ClientsGroup(6, 2)])],
    [ClientsGroup(6, 3), ClientsGroup(6, 4)],
    map[1 := 4, 2 := 5])
  const ElevenState3 := ServiceState(
    [TableState(1, 0, []), TableState(2, 0, []), TableState(3, 0, []), TableState(4, 0, []), TableState(5, 5, [ClientsGroup(5, 1)]), TableState(6, 6, [ClientsGroup(6, 2)])],
    [ClientsGroup(6, 3), ClientsGroup(6, 4), ClientsGroup(6, 5)],
    map[1 := 4, 2 := 5])
  const ElevenState4 := ServiceState(
    [TableState(1, 0, []), TableState(2, 0, []), TableState(3, 0, []), TableState(4, 4, [ClientsGroup(4, 6)]), TableState(5, 5, [ClientsGroup(5, 1)]), TableState(6, 6, [ClientsGroup(6, 2)])],
    [ClientsGroup(6, 3), ClientsGroup(6, 4), ClientsGroup(6, 5)],
    map[1 := 4, 2 := 5, 6 := 3])
  const ElevenState5 := ServiceState(
    [TableState(1, 0, []), TableState(2, 2, [ClientsGroup(2, 7)]), TableState(3, 0, []), TableState(4, 4, [ClientsGroup(4, 6)]), TableState(5, 5, [ClientsGroup(5, 1)]), TableState(6, 6, [ClientsGroup(6, 2)])],
    [ClientsGroup(6, 3), ClientsGroup(6, 4), ClientsGroup(6, 5)],
    map[1 := 4, 2 := 5, 6 := 3, 7 := 1])
  const ElevenState6 := ServiceState(
    [TableState(1, 0, []), TableState(2, 2, [ClientsGroup(2, 7)]), TableState(3, 3, [ClientsGroup(3, 8)]), TableState(4, 4, [ClientsGroup(4, 6)]), TableState(5, 5, [ClientsGroup(5, 1)]), TableState(6, 6, [ClientsGroup(6, 2)])],
    [ClientsGroup(6, 3), ClientsGroup(6, 4), ClientsGroup(6, 5)],
    map[1 := 4, 2 := 5, 6 := 3, 7 := 1, 8 := 2])
  const ElevenState7 := ServiceState(
    [TableState(1, 0, []), TableState(2, 2, [ClientsGroup(2, 7)]), TableState(3, 3, [ClientsGroup(3, 8)]), TableState(4, 4, [ClientsGroup(4, 6)]), TableState(5, 5, [ClientsGroup(5, 1)]), TableState(6, 6, [ClientsGroup(6, 2)])],
    [ClientsGroup(6, 3), ClientsGroup(6, 4), ClientsGroup(6, 5), ClientsGroup(4, 9)],
    map[1 := 4, 2 := 5, 6 := 3, 7 := 1, 8 := 2])
  const ElevenState8 := ServiceState(
    [TableState(1, 0, []), TableState(2, 2, [ClientsGroup(2, 7)]), TableState(3, 3, [ClientsGroup(3, 8)]), TableState(4, 4, [ClientsGroup(4, 6)]), TableState(5, 5, [ClientsGroup(5, 1)]), TableState(6, 6, [ClientsGroup(6, 2)])],
    [ClientsGroup(6, 3), ClientsGroup(6, 4), ClientsGroup(6, 5), ClientsGroup(4, 9), ClientsGroup(4, 10)],
    map[1 := 4, 2 := 5, 6 := 3, 7 := 1, 8 := 2])
  const ElevenState9 := ServiceState(
    [TableState(1, 0, []), TableState(2, 2, [ClientsGroup(2, 7)]), TableState(3, 3, [ClientsGroup(3, 8)]), TableState(4, 4, [ClientsGroup(4, 6)]), TableState(5, 5, [ClientsGroup(5, 1)]), TableState(6, 6, [ClientsGroup(6, 2)])],
    [ClientsGroup(6, 3), ClientsGroup(6, 4), ClientsGroup(6, 5), ClientsGroup(4, 9), ClientsGroup(4, 10), ClientsGroup(2, 11)],
    map[1 := 4, 2 := 5, 6 := 3, 7 := 1, 8 := 2])
  const ElevenState10 := ServiceState(
    [TableState(1, 0, []), TableState(2, 2, [ClientsGroup(2, 7)]), TableState(3, 3, [ClientsGroup(3, 8)]), TableState(4, 4, [ClientsGroup(4, 6)]), TableState(5, 5, [ClientsGroup(5, 1)]), TableState(6, 0, [])],
    [ClientsGroup(6, 3), ClientsGroup(6, 4), ClientsGroup(6, 5), ClientsGroup(4, 9), ClientsGroup(4, 10), ClientsGroup(2, 11)],
    map[1 := 4, 6 := 3, 7 := 1, 8 := 2])
  const ElevenState11 := ServiceState(
    [TableState(1, 0, []), TableState(2, 2, [ClientsGroup(2, 7)]), TableState(3, 3, [ClientsGroup(3, 8)]), TableState(4, 4, [ClientsGroup(4, 6)]), TableState(5, 5, [ClientsGroup(5, 1)]), TableState(6, 0, [])],
    [ClientsGroup(6, 3), ClientsGroup(6, 4), ClientsGroup(6, 5), ClientsGroup(4, 9), ClientsGroup(4, 10)],
    map[1 := 4, 6 := 3, 7 := 1, 8 := 2])
  const ElevenState12 := ServiceState(
    [TableState(1, 0, []), TableState(2, 2, [ClientsGroup(2, 7)]), TableState(3, 3, [ClientsGroup(3, 8)]), TableState(4, 4, [ClientsGroup(4, 6)]), TableState(5, 5, [ClientsGroup(5, 1)]), TableState(6, 2, [ClientsGroup(2, 11)])],
    [ClientsGroup(6, 3), ClientsGroup(6, 4), ClientsGroup(6, 5), ClientsGroup(4, 9), ClientsGroup(4, 10)],
    map[1 := 4, 6 := 3, 7 := 1, 8 := 2, 11 := 5])
  const ElevenState13 := ServiceState(
    [TableState(1, 0, []), TableState(2, 2, [ClientsGroup(2, 7)]), TableState(3, 3, [ClientsGroup(3, 8)]), TableState(4, 4, [ClientsGroup(4, 6)]), TableState(5, 5, [ClientsGroup(5, 1)]), TableState(6, 2, [ClientsGroup(2, 11)])],
    [ClientsGroup(6, 3), ClientsGroup(6, 4), ClientsGroup(6, 5), ClientsGroup(4, 10)],
    map[1 := 4, 6 := 3, 7 := 1, 8 := 2, 11 := 5])
  const ElevenState14 := ServiceState(
    [TableState(1, 0, []), TableState(2, 2, [ClientsGroup(2, 7)]), TableState(3, 3, [ClientsGroup(3, 8)]), TableState(4, 4, [ClientsGroup(4, 6)]), TableState(5, 5, [ClientsGroup(5, 1)]), TableState(6, 6, [ClientsGroup(2, 11), ClientsGroup(4, 9)])],
    [ClientsGroup(6, 3), ClientsGroup(6, 4), ClientsGroup(6, 5), ClientsGroup(4, 10)],
    map[1 := 4, 6 := 3, 7 := 1, 8 := 2, 9 := 5, 11 := 5])

  lemma ProcessCase1Step1()
    ensures ArriveChecked(SimpleStart, ClientsGroup(5, 1)) == Step(Ok, SevenState1)
    ensures Arrive(SimpleStart, ClientsGroup(5, 1)) == Step(Ok, SevenState1)
  {
    var s := SimpleStart;
    assert 1 !in Ids(s.arrivedQueue);
    ArriveAgreesUnlessQueued(s, ClientsGroup(5, 1));
    assert FirstFit(s.tables, EmptyAndLargeEnough, 5) == Some(4);
    assert [] + [ClientsGroup(5, 1)] == [ClientsGroup(5, 1)];
    assert s.tables[4 := TableState(5, 5, [ClientsGroup(5, 1)])] == [TableState(1, 0, []), TableState(2, 0, []), TableState(3, 0, []), TableState(4, 0, []), TableState(5, 5, [ClientsGroup(5, 1)]), TableState(6, 0, [])];
    assert s.groupTableMap[1 := 4] == map[1 := 4];
  }

  lemma ProcessCase1Step2()
    ensures ArriveChecked(SevenState1, ClientsGroup(6, 2)) == Step(Ok, SevenState2)
    ensures Arrive(SevenState1, ClientsGroup(6, 2)) == Step(Ok, SevenState2)
  {
    var s := SevenState1;
    assert 2 !in Ids(s.arrivedQueue);
    ArriveAgreesUnlessQueued(s, ClientsGroup(6, 2));
    assert FirstFit(s.tables, EmptyAndLargeEnough, 6) == Some(5);
    assert [] + [ClientsGroup(6, 2)] == [ClientsGroup(6, 2)];
    assert s.tables[5 := TableState(6, 6, [ClientsGroup(6, 2)])] == [TableState(1, 0, []), TableState(2, 0, []), TableState(3, 0, []), TableState(4, 0, []), TableState(5, 5, [ClientsGroup(5, 1)]), TableState(6, 6, [ClientsGroup(6, 2)])];
    assert s.groupTableMap[2 := 5] == map[1 := 4, 2 := 5];
  }

  lemma ProcessCase1Step3()
    ensures ArriveChecked(SevenState2, ClientsGroup(6, 3)) == Step(Ok, ElevenState1)
    ensures Arrive(SevenState2, ClientsGroup(6, 3)) == Step(Ok, ElevenState1)
  {
    var s := SevenState2;
    assert 3 !in Ids(s.arrivedQueue);
    ArriveAgreesUnlessQueued(s, ClientsGroup(6, 3));
    assert FirstFit(s.tables, EmptyAndLargeEnough, 6) == None;
    assert FirstFit(s.tables, SharedWithRoom, 6) == None;
    assert [] + [ClientsGroup(6, 3)] == [ClientsGroup(6, 3)];
  }

  lemma ProcessCase1Step4()
    ensures ArriveChecked(ElevenState1, ClientsGroup(6, 4)) == Step(Ok, ElevenState2)
    ensures Arrive(ElevenState1, ClientsGroup(6, 4)) == Step(Ok, ElevenState2)
  {
    var s := ElevenState1;
    assert 4 !in Ids(s.arrivedQueue);
    ArriveAgreesUnlessQueued(s, ClientsGroup(6, 4));
    assert FirstFit(s.tables, EmptyAndLargeEnough, 6) == None;
    assert FirstFit(s.tables, SharedWithRoom, 6) == None;
    assert [ClientsGroup(6, 3)] + [ClientsGroup(6, 4)] == [ClientsGroup(6, 3), ClientsGroup(6, 4)];
  }

  lemma ProcessCase1Step5()
    ensures ArriveChecked(ElevenState2, ClientsGroup(6, 5)) == Step(Ok, ElevenState3)
    ensures Arrive(ElevenState2, ClientsGroup(6, 5)) == Step(Ok, ElevenState3)
  {
    var s := ElevenState2;
    assert 5 !in Ids(s.arrivedQueue);
    ArriveAgreesUnlessQueued(s, ClientsGroup(6, 5));
    assert FirstFit(s.tables, EmptyAndLargeEnough, 6) == None;
    assert FirstFit(s.tables, SharedWithRoom, 6) == None;
    assert [ClientsGroup(6, 3), ClientsGroup(6, 4)] + [ClientsGroup(6, 5)] == [ClientsGroup(6, 3), ClientsGroup(6, 4), ClientsGroup(6, 5)];
  }

  lemma ProcessCase1Step6()
    ensures ArriveChecked(ElevenState3, ClientsGroup(4, 6)) == Step(Ok, ElevenState4)
    ensures Arrive(ElevenState3, ClientsGroup(4, 6)) == Step(Ok, ElevenState4)
  {
    var s := ElevenState3;
    assert 6 !in Ids(s.arrivedQueue);
    ArriveAgreesUnlessQueued(s, ClientsGroup(4, 6));
    assert FirstFit(s.tables, EmptyAndLargeEnough, 4) == Some(3);
    assert [] + [ClientsGroup(4, 6)] == [ClientsGroup(4, 6)];
    assert s.tables[3 := TableState(4, 4, [ClientsGroup(4, 6)])] == [TableState(1, 0, []), TableState(2, 0, []), TableState(3, 0, []), TableState(4, 4, [ClientsGroup(4, 6)]), TableState(5, 5, [ClientsGroup(5, 1)]), TableState(6, 6, [ClientsGroup(6, 2)])];
    assert s.groupTableMap[6 := 3] == map[1 := 4, 2 := 5, 6 := 3];
  }

  lemma ProcessCase1Step7()
    ensures ArriveChecked(ElevenState4, ClientsGroup(2, 7)) == Step(Ok, ElevenState5)
    ensures Arrive(ElevenState4, ClientsGroup(2, 7)) == Step(Ok, ElevenState5)
  {
    var s := ElevenState4;
    assert 7 !in Ids(s.arrivedQueue);
    ArriveAgreesUnlessQueued(s, ClientsGroup(2, 7));
    assert FirstFit(s.tables, EmptyAndLargeEnough, 2) == Some(1);
    assert [] + [ClientsGroup(2, 7)] == [ClientsGroup(2, 7)];
    assert s.tables[1 := TableState(2, 2, [ClientsGroup(2, 7)])] == [TableState(1, 0, []), TableState(2, 2, [ClientsGroup(2, 7)]), TableState(3, 0, []), TableState(4, 4, [ClientsGroup(4, 6)]), TableState(5, 5, [ClientsGroup(5, 1)]), TableState(6, 6, [ClientsGroup(6, 2)])];
    assert s.groupTableMap[7 := 1] == map[1 := 4, 2 := 5, 6 := 3, 7 := 1];
  }

  lemma ProcessCase1Step8()
    ensures ArriveChecked(ElevenState5, ClientsGroup(3, 8)) == Step(Ok, ElevenState6)
    ensures Arrive(ElevenState5, ClientsGroup(3, 8)) == Step(Ok, ElevenState6)
  {
    var s := ElevenState5;
    assert 8 !in Ids(s.arrivedQueue);
    ArriveAgreesUnlessQueued(s, ClientsGroup(3, 8));
    assert FirstFit(s.tables, EmptyAndLargeEnough, 3) == Some(2);
    assert [] + [ClientsGroup(3, 8)] == [ClientsGroup(3, 8)];
    assert s.tables[2 := TableState(3, 3, [ClientsGroup(3, 8)])] == [TableState(1, 0, []), TableState(2, 2, [ClientsGroup(2, 7)]), TableState(3, 3, [ClientsGroup(3, 8)]), TableState(4, 4, [ClientsGroup(4, 6)]), TableState(5, 5, [ClientsGroup(5, 1)]), TableState(6, 6, [ClientsGroup(6, 2)])];
    assert s.groupTableMap[8 := 2] == map[1 := 4, 2 := 5, 6 := 3, 7 := 1, 8 := 2];
  }

  lemma ProcessCase1Step9()
    ensures ArriveChecked(ElevenState6, ClientsGroup(4, 9)) == Step(Ok, ElevenState7)
    ensures Arrive(ElevenState6, ClientsGroup(4, 9)) == Step(Ok, ElevenState7)
  {
    var s := ElevenState6;
    assert 9 !in Ids(s.arrivedQueue);
    ArriveAgreesUnlessQueued(s, ClientsGroup(4, 9));
    assert FirstFit(s.tables, EmptyAndLargeEnough, 4) == None;
    assert FirstFit(s.tables, SharedWithRoom, 4) == None;
    assert [ClientsGroup(6, 3), ClientsGroup(6, 4), ClientsGroup(6, 5)] + [ClientsGroup(4, 9)] == [ClientsGroup(6, 3), ClientsGroup(6, 4), ClientsGroup(6, 5), ClientsGroup(4, 9)];
  }

  lemma ProcessCase1Step10()
    ensures ArriveChecked(ElevenState7, ClientsGroup(4, 10)) == Step(Ok, ElevenState8)
    ensures Arrive(ElevenState7, ClientsGroup(4, 10)) == Step(Ok, ElevenState8)
  {
    var s := ElevenState7;
    assert 10 !in Ids(s.arrivedQueue);
    ArriveAgreesUnlessQueued(s, ClientsGroup(4, 10));
    assert FirstFit(s.tables, EmptyAndLargeEnough, 4) == None;
    assert FirstFit(s.tables, SharedWithRoom, 4) == None;
    assert [ClientsGroup(6, 3), ClientsGroup(6, 4), ClientsGroup(6, 5), ClientsGroup(4, 9)] + [ClientsGroup(4, 10)] == [ClientsGroup(6, 3), ClientsGroup(6, 4), ClientsGroup(6, 5), ClientsGroup(4, 9), ClientsGroup(4, 10)];
  }

  lemma ProcessCase1Step11()
    ensures ArriveChecked(ElevenState8, ClientsGroup(2, 11)) == Step(Ok, ElevenState9)
    ensures Arrive(ElevenState8, ClientsGroup(2, 11)) == Step(Ok, ElevenState9)
  {
    var s := ElevenState8;
    assert 11 !in Ids(s.arrivedQueue);
    ArriveAgreesUnlessQueued(s, ClientsGroup(2, 11));
    assert FirstFit(s.tables, EmptyAndLargeEnough, 2) == None;
    assert FirstFit(s.tables, SharedWithRoom, 2) == None;
    assert [ClientsGroup(6, 3), ClientsGroup(6, 4), ClientsGroup(6, 5), ClientsGroup(4, 9), ClientsGroup(4, 10)] + [ClientsGroup(2, 11)] == [ClientsGroup(6, 3), ClientsGroup(6, 4), ClientsGroup(6, 5), ClientsGroup(4, 9), ClientsGroup(4, 10), ClientsGroup(2, 11)];
  }

  lemma ProcessCase1Step12()
    ensures ArriveAll(SimpleStart, ElevenGroups) == Step(Ok, ElevenState9)
  {
    ProcessCase1Step1();
    ProcessCase1Step2();
    ProcessCase1Step3();
    ProcessCase1Step4();
    ProcessCase1Step5();
    ProcessCase1Step6();
    ProcessCase1Step7();
    ProcessCase1Step8();
    ProcessCase1Step9();
    ProcessCase1Step10();
    ProcessCase1Step11();
    assert ArriveAll(ElevenState9, ElevenGroups, 11) == Step(Ok, ElevenState9);
    assert ArriveAll(ElevenState8, ElevenGroups, 10) == Step(Ok, ElevenState9);
    assert ArriveAll(ElevenState7, ElevenGroups, 9) == Step(Ok, ElevenState9);
    assert ArriveAll(ElevenState6, ElevenGroups, 8) == Step(Ok, ElevenState9);
    assert ArriveAll(ElevenState5, ElevenGroups, 7) == Step(Ok, ElevenState9);
    assert ArriveAll(ElevenState4, ElevenGroups, 6) == Step(Ok, ElevenState9);
    assert ArriveAll(ElevenState3, ElevenGroups, 5) == Step(Ok, ElevenState9);
    assert ArriveAll(ElevenState2, ElevenGroups, 4) == Step(Ok, ElevenState9);
    assert ArriveAll(ElevenState1, ElevenGroups, 3) == Step(Ok, ElevenState9);
    assert ArriveAll(SevenState2, ElevenGroups, 2) == Step(Ok, ElevenState9);
    assert ArriveAll(SevenState1, ElevenGroups, 1) == Step(Ok, ElevenState9);
    assert ArriveAll(SimpleStart, ElevenGroups, 0) == Step(Ok, ElevenState9);
  }

  lemma ProcessCase1Step13()
    ensures FindGroup([ClientsGroup(6, 2)], 2) == Some(0)
  {
  }

  lemma ProcessCase1Step14()
    ensures GetRidOfTheGroup(ElevenState9, 5, 0) == ElevenState10
  {
    var s := ElevenState9;
    assert RemoveAt([ClientsGroup(6, 2)], 0) == [];
    assert s.tables[5 := TableState(6, 0, [])] == [TableState(1, 0, []), TableState(2, 2, [ClientsGroup(2, 7)]), TableState(3, 3, [ClientsGroup(3, 8)]), TableState(4, 4, [ClientsGroup(4, 6)]), TableState(5, 5, [ClientsGroup(5, 1)]), TableState(6, 0, [])];
    assert s.groupTableMap - {2} == map[1 := 4, 6 := 3, 7 := 1, 8 := 2];
  }

  lemma ProcessCase1Step15()
    ensures Dequeue([ClientsGroup(6, 3), ClientsGroup(6, 4), ClientsGroup(6, 5), ClientsGroup(4, 9), ClientsGroup(4, 10), ClientsGroup(2, 11)]) == (ClientsGroup(2, 11), [ClientsGroup(6, 3), ClientsGroup(6, 4), ClientsGroup(6, 5), ClientsGroup(4, 9), ClientsGroup(4, 10)])
  {
    assert MinIndex([ClientsGroup(6, 3), ClientsGroup(6, 4), ClientsGroup(6, 5), ClientsGroup(4, 9), ClientsGroup(4, 10), ClientsGroup(2, 11)]) == 5;
    assert RemoveAt([ClientsGroup(6, 3), ClientsGroup(6, 4), ClientsGroup(6, 5), ClientsGroup(4, 9), ClientsGroup(4, 10), ClientsGroup(2, 11)], 5) == [ClientsGroup(6, 3), ClientsGroup(6, 4), ClientsGroup(6, 5), ClientsGroup(4, 9), ClientsGroup(4, 10)];
  }

  lemma ProcessCase1Step16()
    ensures ElevenState10.(arrivedQueue := [ClientsGroup(6, 3), ClientsGroup(6, 4), ClientsGroup(6, 5), ClientsGroup(4, 9), ClientsGroup(4, 10)]) == ElevenState11
  {
  }

  lemma ProcessCase1Step17()
    ensures TryFitGroupFromQueue(ElevenState11, ClientsGroup(2, 11)) == (Step(Ok, ElevenState12), true)
  {
    var s := ElevenState11;
    assert FirstFit(s.tables, AnyWithRoom, 2) == Some(5);
    assert [] + [ClientsGroup(2, 11)] == [ClientsGroup(2, 11)];
    assert s.tables[5 := TableState(6, 2, [ClientsGroup(2, 11)])] == [TableState(1, 0, []), TableState(2, 2, [ClientsGroup(2, 7)]), TableState(3, 3, [ClientsGroup(3, 8)]), TableState(4, 4, [ClientsGroup(4, 6)]), TableState(5, 5, [ClientsGroup(5, 1)]), TableState(6, 2, [ClientsGroup(2, 11)])];
    assert s.groupTableMap[11 := 5] == map[1 := 4, 6 := 3, 7 := 1, 8 := 2, 11 := 5];
  }

  lemma ProcessCase1Step18()
    ensures Peek([ClientsGroup(6, 3), ClientsGroup(6, 4), ClientsGroup(6, 5), ClientsGroup(4, 9), ClientsGroup(4, 10)]) == ClientsGroup(4, 9)
  {
    assert MinIndex([ClientsGroup(6, 3), ClientsGroup(6, 4), ClientsGroup(6, 5), ClientsGroup(4, 9), ClientsGroup(4, 10)]) == 3;
  }

  lemma ProcessCase1Step19()
    ensures SweepRound(ElevenState10, 6) == (Step(Ok, ElevenState12), 4, true)
  {
    ProcessCase1Step15();
    ProcessCase1Step16();
    ProcessCase1Step17();
    ProcessCase1Step18();
    RoundFromFit(ElevenState10, 6, ElevenState12, true);
  }

  lemma ProcessCase1Step20()
    ensures Dequeue([ClientsGroup(6, 3), ClientsGroup(6, 4), ClientsGroup(6, 5), ClientsGroup(4, 9), ClientsGroup(4, 10)]) == (ClientsGroup(4, 9), [ClientsGroup(6, 3), ClientsGroup(6, 4), ClientsGroup(6, 5), ClientsGroup(4, 10)])
  {
    assert MinIndex([ClientsGroup(6, 3), ClientsGroup(6, 4), ClientsGroup(6, 5), ClientsGroup(4, 9), ClientsGroup(4, 10)]) == 3;
    assert RemoveAt([ClientsGroup(6, 3), ClientsGroup(6, 4), ClientsGroup(6, 5), ClientsGroup(4, 9), ClientsGroup(4, 10)], 3) == [ClientsGroup(6, 3), ClientsGroup(6, 4), ClientsGroup(6, 5), ClientsGroup(4, 10)];
  }

  lemma ProcessCase1Step21()
    ensures ElevenState12.(arrivedQueue := [ClientsGroup(6, 3), ClientsGroup(6, 4), ClientsGroup(6, 5), ClientsGroup(4, 10)]) == ElevenState13
  {
  }

  lemma ProcessCase1Step22()
    ensures TryFitGroupFromQueue(ElevenState13, ClientsGroup(4, 9)) == (Step(Ok, ElevenState14), true)
  {
    var s := ElevenState13;
    assert FirstFit(s.tables, AnyWithRoom, 4) == Some(5);
    assert [ClientsGroup(2, 11)] + [ClientsGroup(4, 9)] == [ClientsGroup(2, 11), ClientsGroup(4, 9)];
    assert s.tables[5 := TableState(6, 6, [ClientsGroup(2, 11), ClientsGroup(4, 9)])] == [TableState(1, 0, []), TableState(2, 2, [ClientsGroup(2, 7)]), TableState(3, 3, [ClientsGroup(3, 8)]), TableState(4, 4, [ClientsGroup(4, 6)]), TableState(5, 5, [ClientsGroup(5, 1)]), TableState(6, 6, [ClientsGroup(2, 11), ClientsGroup(4, 9)])];
    assert s.groupTableMap[9 := 5] == map[1 := 4, 6 := 3, 7 := 1, 8 := 2, 9 := 5, 11 := 5];
  }

  lemma ProcessCase1Step23()
    ensures Peek([ClientsGroup(6, 3), ClientsGroup(6, 4), ClientsGroup(6, 5), ClientsGroup(4, 10)]) == ClientsGroup(4, 10)
  {
    assert MinIndex([ClientsGroup(6, 3), ClientsGroup(6, 4), ClientsGroup(6, 5), ClientsGroup(4, 10)]) == 3;
  }

  lemma ProcessCase1Step24()
    ensures SweepRound(ElevenState12, 4) == (Step(Ok, ElevenState14), 0, false)
  {
    ProcessCase1Step20();
    ProcessCase1Step21();
    ProcessCase1Step22();
    ProcessCase1Step23();
    RoundFromFit(ElevenState12, 4, ElevenState14, true);
  }

  lemma ProcessCase1Step25()
    ensures Leave(ElevenState9, ClientsGroup(6, 2)) == Step(Ok, ElevenState14)
  {
    ProcessCase1Step13();
    ProcessCase1Step14();
    ProcessCase1Step19();
    ProcessCase1Step24();
    assert Sweep(ElevenState12, 4) == Step(Ok, ElevenState14);
    assert Sweep(ElevenState10, 6) == Step(Ok, ElevenState14);
  }

  lemma ProcessCase1Step26()
    ensures |ElevenState9.arrivedQueue| == 6
  {
  }

  lemma ProcessCase1Step27()
    ensures |ElevenState14.arrivedQueue| == 4 && 9 in ElevenState14.groupTableMap && 10 !in ElevenState14.groupTableMap
  {
  }

  /**
   * Eleven arrivals on tables 1..6 leave six groups queued. When the group of
   * six leaves, the sweep seats the group of two and then group 9, the earlier
   * of the two groups of four; four groups stay queued.
   */
  lemma ProcessCase1()
    ensures var arrived := ArriveAll(Initial(SimpleCapacity), ElevenGroups);
            && arrived.outcome == Ok && |arrived.state.arrivedQueue| == 6
            && var left := Leave(arrived.state, ClientsGroup(6, 2));
               && left.outcome == Ok && |left.state.arrivedQueue| == 4
               && Lookup(left.state, 9).Some? && Lookup(left.state, 10).None?
  {
    SimpleInitial();
    ProcessCase1Step12();
    ProcessCase1Step25();
    ProcessCase1Step26();
    ProcessCase1Step27();
  }

  // ---------------------------------------------------------------------------
  // Tables of sizes 1 and 2

  const SmallCapacity := TablesConfiguration([1, 2])

  const SmallStart := ServiceState(
    [TableState(1, 0, []), TableState(2, 0, [])],
    [], map[])

  lemma SmallInitial()
    ensures Initial(SmallCapacity) == SmallStart
  {
    assert SmallCapacity.Tables() == SmallStart.tables;
  }

  const SmallState1 := ServiceState(
    [TableState(1, 0, []), TableState(2, 0, [])],
    [ClientsGroup(5, 5)],
    map[])
  const SmallState2 := ServiceState(
    [TableState(1, 0, []), TableState(2, 0, [])],
    [ClientsGroup(6, 6)],
    map[])

  lemma TooLargeStep1()
    ensures ArriveChecked(SmallStart, ClientsGroup(5, 5)) == Step(Ok, SmallState1)
    ensures Arrive(SmallStart, ClientsGroup(5, 5)) == Step(Ok, SmallState1)
  {
    var s := SmallStart;
    assert 5 !in Ids(s.arrivedQueue);
    ArriveAgreesUnlessQueued(s, ClientsGroup(5, 5));
    assert FirstFit(s.tables, EmptyAndLargeEnough, 5) == None;
    assert FirstFit(s.tables, SharedWithRoom, 5) == None;
    assert [] + [ClientsGroup(5, 5)] == [ClientsGroup(5, 5)];
  }

  lemma TooLargeStep2()
    ensures |SmallState1.arrivedQueue| == 1 && Count(SmallState1.tables, FullyAvailable) == 2
  {
  }

  lemma TooLargeStep3()
    ensures ArriveChecked(SmallStart, ClientsGroup(6, 6)) == Step(Ok, SmallState2)
    ensures Arrive(SmallStart, ClientsGroup(6, 6)) == Step(Ok, SmallState2)
  {
    var s := SmallStart;
    assert 6 !in Ids(s.arrivedQueue);
    ArriveAgreesUnlessQueued(s, ClientsGroup(6, 6));
    assert FirstFit(s.tables, EmptyAndLargeEnough, 6) == None;
    assert FirstFit(s.tables, SharedWithRoom, 6) == None;
    assert [] + [ClientsGroup(6, 6)] == [ClientsGroup(6, 6)];
  }

  lemma TooLargeStep4()
    ensures |SmallState2.arrivedQueue| == 1 && Count(SmallState2.tables, FullyAvailable) == 2
  {
  }

  /** A group of 5 or 6 finds no table among sizes 1 and 2: it is queued and every table stays available. */
  lemma TooLargeGroupQueues(k: int)
    requires k == 5 || k == 6
    ensures var r := ArriveChecked(Initial(SmallCapacity), ClientsGroup(k, k));
            && r.outcome == Ok && |r.state.arrivedQueue| == 1
            && Count(r.state.tables, FullyAvailable) == 2
  {
    SmallInitial();
    if k == 5 {
      TooLargeStep1(); TooLargeStep2();
    } else {
      TooLargeStep3(); TooLargeStep4();
    }
  }

  // ---------------------------------------------------------------------------
  // Tables of sizes 4, 5, 6, 4, 5, 6

  const LargeScaleCapacity := TablesConfiguration([4, 5, 6, 4, 5, 6])

  const LargeScaleStart := ServiceState(
    [TableState(4, 0, []), TableState(5, 0, []), TableState(6, 0, []), TableState(4, 0, []), TableState(5, 0, []), TableState(6, 0, [])],
    [], map[])

  lemma LargeScaleInitial()
    ensures Initial(LargeScaleCapacity) == LargeScaleStart
  {
    assert LargeScaleCapacity.Tables() == LargeScaleStart.tables;
  }

  const LargeState1 := ServiceState(
    [TableState(4, 0, []), TableState(5, 5, [ClientsGroup(5, 1)]), TableState(6, 0, []), TableState(4, 0, []), TableState(5, 0, []), TableState(6, 0, [])],
    [],
    map[1 := 1])
  const LargeState2 := ServiceState(
    [TableState(4, 0, []), TableState(5, 5, [ClientsGroup(5, 1)]), TableState(6, 6, [ClientsGroup(6, 2)]), TableState(4, 0, []), TableState(5, 0, []), TableState(6, 0, [])],
    [],
    map[1 := 1, 2 := 2])
  const LargeState3 := ServiceState(
    [TableState(4, 2, [ClientsGroup(2, 3)]), TableState(5, 5, [ClientsGroup(5, 1)]), TableState(6, 6, [ClientsGroup(6, 2)]), TableState(4, 0, []), TableState(5, 0, []), TableState(6, 0, [])],
    [],
    map[1 := 1, 2 := 2, 3 := 0])
  const LargeState4 := ServiceState(
    [TableState(4, 2, [ClientsGroup(2, 3)]), TableState(5, 5, [ClientsGroup(5, 1)]), TableState(6, 6, [ClientsGroup(6, 2)]), TableState(4, 3, [ClientsGroup(3, 4)]), TableState(5, 0, []), TableState(6, 0, [])],
    [],
    map[1 := 1, 2 := 2, 3 := 0, 4 := 3])
  const LargeState5 := ServiceState(
    [TableState(4, 2, [ClientsGroup(2, 3)]), TableState(5, 5, [ClientsGroup(5, 1)]), TableState(6, 6, [ClientsGroup(6, 2)]), TableState(4, 3, [ClientsGroup(3, 4)]), TableState(5, 4, [ClientsGroup(4, 5)]), TableState(6, 0, [])],
    [],
    map[1 := 1, 2 := 2, 3 := 0, 4 := 3, 5 := 4])
  const LargeState6 := ServiceState(
    [TableState(4, 2, [ClientsGroup(2, 3)]), TableState(5, 5, [ClientsGroup(5, 1)]), TableState(6, 6, [ClientsGroup(6, 2)]), TableState(4, 3, [ClientsGroup(3, 4)]), TableState(5, 4, [ClientsGroup(4, 5)]), TableState(6, 1, [ClientsGroup(1, 6)])],
    [],
    map[1 := 1, 2 := 2, 3 := 0, 4 := 3, 5 := 4, 6 := 5])
  const LargeState7 := ServiceState(
    [TableState(4, 3, [ClientsGroup(2, 3), ClientsGroup(1, 7)]), TableState(5, 5, [ClientsGroup(5, 1)]), TableState(6, 6, [ClientsGroup(6, 2)]), TableState(4, 3, [ClientsGroup(3, 4)]), TableState(5, 4, [ClientsGroup(4, 5)]), TableState(6, 1, [ClientsGroup(1, 6)])],
    [],
    map[1 := 1, 2 := 2, 3 := 0, 4 := 3, 5 := 4, 6 := 5, 7 := 0])

  lemma SevenLargeStep1()
    ensures ArriveChecked(LargeScaleStart, ClientsGroup(5, 1)) == Step(Ok, LargeState1)
    ensures Arrive(LargeScaleStart, ClientsGroup(5, 1)) == Step(Ok, LargeState1)
  {
    var s := LargeScaleStart;
    assert 1 !in Ids(s.arrivedQueue);
    ArriveAgreesUnlessQueued(s, ClientsGroup(5, 1));
    assert FirstFit(s.tables, EmptyAndLargeEnough, 5) == Some(1);
    assert [] + [ClientsGroup(5, 1)] == [ClientsGroup(5, 1)];
    assert s.tables[1 := TableState(5, 5, [ClientsGroup(5, 1)])] == [TableState(4, 0, []), TableState(5, 5, [ClientsGroup(5, 1)]), TableState(6, 0, []), TableState(4, 0, []), TableState(5, 0, []), TableState(6, 0, [])];
    assert s.groupTableMap[1 := 1] == map[1 := 1];
  }

  lemma SevenLargeStep2()
    ensures ArriveChecked(LargeState1, ClientsGroup(6, 2)) == Step(Ok, LargeState2)
    ensures Arrive(LargeState1, ClientsGroup(6, 2)) == Step(Ok, LargeState2)
  {
    var s := LargeState1;
    assert 2 !in Ids(s.arrivedQueue);
    ArriveAgreesUnlessQueued(s, ClientsGroup(6, 2));
    assert FirstFit(s.tables, EmptyAndLargeEnough, 6) == Some(2);
    assert [] + [ClientsGroup(6, 2)] == [ClientsGroup(6, 2)];
    assert s.tables[2 := TableState(6, 6, [ClientsGroup(6, 2)])] == [TableState(4, 0, []), TableState(5, 5, [ClientsGroup(5, 1)]), TableState(6, 6, [ClientsGroup(6, 2)]), TableState(4, 0, []), TableState(5, 0, []), TableState(6, 0, [])];
    assert s.groupTableMap[2 := 2] == map[1 := 1, 2 := 2];
  }

  lemma SevenLargeStep3()
    ensures ArriveChecked(LargeState2, ClientsGroup(2, 3)) == Step(Ok, LargeState3)
    ensures Arrive(LargeState2, ClientsGroup(2, 3)) == Step(Ok, LargeState3)
  {
    var s := LargeState2;
    assert 3 !in Ids(s.arrivedQueue);
    ArriveAgreesUnlessQueued(s, ClientsGroup(2, 3));
    assert FirstFit(s.tables, EmptyAndLargeEnough, 2) == Some(0);
    assert [] + [ClientsGroup(2, 3)] == [ClientsGroup(2, 3)];
    assert s.tables[0 := TableState(4, 2, [ClientsGroup(2, 3)])] == [TableState(4, 2, [ClientsGroup(2, 3)]), TableState(5, 5, [ClientsGroup(5, 1)]), TableState(6, 6, [ClientsGroup(6, 2)]), TableState(4, 0, []), TableState(5, 0, []), TableState(6, 0, [])];
    assert s.groupTableMap[3 := 0] == map[1 := 1, 2 := 2, 3 := 0];
  }

  lemma SevenLargeStep4()
    ensures ArriveChecked(LargeState3, ClientsGroup(3, 4)) == Step(Ok, LargeState4)
    ensures Arrive(LargeState3, ClientsGroup(3, 4)) == Step(Ok, LargeState4)
  {
    var s := LargeState3;
    assert 4 !in Ids(s.arrivedQueue);
    ArriveAgreesUnlessQueued(s, ClientsGroup(3, 4));
    assert FirstFit(s.tables, EmptyAndLargeEnough, 3) == Some(3);
    assert [] + [ClientsGroup(3, 4)] == [ClientsGroup(3, 4)];
    assert s.tables[3 := TableState(4, 3, [ClientsGroup(3, 4)])] == [TableState(4, 2, [ClientsGroup(2, 3)]), TableState(5, 5, [ClientsGroup(5, 1)]), TableState(6, 6, [ClientsGroup(6, 2)]), TableState(4, 3, [ClientsGroup(3, 4)]), TableState(5, 0, []), TableState(6, 0, [])];
    assert s.groupTableMap[4 := 3] == map[1 := 1, 2 := 2, 3 := 0, 4 := 3];
  }

  lemma SevenLargeStep5()
    ensures ArriveChecked(LargeState4, ClientsGroup(4, 5)) == Step(Ok, LargeState5)
    ensures Arrive(LargeState4, ClientsGroup(4, 5)) == Step(Ok, LargeState5)
  {
    var s := LargeState4;
    assert 5 !in Ids(s.arrivedQueue);
    ArriveAgreesUnlessQueued(s, ClientsGroup(4, 5));
    assert FirstFit(s.tables, EmptyAndLargeEnough, 4) == Some(4);
    assert [] + [ClientsGroup(4, 5)] == [ClientsGroup(4, 5)];
    assert s.tables[4 := TableState(5, 4, [ClientsGroup(4, 5)])] == [TableState(4, 2, [ClientsGroup(2, 3)]), TableState(5, 5, [ClientsGroup(5, 1)]), TableState(6, 6, [ClientsGroup(6, 2)]), TableState(4, 3, [ClientsGroup(3, 4)]), TableState(5, 4, [ClientsGroup(4, 5)]), TableState(6, 0, [])];
    assert s.groupTableMap[5 := 4] == map[1 := 1, 2 := 2, 3 := 0, 4 := 3, 5 := 4];
  }

  lemma SevenLargeStep6()
    ensures ArriveChecked(LargeState5, ClientsGroup(1, 6)) == Step(Ok, LargeState6)
    ensures Arrive(LargeState5, ClientsGroup(1, 6)) == Step(Ok, LargeState6)
  {
    var s := LargeState5;
    assert 6 !in Ids(s.arrivedQueue);
    ArriveAgreesUnlessQueued(s, ClientsGroup(1, 6));
    assert FirstFit(s.tables, EmptyAndLargeEnough, 1) == Some(5);
    assert [] + [ClientsGroup(1, 6)] == [ClientsGroup(1, 6)];
    assert s.tables[5 := TableState(6, 1, [ClientsGroup(1, 6)])] == [TableState(4, 2, [ClientsGroup(2, 3)]), TableState(5, 5, [ClientsGroup(5, 1)]), TableState(6, 6, [ClientsGroup(6, 2)]), TableState(4, 3, [ClientsGroup(3, 4)]), TableState(5, 4, [ClientsGroup(4, 5)]), TableState(6, 1, [ClientsGroup(1, 6)])];
    assert s.groupTableMap[6 := 5] == map[1 := 1, 2 := 2, 3 := 0, 4 := 3, 5 := 4, 6 := 5];
  }

  lemma SevenLargeStep7()
    ensures ArriveChecked(LargeState6, ClientsGroup(1, 7)) == Step(Ok, LargeState7)
    ensures Arrive(LargeState6, ClientsGroup(1, 7)) == Step(Ok, LargeState7)
  {
    var s := LargeState6;
    assert 7 !in Ids(s.arrivedQueue);
    ArriveAgreesUnlessQueued(s, ClientsGroup(1, 7));
    assert FirstFit(s.tables, EmptyAndLargeEnough, 1) == None;
    assert FirstFit(s.tables, SharedWithRoom, 1) == Some(0);
    assert [ClientsGroup(2, 3)] + [ClientsGroup(1, 7)] == [ClientsGroup(2, 3), ClientsGroup(1, 7)];
    assert s.tables[0 := TableState(4, 3, [ClientsGroup(2, 3), ClientsGroup(1, 7)])] == [TableState(4, 3, [ClientsGroup(2, 3), ClientsGroup(1, 7)]), TableState(5, 5, [ClientsGroup(5, 1)]), TableState(6, 6, [ClientsGroup(6, 2)]), TableState(4, 3, [ClientsGroup(3, 4)]), TableState(5, 4, [ClientsGroup(4, 5)]), TableState(6, 1, [ClientsGroup(1, 6)])];
    assert s.groupTableMap[7 := 0] == map[1 := 1, 2 := 2, 3 := 0, 4 := 3, 5 := 4, 6 := 5, 7 := 0];
  }

  lemma SevenLargeStep8()
    ensures ArriveAll(LargeScaleStart, SevenGroups) == Step(Ok, LargeState7)
  {
    SevenLargeStep1();
    SevenLargeStep2();
    SevenLargeStep3();
    SevenLargeStep4();
    SevenLargeStep5();
    SevenLargeStep6();
    SevenLargeStep7();
    assert ArriveAll(LargeState7, SevenGroups, 7) == Step(Ok, LargeState7);
    assert ArriveAll(LargeState6, SevenGroups, 6) == Step(Ok, LargeState7);
    assert ArriveAll(LargeState5, SevenGroups, 5) == Step(Ok, LargeState7);
    assert ArriveAll(LargeState4, SevenGroups, 4) == Step(Ok, LargeState7);
    assert ArriveAll(LargeState3, SevenGroups, 3) == Step(Ok, LargeState7);
    assert ArriveAll(LargeState2, SevenGroups, 2) == Step(Ok, LargeState7);
    assert ArriveAll(LargeState1, SevenGroups, 1) == Step(Ok, LargeState7);
    assert ArriveAll(LargeScaleStart, SevenGroups, 0) == Step(Ok, LargeState7);
  }

  lemma SevenLargeStep9()
    ensures LargeState7.arrivedQueue == [] && Count(LargeState7.tables, FullyOccupied) == 2 && Count(LargeState7.tables, PartiallyOccupied) == 4
  {
  }

  /** The same seven groups on tables 4, 5, 6, 4, 5, 6: two tables full, four shared, nobody queued. */
  lemma SevenGroupsOnLargeScale()
    ensures var r := ArriveAll(Initial(LargeScaleCapacity), SevenGroups);
            && r.outcome == Ok && r.state.arrivedQueue == []
            && Count(r.state.tables, FullyOccupied) == 2
            && Count(r.state.tables, PartiallyOccupied) == 4
  {
    LargeScaleInitial();
    SevenLargeStep8();
    SevenLargeStep9();
  }

  // ---------------------------------------------------------------------------
  // Tables of sizes 1 and 6

  const ShortOccupiedCapacity := TablesConfiguration([1, 6])

  const ShortOccupiedStart := ServiceState(
    [TableState(1, 0, []), TableState(6, 0, [])],
    [], map[])

  lemma ShortOccupiedInitial()
    ensures Initial(ShortOccupiedCapacity) == ShortOccupiedStart
  {
    assert ShortOccupiedCapacity.Tables() == ShortOccupiedStart.tables;
  }

  const ShortState1 := ServiceState(
    [TableState(1, 0, []), TableState(6, 5, [ClientsGroup(5, 1)])],
    [],
    map[1 := 1])
  const ShortState2 := ServiceState(
    [TableState(1, 0, []), TableState(6, 5, [ClientsGroup(5, 1)])],
    [ClientsGroup(6, 2)],
    map[1 := 1])
  const ShortState3 := ServiceState(
    [TableState(1, 0, []), TableState(6, 5, [ClientsGroup(5, 1)])],
    [ClientsGroup(6, 2), ClientsGroup(6, 3)],
    map[1 := 1])
  const ShortState4 := ServiceState(
    [TableState(1, 0, []), TableState(6, 5, [ClientsGroup(5, 1)])],
    [ClientsGroup(6, 2), ClientsGroup(6, 3), ClientsGroup(6, 4)],
    map[1 := 1])
  const ShortState5 := ServiceState(
    [TableState(1, 0, []), TableState(6, 5, [ClientsGroup(5, 1)])],
    [ClientsGroup(6, 2), ClientsGroup(6, 3), ClientsGroup(6, 4), ClientsGroup(6, 5)],
    map[1 := 1])
  const ShortState6 := ServiceState(
    [TableState(1, 0, []), TableState(6, 5, [ClientsGroup(5, 1)])],
    [ClientsGroup(6, 2), ClientsGroup(6, 3), ClientsGroup(6, 4), ClientsGroup(6, 5), ClientsGroup(4, 6)],
    map[1 := 1])
  const ShortState7 := ServiceState(
    [TableState(1, 0, []), TableState(6, 5, [ClientsGroup(5, 1)])],
    [ClientsGroup(6, 2), ClientsGroup(6, 3), ClientsGroup(6, 4), ClientsGroup(6, 5), ClientsGroup(4, 6), ClientsGroup(2, 7)],
    map[1 := 1])
  const ShortState8 := ServiceState(
    [TableState(1, 0, []), TableState(6, 5, [ClientsGroup(5, 1)])],
    [ClientsGroup(6, 2), ClientsGroup(6, 3), ClientsGroup(6, 4), ClientsGroup(6, 5), ClientsGroup(4, 6), ClientsGroup(2, 7), ClientsGroup(3, 8)],
    map[1 := 1])
  const ShortState9 := ServiceState(
    [TableState(1, 0, []), TableState(6, 5, [ClientsGroup(5, 1)])],
    [ClientsGroup(6, 2), ClientsGroup(6, 3), ClientsGroup(6, 4), ClientsGroup(6, 5), ClientsGroup(4, 6), ClientsGroup(2, 7), ClientsGroup(3, 8), ClientsGroup(4, 9)],
    map[1 := 1])
  const ShortState10 := ServiceState(
    [TableState(1, 0, []), TableState(6, 5, [ClientsGroup(5, 1)])],
    [ClientsGroup(6, 2), ClientsGroup(6, 3), ClientsGroup(6, 4), ClientsGroup(6, 5), ClientsGroup(4, 6), ClientsGroup(2, 7), ClientsGroup(3, 8), ClientsGroup(4, 9), ClientsGroup(4, 10)],
    map[1 := 1])
  const ShortState11 := ServiceState(
    [TableState(1, 0, []), TableState(6, 5, [ClientsGroup(5, 1)])],
    [ClientsGroup(6, 2), ClientsGroup(6, 3), ClientsGroup(6, 4), ClientsGroup(6, 5), ClientsGroup(4, 6), ClientsGroup(2, 7), ClientsGroup(3, 8), ClientsGroup(4, 9), ClientsGroup(4, 10), ClientsGroup(2, 11)],
    map[1 := 1])
  const ShortState12 := ServiceState(
    [TableState(1, 0, []), TableState(6, 0, [])],
    [ClientsGroup(6, 2), ClientsGroup(6, 3), ClientsGroup(6, 4), ClientsGroup(6, 5), ClientsGroup(4, 6), ClientsGroup(2, 7), ClientsGroup(3, 8), ClientsGroup(4, 9), ClientsGroup(4, 10), ClientsGroup(2, 11)],
    map[])
  const ShortState13 := ServiceState(
    [TableState(1, 0, []), TableState(6, 0, [])],
    [ClientsGroup(6, 2), ClientsGroup(6, 3), ClientsGroup(6, 4), ClientsGroup(6, 5), ClientsGroup(4, 6), ClientsGroup(3, 8), ClientsGroup(4, 9), ClientsGroup(4, 10), ClientsGroup(2, 11)],
    map[])
  const ShortState14 := ServiceState(
    [TableState(1, 0, []), TableState(6, 2, [ClientsGroup(2, 7)])],
    [ClientsGroup(6, 2), ClientsGroup(6, 3), ClientsGroup(6, 4), ClientsGroup(6, 5), ClientsGroup(4, 6), ClientsGroup(3, 8), ClientsGroup(4, 9), ClientsGroup(4, 10), ClientsGroup(2, 11)],
    map[7 := 1])
  const ShortState15 := ServiceState(
    [TableState(1, 0, []), TableState(6, 2, [ClientsGroup(2, 7)])],
    [ClientsGroup(6, 2), ClientsGroup(6, 3), ClientsGroup(6, 4), ClientsGroup(6, 5), ClientsGroup(4, 6), ClientsGroup(3, 8), ClientsGroup(4, 9), ClientsGroup(4, 10)],
    map[7 := 1])
  const ShortState16 := ServiceState(
    [TableState(1, 0, []), TableState(6, 4, [ClientsGroup(2, 7), ClientsGroup(2, 11)])],
    [ClientsGroup(6, 2), ClientsGroup(6, 3), ClientsGroup(6, 4), ClientsGroup(6, 5), ClientsGroup(4, 6), ClientsGroup(3, 8), ClientsGroup(4, 9), ClientsGroup(4, 10)],
    map[7 := 1, 11 := 1])

  lemma ProcessCase2Step1()
    ensures ArriveChecked(ShortOccupiedStart, ClientsGroup(5, 1)) == Step(Ok, ShortState1)
    ensures Arrive(ShortOccupiedStart, ClientsGroup(5, 1)) == Step(Ok, ShortState1)
  {
    var s := ShortOccupiedStart;
    assert 1 !in Ids(s.arrivedQueue);
    ArriveAgreesUnlessQueued(s, ClientsGroup(5, 1));
    assert FirstFit(s.tables, EmptyAndLargeEnough, 5) == Some(1);
    assert [] + [ClientsGroup(5, 1)] == [ClientsGroup(5, 1)];
    assert s.tables[1 := TableState(6, 5, [ClientsGroup(5, 1)])] == [TableState(1, 0, []), TableState(6, 5, [ClientsGroup(5, 1)])];
    assert s.groupTableMap[1 := 1] == map[1 := 1];
  }

  lemma ProcessCase2Step2()
    ensures ArriveChecked(ShortState1, ClientsGroup(6, 2)) == Step(Ok, ShortState2)
    ensures Arrive(ShortState1, ClientsGroup(6, 2)) == Step(Ok, ShortState2)
  {
    var s := ShortState1;
    assert 2 !in Ids(s.arrivedQueue);
    ArriveAgreesUnlessQueued(s, ClientsGroup(6, 2));
    assert FirstFit(s.tables, EmptyAndLargeEnough, 6) == None;
    assert FirstFit(s.tables, SharedWithRoom, 6) == None;
    assert [] + [ClientsGroup(6, 2)] == [ClientsGroup(6, 2)];
  }

  lemma ProcessCase2Step3()
    ensures ArriveChecked(ShortState2, ClientsGroup(6, 3)) == Step(Ok, ShortState3)
    ensures Arrive(ShortState2, ClientsGroup(6, 3)) == Step(Ok, ShortState3)
  {
    var s := ShortState2;
    assert 3 !in Ids(s.arrivedQueue);
    ArriveAgreesUnlessQueued(s, ClientsGroup(6, 3));
    assert FirstFit(s.tables, EmptyAndLargeEnough, 6) == None;
    assert FirstFit(s.tables, SharedWithRoom, 6) == None;
    assert [ClientsGroup(6, 2)] + [ClientsGroup(6, 3)] == [ClientsGroup(6, 2), ClientsGroup(6, 3)];
  }

  lemma ProcessCase2Step4()
    ensures ArriveChecked(ShortState3, ClientsGroup(6, 4)) == Step(Ok, ShortState4)
    ensures Arrive(ShortState3, ClientsGroup(6, 4)) == Step(Ok, ShortState4)
  {
    var s := ShortState3;
    assert 4 !in Ids(s.arrivedQueue);
    ArriveAgreesUnlessQueued(s, ClientsGroup(6, 4));
    assert FirstFit(s.tables, EmptyAndLargeEnough, 6) == None;
    assert FirstFit(s.tables, SharedWithRoom, 6) == None;
    assert [ClientsGroup(6, 2), ClientsGroup(6, 3)] + [ClientsGroup(6, 4)] == [ClientsGroup(6, 2), ClientsGroup(6, 3), ClientsGroup(6, 4)];
  }

  lemma ProcessCase2Step5()
    ensures ArriveChecked(ShortState4, ClientsGroup(6, 5)) == Step(Ok, ShortState5)
    ensures Arrive(ShortState4, ClientsGroup(6, 5)) == Step(Ok, ShortState5)
  {
    var s := ShortState4;
    assert 5 !in Ids(s.arrivedQueue);
    ArriveAgreesUnlessQueued(s, ClientsGroup(6, 5));
    assert FirstFit(s.tables, EmptyAndLargeEnough, 6) == None;
    assert FirstFit(s.tables, SharedWithRoom, 6) == None;
    assert [ClientsGroup(6, 2), ClientsGroup(6, 3), ClientsGroup(6, 4)] + [ClientsGroup(6, 5)] == [ClientsGroup(6, 2), ClientsGroup(6, 3), ClientsGroup(6, 4), ClientsGroup(6, 5)];
  }

  lemma ProcessCase2Step6()
    ensures ArriveChecked(ShortState5, ClientsGroup(4, 6)) == Step(Ok, ShortState6)
    ensures Arrive(ShortState5, ClientsGroup(4, 6)) == Step(Ok, ShortState6)
  {
    var s := ShortState5;
    assert 6 !in Ids(s.arrivedQueue);
    ArriveAgreesUnlessQueued(s, ClientsGroup(4, 6));
    assert FirstFit(s.tables, EmptyAndLargeEnough, 4) == None;
    assert FirstFit(s.tables, SharedWithRoom, 4) == None;
    assert [ClientsGroup(6, 2), ClientsGroup(6, 3), ClientsGroup(6, 4), ClientsGroup(6, 5)] + [ClientsGroup(4, 6)] == [ClientsGroup(6, 2), ClientsGroup(6, 3), ClientsGroup(6, 4), ClientsGroup(6, 5), ClientsGroup(4, 6)];
  }

  lemma ProcessCase2Step7()
    ensures ArriveChecked(ShortState6, ClientsGroup(2, 7)) == Step(Ok, ShortState7)
    ensures Arrive(ShortState6, ClientsGroup(2, 7)) == Step(Ok, ShortState7)
  {
    var s := ShortState6;
    assert 7 !in Ids(s.arrivedQueue);
    ArriveAgreesUnlessQueued(s, ClientsGroup(2, 7));
    assert FirstFit(s.tables, EmptyAndLargeEnough, 2) == None;
    assert FirstFit(s.tables, SharedWithRoom, 2) == None;
    assert [ClientsGroup(6, 2), ClientsGroup(6, 3), ClientsGroup(6, 4), ClientsGroup(6, 5), ClientsGroup(4, 6)] + [ClientsGroup(2, 7)] == [ClientsGroup(6, 2), ClientsGroup(6, 3), ClientsGroup(6, 4), ClientsGroup(6, 5), ClientsGroup(4, 6), ClientsGroup(2, 7)];
  }

  lemma ProcessCase2Step8()
    ensures ArriveChecked(ShortState7, ClientsGroup(3, 8)) == Step(Ok, ShortState8)
    ensures Arrive(ShortState7, ClientsGroup(3, 8)) == Step(Ok, ShortState8)
  {
    var s := ShortState7;
    assert 8 !in Ids(s.arrivedQueue);
    ArriveAgreesUnlessQueued(s, ClientsGroup(3, 8));
    assert FirstFit(s.tables, EmptyAndLargeEnough, 3) == None;
    assert FirstFit(s.tables, SharedWithRoom, 3) == None;
    assert [ClientsGroup(6, 2), ClientsGroup(6, 3), ClientsGroup(6, 4), ClientsGroup(6, 5), ClientsGroup(4, 6), ClientsGroup(2, 7)] + [ClientsGroup(3, 8)] == [ClientsGroup(6, 2), ClientsGroup(6, 3), ClientsGroup(6, 4), ClientsGroup(6, 5), ClientsGroup(4, 6), ClientsGroup(2, 7), ClientsGroup(3, 8)];
  }

  lemma ProcessCase2Step9()
    ensures ArriveChecked(ShortState8, ClientsGroup(4, 9)) == Step(Ok, ShortState9)
    ensures Arrive(ShortState8, ClientsGroup(4, 9)) == Step(Ok, ShortState9)
  {
    var s := ShortState8;
    assert 9 !in Ids(s.arrivedQueue);
    ArriveAgreesUnlessQueued(s, ClientsGroup(4, 9));
    assert FirstFit(s.tables, EmptyAndLargeEnough, 4) == None;
    assert FirstFit(s.tables, SharedWithRoom, 4) == None;
    assert [ClientsGroup(6, 2), ClientsGroup(6, 3), ClientsGroup(6, 4), ClientsGroup(6, 5), ClientsGroup(4, 6), ClientsGroup(2, 7), ClientsGroup(3, 8)] + [ClientsGroup(4, 9)] == [ClientsGroup(6, 2), ClientsGroup(6, 3), ClientsGroup(6, 4), ClientsGroup(6, 5), ClientsGroup(4, 6), ClientsGroup(2, 7), ClientsGroup(3, 8), ClientsGroup(4, 9)];
  }

  lemma ProcessCase2Step10()
    ensures ArriveChecked(ShortState9, ClientsGroup(4, 10)) == Step(Ok, ShortState10)
    ensures Arrive(ShortState9, ClientsGroup(4, 10)) == Step(Ok, ShortState10)
  {
    var s := ShortState9;
    assert 10 !in Ids(s.arrivedQueue);
    ArriveAgreesUnlessQueued(s, ClientsGroup(4, 10));
    assert FirstFit(s.tables, EmptyAndLargeEnough, 4) == None;
    assert FirstFit(s.tables, SharedWithRoom, 4) == None;
    assert [ClientsGroup(6, 2), ClientsGroup(6, 3), ClientsGroup(6, 4), ClientsGroup(6, 5), ClientsGroup(4, 6), ClientsGroup(2, 7), ClientsGroup(3, 8), ClientsGroup(4, 9)] + [ClientsGroup(4, 10)] == [ClientsGroup(6, 2), ClientsGroup(6, 3), ClientsGroup(6, 4), ClientsGroup(6, 5), ClientsGroup(4, 6), ClientsGroup(2, 7), ClientsGroup(3, 8), ClientsGroup(4, 9), ClientsGroup(4, 10)];
  }

  lemma ProcessCase2Step11()
    ensures ArriveChecked(ShortState10, ClientsGroup(2, 11)) == Step(Ok, ShortState11)
    ensures Arrive(ShortState10, ClientsGroup(2, 11)) == Step(Ok, ShortState11)
  {
    var s := ShortState10;
    assert 11 !in Ids(s.arrivedQueue);
    ArriveAgreesUnlessQueued(s, ClientsGroup(2, 11));
    assert FirstFit(s.tables, EmptyAndLargeEnough, 2) == None;
    assert FirstFit(s.tables, SharedWithRoom, 2) == None;
    assert [ClientsGroup(6, 2), ClientsGroup(6, 3), ClientsGroup(6, 4), ClientsGroup(6, 5), ClientsGroup(4, 6), ClientsGroup(2, 7), ClientsGroup(3, 8), ClientsGroup(4, 9), ClientsGroup(4, 10)] + [ClientsGroup(2, 11)] == [ClientsGroup(6, 2), ClientsGroup(6, 3), ClientsGroup(6, 4), ClientsGroup(6, 5), ClientsGroup(4, 6), ClientsGroup(2, 7), ClientsGroup(3, 8), ClientsGroup(4, 9), ClientsGroup(4, 10), ClientsGroup(2, 11)];
  }

  lemma ProcessCase2Step12()
    ensures ArriveAll(ShortOccupiedStart, ElevenGroups) == Step(Ok, ShortState11)
  {
    ProcessCase2Step1();
    ProcessCase2Step2();
    ProcessCase2Step3();
    ProcessCase2Step4();
    ProcessCase2Step5();
    ProcessCase2Step6();
    ProcessCase2Step7();
    ProcessCase2Step8();
    ProcessCase2Step9();
    ProcessCase2Step10();
    ProcessCase2Step11();
    assert ArriveAll(ShortState11, ElevenGroups, 11) == Step(Ok, ShortState11);
    assert ArriveAll(ShortState10, ElevenGroups, 10) == Step(Ok, ShortState11);
    assert ArriveAll(ShortState9, ElevenGroups, 9) == Step(Ok, ShortState11);
    assert ArriveAll(ShortState8, ElevenGroups, 8) == Step(Ok, ShortState11);
    assert ArriveAll(ShortState7, ElevenGroups, 7) == Step(Ok, ShortState11);
    assert ArriveAll(ShortState6, ElevenGroups, 6) == Step(Ok, ShortState11);
    assert ArriveAll(ShortState5, ElevenGroups, 5) == Step(Ok, ShortState11);
    assert ArriveAll(ShortState4, ElevenGroups, 4) == Step(Ok, ShortState11);
    assert ArriveAll(ShortState3, ElevenGroups, 3) == Step(Ok, ShortState11);
    assert ArriveAll(ShortState2, ElevenGroups, 2) == Step(Ok, ShortState11);
    assert ArriveAll(ShortState1, ElevenGroups, 1) == Step(Ok, ShortState11);
    assert ArriveAll(ShortOccupiedStart, ElevenGroups, 0) == Step(Ok, ShortState11);
  }

  lemma ProcessCase2Step13()
    ensures FindGroup([ClientsGroup(5, 1)], 1) == Some(0)
  {
  }

  lemma ProcessCase2Step14()
    ensures GetRidOfTheGroup(ShortState11, 1, 0) == ShortState12
  {
    var s := ShortState11;
    assert RemoveAt([ClientsGroup(5, 1)], 0) == [];
    assert s.tables[1 := TableState(6, 0, [])] == [TableState(1, 0, []), TableState(6, 0, [])];
    assert s.groupTableMap - {1} == map[];
  }

  lemma ProcessCase2Step15()
    ensures Dequeue([ClientsGroup(6, 2), ClientsGroup(6, 3), ClientsGroup(6, 4), ClientsGroup(6, 5), ClientsGroup(4, 6), ClientsGroup(2, 7), ClientsGroup(3, 8), ClientsGroup(4, 9), ClientsGroup(4, 10), ClientsGroup(2, 11)]) == (ClientsGroup(2, 7), [ClientsGroup(6, 2), ClientsGroup(6, 3), ClientsGroup(6, 4), ClientsGroup(6, 5), ClientsGroup(4, 6), ClientsGroup(3, 8), ClientsGroup(4, 9), ClientsGroup(4, 10), ClientsGroup(2, 11)])
  {
    assert MinIndex([ClientsGroup(6, 2), ClientsGroup(6, 3), ClientsGroup(6, 4), ClientsGroup(6, 5), ClientsGroup(4, 6), ClientsGroup(2, 7), ClientsGroup(3, 8), ClientsGroup(4, 9), ClientsGroup(4, 10), ClientsGroup(2, 11)]) == 5;
    assert RemoveAt([ClientsGroup(6, 2), ClientsGroup(6, 3), ClientsGroup(6, 4), ClientsGroup(6, 5), ClientsGroup(4, 6), ClientsGroup(2, 7), ClientsGroup(3, 8), ClientsGroup(4, 9), ClientsGroup(4, 10), ClientsGroup(2, 11)], 5) == [ClientsGroup(6, 2), ClientsGroup(6, 3), ClientsGroup(6, 4), ClientsGroup(6, 5), ClientsGroup(4, 6), ClientsGroup(3, 8), ClientsGroup(4, 9), ClientsGroup(4, 10), ClientsGroup(2, 11)];
  }

  lemma ProcessCase2Step16()
    ensures ShortState12.(arrivedQueue := [ClientsGroup(6, 2), ClientsGroup(6, 3), ClientsGroup(6, 4), ClientsGroup(6, 5), ClientsGroup(4, 6), ClientsGroup(3, 8), ClientsGroup(4, 9), ClientsGroup(4, 10), ClientsGroup(2, 11)]) == ShortState13
  {
  }

  lemma ProcessCase2Step17()
    ensures TryFitGroupFromQueue(ShortState13, ClientsGroup(2, 7)) == (Step(Ok, ShortState14), true)
  {
    var s := ShortState13;
    assert FirstFit(s.tables, AnyWithRoom, 2) == Some(1);
    assert [] + [ClientsGroup(2, 7)] == [ClientsGroup(2, 7)];
    assert s.tables[1 := TableState(6, 2, [ClientsGroup(2, 7)])] == [TableState(1, 0, []), TableState(6, 2, [ClientsGroup(2, 7)])];
    assert s.groupTableMap[7 := 1] == map[7 := 1];
  }

  lemma ProcessCase2Step18()
    ensures Peek([ClientsGroup(6, 2), ClientsGroup(6, 3), ClientsGroup(6, 4), ClientsGroup(6, 5), ClientsGroup(4, 6), ClientsGroup(3, 8), ClientsGroup(4, 9), ClientsGroup(4, 10), ClientsGroup(2, 11)]) == ClientsGroup(2, 11)
  {
    assert MinIndex([ClientsGroup(6, 2), ClientsGroup(6, 3), ClientsGroup(6, 4), ClientsGroup(6, 5), ClientsGroup(4, 6), ClientsGroup(3, 8), ClientsGroup(4, 9), ClientsGroup(4, 10), ClientsGroup(2, 11)]) == 8;
  }

  lemma ProcessCase2Step19()
    ensures SweepRound(ShortState12, 5) == (Step(Ok, ShortState14), 3, true)
  {
    ProcessCase2Step15();
    ProcessCase2Step16();
    ProcessCase2Step17();
    ProcessCase2Step18();
    RoundFromFit(ShortState12, 5, ShortState14, true);
  }

  lemma ProcessCase2Step20()
    ensures Dequeue([ClientsGroup(6, 2), ClientsGroup(6, 3), ClientsGroup(6, 4), ClientsGroup(6, 5), ClientsGroup(4, 6), ClientsGroup(3, 8), ClientsGroup(4, 9), ClientsGroup(4, 10), ClientsGroup(2, 11)]) == (ClientsGroup(2, 11), [ClientsGroup(6, 2), ClientsGroup(6, 3), ClientsGroup(6, 4), ClientsGroup(6, 5), ClientsGroup(4, 6), ClientsGroup(3, 8), ClientsGroup(4, 9), ClientsGroup(4, 10)])
  {
    assert MinIndex([ClientsGroup(6, 2), ClientsGroup(6, 3), ClientsGroup(6, 4), ClientsGroup(6, 5), ClientsGroup(4, 6), ClientsGroup(3, 8), ClientsGroup(4, 9), ClientsGroup(4, 10), ClientsGroup(2, 11)]) == 8;
    assert RemoveAt([ClientsGroup(6, 2), ClientsGroup(6, 3), ClientsGroup(6, 4), ClientsGroup(6, 5), ClientsGroup(4, 6), ClientsGroup(3, 8), ClientsGroup(4, 9), ClientsGroup(4, 10), ClientsGroup(2, 11)], 8) == [ClientsGroup(6, 2), ClientsGroup(6, 3), ClientsGroup(6, 4), ClientsGroup(6, 5), ClientsGroup(4, 6), ClientsGroup(3, 8), ClientsGroup(4, 9), ClientsGroup(4, 10)];
  }

  lemma ProcessCase2Step21()
    ensures ShortState14.(arrivedQueue := [ClientsGroup(6, 2), ClientsGroup(6, 3), ClientsGroup(6, 4), ClientsGroup(6, 5), ClientsGroup(4, 6), ClientsGroup(3, 8), ClientsGroup(4, 9), ClientsGroup(4, 10)]) == ShortState15
  {
  }

  lemma ProcessCase2Step22()
    ensures TryFitGroupFromQueue(ShortState15, ClientsGroup(2, 11)) == (Step(Ok, ShortState16), true)
  {
    var s := ShortState15;
    assert FirstFit(s.tables, AnyWithRoom, 2) == Some(1);
    assert [ClientsGroup(2, 7)] + [ClientsGroup(2, 11)] == [ClientsGroup(2, 7), ClientsGroup(2, 11)];
    assert s.tables[1 := TableState(6, 4, [ClientsGroup(2, 7), ClientsGroup(2, 11)])] == [TableState(1, 0, []), TableState(6, 4, [ClientsGroup(2, 7), ClientsGroup(2, 11)])];
    assert s.groupTableMap[11 := 1] == map[7 := 1, 11 := 1];
  }

  lemma ProcessCase2Step23()
    ensures Peek([ClientsGroup(6, 2), ClientsGroup(6, 3), ClientsGroup(6, 4), ClientsGroup(6, 5), ClientsGroup(4, 6), ClientsGroup(3, 8), ClientsGroup(4, 9), ClientsGroup(4, 10)]) == ClientsGroup(3, 8)
  {
    assert MinIndex([ClientsGroup(6, 2), ClientsGroup(6, 3), ClientsGroup(6, 4), ClientsGroup(6, 5), ClientsGroup(4, 6), ClientsGroup(3, 8), ClientsGroup(4, 9), ClientsGroup(4, 10)]) == 5;
  }

  lemma ProcessCase2Step24()
    ensures SweepRound(ShortState14, 3) == (Step(Ok, ShortState16), 1, false)
  {
    ProcessCase2Step20();
    ProcessCase2Step21();
    ProcessCase2Step22();
    ProcessCase2Step23();
    RoundFromFit(ShortState14, 3, ShortState16, true);
  }

  lemma ProcessCase2Step25()
    ensures Leave(ShortState11, ClientsGroup(5, 1)) == Step(Ok, ShortState16)
  {
    ProcessCase2Step13();
    ProcessCase2Step14();
    ProcessCase2Step19();
    ProcessCase2Step24();
    assert Sweep(ShortState14, 3) == Step(Ok, ShortState16);
    assert Sweep(ShortState12, 5) == Step(Ok, ShortState16);
  }

  lemma ProcessCase2Step26()
    ensures |ShortState11.arrivedQueue| == 10
  {
  }

  lemma ProcessCase2Step27()
    ensures |ShortState16.arrivedQueue| == 8 && 7 in ShortState16.groupTableMap && 11 in ShortState16.groupTableMap
  {
  }

  /**
   * The eleven arrivals on tables 1 and 6 leave ten groups queued. When the
   * group of five leaves, the sweep seats the two groups of two (group 7
   * first) and stops before the group of three; eight stay queued.
   */
  lemma ProcessCase2()
    ensures var arrived := ArriveAll(Initial(ShortOccupiedCapacity), ElevenGroups);
            && arrived.outcome == Ok && |arrived.state.arrivedQueue| == 10
            && var left := Leave(arrived.state, ClientsGroup(5, 1));
               && left.outcome == Ok && |left.state.arrivedQueue| == 8
               && Lookup(left.state, 7).Some? && Lookup(left.state, 11).Some?
  {
    ShortOccupiedInitial();
    ProcessCase2Step12();
    ProcessCase2Step25();
    ProcessCase2Step26();
    ProcessCase2Step27();
  }

  // ---------------------------------------------------------------------------
  // A single table of size 4: the sweep drops a group it cannot seat

  const SingleFourCapacity := TablesConfiguration([4])

  const SingleFourStart := ServiceState(
    [TableState(4, 0, [])],
    [], map[])

  lemma SingleFourInitial()
    ensures Initial(SingleFourCapacity) == SingleFourStart
  {
    assert SingleFourCapacity.Tables() == SingleFourStart.tables;
  }

  const DropArrivals := [ClientsGroup(1, 1), ClientsGroup(3, 2), ClientsGroup(4, 3)]

  const DropState1 := ServiceState(
    [TableState(4, 1, [ClientsGroup(1, 1)])],
    [],
    map[1 := 0])
  const DropState2 := ServiceState(
    [TableState(4, 4, [ClientsGroup(1, 1), ClientsGroup(3, 2)])],
    [],
    map[1 := 0, 2 := 0])
  const DropState3 := ServiceState(
    [TableState(4, 4, [ClientsGroup(1, 1), ClientsGroup(3, 2)])],
    [ClientsGroup(4, 3)],
    map[1 := 0, 2 := 0])
  const DropState4 := ServiceState(
    [TableState(4, 3, [ClientsGroup(3, 2)])],
    [ClientsGroup(4, 3)],
    map[2 := 0])
  const DropState5 := ServiceState(
    [TableState(4, 3, [ClientsGroup(3, 2)])],
    [],
    map[2 := 0])

  lemma DropStep1()
    ensures ArriveChecked(SingleFourStart, ClientsGroup(1, 1)) == Step(Ok, DropState1)
    ensures Arrive(SingleFourStart, ClientsGroup(1, 1)) == Step(Ok, DropState1)
  {
    var s := SingleFourStart;
    assert 1 !in Ids(s.arrivedQueue);
    ArriveAgreesUnlessQueued(s, ClientsGroup(1, 1));
    assert FirstFit(s.tables, EmptyAndLargeEnough, 1) == Some(0);
    assert [] + [ClientsGroup(1, 1)] == [ClientsGroup(1, 1)];
    assert s.tables[0 := TableState(4, 1, [ClientsGroup(1, 1)])] == [TableState(4, 1, [ClientsGroup(1, 1)])];
    assert s.groupTableMap[1 := 0] == map[1 := 0];
  }

  lemma DropStep2()
    ensures ArriveChecked(DropState1, ClientsGroup(3, 2)) == Step(Ok, DropState2)
    ensures Arrive(DropState1, ClientsGroup(3, 2)) == Step(Ok, DropState2)
  {
    var s := DropState1;
    assert 2 !in Ids(s.arrivedQueue);
    ArriveAgreesUnlessQueued(s, ClientsGroup(3, 2));
    assert FirstFit(s.tables, EmptyAndLargeEnough, 3) == None;
    assert FirstFit(s.tables, SharedWithRoom, 3) == Some(0);
    assert [ClientsGroup(1, 1)] + [ClientsGroup(3, 2)] == [ClientsGroup(1, 1), ClientsGroup(3, 2)];
    assert s.tables[0 := TableState(4, 4, [ClientsGroup(1, 1), ClientsGroup(3, 2)])] == [TableState(4, 4, [ClientsGroup(1, 1), ClientsGroup(3, 2)])];
    assert s.groupTableMap[2 := 0] == map[1 := 0, 2 := 0];
  }

  lemma DropStep3()
    ensures ArriveChecked(DropState2, ClientsGroup(4, 3)) == Step(Ok, DropState3)
    ensures Arrive(DropState2, ClientsGroup(4, 3)) == Step(Ok, DropState3)
  {
    var s := DropState2;
    assert 3 !in Ids(s.arrivedQueue);
    ArriveAgreesUnlessQueued(s, ClientsGroup(4, 3));
    assert FirstFit(s.tables, EmptyAndLargeEnough, 4) == None;
    assert FirstFit(s.tables, SharedWithRoom, 4) == None;
    assert [] + [ClientsGroup(4, 3)] == [ClientsGroup(4, 3)];
  }

  lemma DropStep4()
    ensures ArriveAll(SingleFourStart, DropArrivals) == Step(Ok, DropState3)
  {
    DropStep1();
    DropStep2();
    DropStep3();
    assert ArriveAll(DropState3, DropArrivals, 3) == Step(Ok, DropState3);
    assert ArriveAll(DropState2, DropArrivals, 2) == Step(Ok, DropState3);
    assert ArriveAll(DropState1, DropArrivals, 1) == Step(Ok, DropState3);
    assert ArriveAll(SingleFourStart, DropArrivals, 0) == Step(Ok, DropState3);
  }

  lemma DropStep5()
    ensures FindGroup([ClientsGroup(1, 1), ClientsGroup(3, 2)], 1) == Some(0)
  {
  }

  lemma DropStep6()
    ensures GetRidOfTheGroup(DropState3, 0, 0) == DropState4
  {
    var s := DropState3;
    assert RemoveAt([ClientsGroup(1, 1), ClientsGroup(3, 2)], 0) == [ClientsGroup(3, 2)];
    assert s.tables[0 := TableState(4, 3, [ClientsGroup(3, 2)])] == [TableState(4, 3, [ClientsGroup(3, 2)])];
    assert s.groupTableMap - {1} == map[2 := 0];
  }

  lemma DropStep7()
    ensures Dequeue([ClientsGroup(4, 3)]) == (ClientsGroup(4, 3), [])
  {
    assert MinIndex([ClientsGroup(4, 3)]) == 0;
    assert RemoveAt([ClientsGroup(4, 3)], 0) == [];
  }

  lemma DropStep8()
    ensures DropState4.(arrivedQueue := []) == DropState5
  {
  }

  lemma DropStep9()
    ensures TryFitGroupFromQueue(DropState5, ClientsGroup(4, 3)) == (Step(Ok, DropState5), false)
  {
    var s := DropState5;
    assert FirstFit(s.tables, AnyWithRoom, 4) == None;
  }

  lemma DropStep10()
    ensures SweepRound(DropState4, 1) == (Step(Ok, DropState5), -3, true)
  {
    DropStep7();
    DropStep8();
    DropStep9();
    RoundFromFit(DropState4, 1, DropState5, false);
  }

  lemma DropStep11()
    ensures Leave(DropState3, ClientsGroup(1, 1)) == Step(Ok, DropState5)
  {
    DropStep5();
    DropStep6();
    DropStep10();
    assert Sweep(DropState5, -3) == Step(Ok, DropState5);
    assert Sweep(DropState4, 1) == Step(Ok, DropState5);
  }

  lemma DropStep12()
    ensures Ids(DropState3.arrivedQueue) == [3]
  {
  }

  lemma DropStep13()
    ensures DropState5.arrivedQueue == [] && 3 !in DropState5.groupTableMap && DropState5.groupTableMap[2] == 0
  {
  }

  /**
   * Groups of 1 and 3 share the table of four and a group of 4 waits. When the
   * group of one leaves, the group of four is dequeued, fits nowhere and is
   * not put back: it is neither queued nor seated afterwards.
   */
  lemma SweepDropsUnseatedGroup()
    ensures var arrived := ArriveAll(Initial(SingleFourCapacity), DropArrivals);
            && arrived.outcome == Ok && Ids(arrived.state.arrivedQueue) == [3]
            && var left := Leave(arrived.state, ClientsGroup(1, 1));
               && left.outcome == Ok && left.state.arrivedQueue == []
               && Lookup(left.state, 3).None? && Lookup(left.state, 2) == Some(0)
  {
    SingleFourInitial();
    DropStep4();
    DropStep11();
    DropStep12();
    DropStep13();
  }

  // ---------------------------------------------------------------------------
  // A single table of size 3: an id that is queued arrives again

  const SingleThreeCapacity := TablesConfiguration([3])

  const SingleThreeStart := ServiceState(
    [TableState(3, 0, [])],
    [], map[])

  lemma SingleThreeInitial()
    ensures Initial(SingleThreeCapacity) == SingleThreeStart
  {
    assert SingleThreeCapacity.Tables() == SingleThreeStart.tables;
  }

  const DuplicateState1 := ServiceState(
    [TableState(3, 2, [ClientsGroup(2, 1)])],
    [],
    map[1 := 0])
  const DuplicateState2 := ServiceState(
    [TableState(3, 2, [ClientsGroup(2, 1)])],
    [ClientsGroup(2, 2)],
    map[1 := 0])
  const DuplicateState3 := ServiceState(
    [TableState(3, 3, [ClientsGroup(2, 1), ClientsGroup(1, 2)])],
    [ClientsGroup(2, 2)],
    map[1 := 0, 2 := 0])
  const DuplicateState4 := ServiceState(
    [TableState(3, 1, [ClientsGroup(1, 2)])],
    [ClientsGroup(2, 2)],
    map[2 := 0])
  const DuplicateState5 := ServiceState(
    [TableState(3, 1, [ClientsGroup(1, 2)])],
    [],
    map[2 := 0])
  const DuplicateState6 := ServiceState(
    [TableState(3, 3, [ClientsGroup(1, 2), ClientsGroup(2, 2)])],
    [],
    map[2 := 0])
  const DuplicateState7 := ServiceState(
    [TableState(3, 2, [ClientsGroup(2, 2)])],
    [],
    map[])

  lemma DuplicateStep1()
    ensures Arrive(SingleThreeStart, ClientsGroup(2, 1)) == Step(Ok, DuplicateState1)
  {
    var s := SingleThreeStart;
    assert FirstFit(s.tables, EmptyAndLargeEnough, 2) == Some(0);
    assert [] + [ClientsGroup(2, 1)] == [ClientsGroup(2, 1)];
    assert s.tables[0 := TableState(3, 2, [ClientsGroup(2, 1)])] == [TableState(3, 2, [ClientsGroup(2, 1)])];
    assert s.groupTableMap[1 := 0] == map[1 := 0];
  }

  lemma DuplicateStep2()
    ensures Arrive(DuplicateState1, ClientsGroup(2, 2)) == Step(Ok, DuplicateState2)
  {
    var s := DuplicateState1;
    assert FirstFit(s.tables, EmptyAndLargeEnough, 2) == None;
    assert FirstFit(s.tables, SharedWithRoom, 2) == None;
    assert [] + [ClientsGroup(2, 2)] == [ClientsGroup(2, 2)];
  }

  lemma DuplicateStep3()
    ensures Arrive(DuplicateState2, ClientsGroup(1, 2)) == Step(Ok, DuplicateState3)
  {
    var s := DuplicateState2;
    assert FirstFit(s.tables, EmptyAndLargeEnough, 1) == None;
    assert FirstFit(s.tables, SharedWithRoom, 1) == Some(0);
    assert [ClientsGroup(2, 1)] + [ClientsGroup(1, 2)] == [ClientsGroup(2, 1), ClientsGroup(1, 2)];
    assert s.tables[0 := TableState(3, 3, [ClientsGroup(2, 1), ClientsGroup(1, 2)])] == [TableState(3, 3, [ClientsGroup(2, 1), ClientsGroup(1, 2)])];
    assert s.groupTableMap[2 := 0] == map[1 := 0, 2 := 0];
  }

  lemma DuplicateStep4()
    ensures FindGroup([ClientsGroup(2, 1), ClientsGroup(1, 2)], 1) == Some(0)
  {
  }

  lemma DuplicateStep5()
    ensures GetRidOfTheGroup(DuplicateState3, 0, 0) == DuplicateState4
  {
    var s := DuplicateState3;
    assert RemoveAt([ClientsGroup(2, 1), ClientsGroup(1, 2)], 0) == [ClientsGroup(1, 2)];
    assert s.tables[0 := TableState(3, 1, [ClientsGroup(1, 2)])] == [TableState(3, 1, [ClientsGroup(1, 2)])];
    assert s.groupTableMap - {1} == map[2 := 0];
  }

  lemma DuplicateStep6()
    ensures Dequeue([ClientsGroup(2, 2)]) == (ClientsGroup(2, 2), [])
  {
    assert MinIndex([ClientsGroup(2, 2)]) == 0;
    assert RemoveAt([ClientsGroup(2, 2)], 0) == [];
  }

  lemma DuplicateStep7()
    ensures DuplicateState4.(arrivedQueue := []) == DuplicateState5
  {
  }

  lemma DuplicateStep8()
    ensures TryFitGroupFromQueue(DuplicateState5, ClientsGroup(2, 2)) == (Step(Thrown(KeyAlreadyPresent), DuplicateState6), true)
  {
    var s := DuplicateState5;
    assert FirstFit(s.tables, AnyWithRoom, 2) == Some(0);
    assert [ClientsGroup(1, 2)] + [ClientsGroup(2, 2)] == [ClientsGroup(1, 2), ClientsGroup(2, 2)];
    assert s.tables[0 := TableState(3, 3, [ClientsGroup(1, 2), ClientsGroup(2, 2)])] == [TableState(3, 3, [ClientsGroup(1, 2), ClientsGroup(2, 2)])];
  }

  lemma DuplicateStep9()
    ensures SweepRound(DuplicateState4, 2) == (Step(Thrown(KeyAlreadyPresent), DuplicateState6), 0, false)
  {
    DuplicateStep6();
    DuplicateStep7();
    DuplicateStep8();
  }

  lemma DuplicateStep10()
    ensures Leave(DuplicateState3, ClientsGroup(2, 1)) == Step(Thrown(KeyAlreadyPresent), DuplicateState6)
  {
    DuplicateStep4();
    DuplicateStep5();
    DuplicateStep9();
    assert Sweep(DuplicateState4, 2) == Step(Thrown(KeyAlreadyPresent), DuplicateState6);
  }

  lemma DuplicateStep11()
    ensures FindGroup([ClientsGroup(1, 2), ClientsGroup(2, 2)], 2) == Some(0)
  {
  }

  lemma DuplicateStep12()
    ensures GetRidOfTheGroup(DuplicateState6, 0, 0) == DuplicateState7
  {
    var s := DuplicateState6;
    assert RemoveAt([ClientsGroup(1, 2), ClientsGroup(2, 2)], 0) == [ClientsGroup(2, 2)];
    assert s.tables[0 := TableState(3, 2, [ClientsGroup(2, 2)])] == [TableState(3, 2, [ClientsGroup(2, 2)])];
    assert s.groupTableMap - {2} == map[];
  }

  lemma DuplicateStep13()
    ensures Leave(DuplicateState6, ClientsGroup(1, 2)) == Step(Ok, DuplicateState7)
  {
    DuplicateStep11();
    DuplicateStep12();
    assert Sweep(DuplicateState7, 1) == Step(Ok, DuplicateState7);
  }

  lemma DuplicateStep14()
    ensures Leave(DuplicateState7, ClientsGroup(2, 2)) == Step(Thrown(GroupNotFound), DuplicateState7)
  {
  }

  lemma DuplicateStep15()
    ensures ArriveChecked(DuplicateState2, ClientsGroup(1, 2)) == Step(Thrown(GroupAlreadyAdded), DuplicateState2)
  {
    var s := DuplicateState2;
    assert Ids(s.arrivedQueue) == [2];
  }

  /**
   * With the duplicate check as written, group 2 is queued and then a second
   * group with id 2 is seated next to group 1. When group 1 leaves, the sweep
   * seats the queued group 2 and Dictionary.Add throws, with the table already
   * holding it; after the seated group 2 leaves, two seats stay occupied by a
   * group that no Leave can reach. The corrected check refuses the second
   * arrival instead.
   */
  lemma QueuedIdArrivesAgain()
    ensures var s1 := Arrive(Initial(SingleThreeCapacity), ClientsGroup(2, 1));
            var s2 := Arrive(s1.state, ClientsGroup(2, 2));
            var s3 := Arrive(s2.state, ClientsGroup(1, 2));
            && s1.outcome == Ok && s2.outcome == Ok && s3.outcome == Ok
            && 2 in s3.state.groupTableMap && 2 in Ids(s3.state.arrivedQueue)
            && var s4 := Leave(s3.state, ClientsGroup(2, 1));
               && s4.outcome == Thrown(KeyAlreadyPresent)
               && var s5 := Leave(s4.state, ClientsGroup(1, 2));
                  && s5.outcome == Ok && s5.state.tables[0].occupied == 2
                  && s5.state.groupTableMap == map[] && s5.state.arrivedQueue == []
                  && Leave(s5.state, ClientsGroup(2, 2)).outcome == Thrown(GroupNotFound)
                  && ArriveChecked(s2.state, ClientsGroup(1, 2)) == Step(Thrown(GroupAlreadyAdded), s2.state)
  {
    SingleThreeInitial();
    DuplicateStep1();
    DuplicateStep2();
    DuplicateStep3();
    DuplicateStep10();
    DuplicateStep13();
    DuplicateStep14();
    DuplicateStep15();
    assert 2 in Ids(DuplicateState3.arrivedQueue);
  }

}
