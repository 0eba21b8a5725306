/** A shared table (RestManager/Models/Table.cs): its value view and its mutable object. */
module TableModel {
  import opened Basics
  import opened Groups

  /** Why an operation threw; each constructor names the exception the source raises. */
  datatype Error =
    | GroupAlreadyAdded   // "Group has already been added"
    | GroupNotFound       // "Group not found"
    | TableTooSmall       // "Table is too small"
    | KeyAlreadyPresent   // Dictionary.Add on an id that already has an entry

  datatype Outcome = Ok | Thrown(error: Error)

  /** The observable state of one table: capacity, occupied seats, seated groups in seating order. */
  datatype TableState = TableState(size: int, occupied: int, groups: seq<ClientsGroup>)
  {
    predicate IsFullyAvailable() { occupied == 0 }

    predicate IsPartiallyOccupied() { occupied > 0 && occupied != size }

    predicate IsFullyOccupied() { occupied == size }

    /** Whether the remaining seats suffice for `groupSize` more guests. */
    predicate CanFitMore(groupSize: int) { size - occupied >= groupSize }

    /**
     * Seating a group: refused when the group is larger than the whole table
     * (the absolute capacity, not the remaining one); otherwise the group is
     * appended and its seats counted.
     */
    function ArrangeGuesses(group: ClientsGroup): (r: (Outcome, TableState))
      ensures r.0 == Ok <==> group.size <= size
      ensures r.0 != Ok ==> r.0 == Thrown(TableTooSmall) && r.1 == this
      ensures r.0 == Ok ==> r.1.size == size && r.1.groups == groups + [group]
                            && r.1.occupied == occupied + group.size
    {
      if size < group.size then (Thrown(TableTooSmall), this)
      else (Ok, this.(groups := groups + [group], occupied := occupied + group.size))
    }

    /** Well-formed table: positive capacity, occupancy within it and equal to the seated sizes. */
    ghost predicate WellFormed()
    {
      && 0 < size
      && 0 <= occupied <= size
      && occupied == SizeSum(groups)
      && AllPositive(groups)
      && DistinctIds(groups)
    }
  }

  /** The state of a freshly constructed table. */
  function NewTable(size: int): TableState
  {
    TableState(size, 0, [])
  }

  /** A table's seats after the group at position `k` has gone (the table half of GetRidOfTheGroup). */
  function Release(t: TableState, k: nat): (r: TableState)
    requires k < |t.groups|
    ensures r.size == t.size && r.groups == RemoveAt(t.groups, k)
    ensures r.occupied == t.occupied - t.groups[k].size
  {
    TableState(t.size, t.occupied - t.groups[k].size, RemoveAt(t.groups, k))
  }

  /** With a positive capacity and occupancy in range, a table is in exactly one of the three states. */
  lemma ExactlyOneOccupancyState(t: TableState)
    requires 0 < t.size && 0 <= t.occupied <= t.size
    ensures t.IsFullyAvailable() || t.IsPartiallyOccupied() || t.IsFullyOccupied()
    ensures !(t.IsFullyAvailable() && t.IsPartiallyOccupied())
    ensures !(t.IsFullyAvailable() && t.IsFullyOccupied())
    ensures !(t.IsPartiallyOccupied() && t.IsFullyOccupied())
  {
  }

  /**
   * CanFitMore is exactly the test that seating the group succeeds and keeps
   * the table within its capacity.
   */
  lemma CanFitMoreIsRoomLeft(t: TableState, group: ClientsGroup)
    requires 0 <= t.occupied
    ensures t.CanFitMore(group.size) <==>
              (t.ArrangeGuesses(group).0 == Ok && t.ArrangeGuesses(group).1.occupied <= t.size)
  {
  }

  /** Seating a fitting, fresh, positive group keeps a well-formed table well-formed. */
  lemma ArrangeKeepsWellFormed(t: TableState, group: ClientsGroup)
    requires t.WellFormed() && t.CanFitMore(group.size) && group.size > 0
    requires group.groupId !in Ids(t.groups)
    ensures t.ArrangeGuesses(group).0 == Ok && t.ArrangeGuesses(group).1.WellFormed()
  {
  }

  /** Releasing a seated group keeps a well-formed table well-formed. */
  lemma ReleaseKeepsWellFormed(t: TableState, k: nat)
    requires t.WellFormed() && k < |t.groups|
    ensures Release(t, k).WellFormed()
  {
    SizeSumRemoveAt(t.groups, k);
    RemoveAtKeepsDistinct(t.groups, k);
    SizeSumNonnegative(RemoveAt(t.groups, k));
    SizeSumNonnegative([t.groups[k]]);
    assert SizeSum([t.groups[k]]) == t.groups[k].size;
  }

  /** Releasing the group just seated gives back the table as it was. */
  lemma ArrangeThenRelease(t: TableState, group: ClientsGroup)
    requires group.size <= t.size
    ensures Release(t.ArrangeGuesses(group).1, |t.groups|) == t
  {
  }

  /** A table object; `size` is init-only in the source, hence a constant here. */
  class Table {
    const size: int
    var occupiedPlaces: int
    var groups: seq<ClientsGroup>

    function State(): TableState
      reads this
    {
      TableState(size, occupiedPlaces, groups)
    }

    constructor (size: int)
      ensures State() == NewTable(size)
    {
      this.size := size;
      occupiedPlaces := 0;
      groups := [];
    }

    method ArrangeGuesses(group: ClientsGroup) returns (r: Outcome)
      modifies this
      ensures (r, State()) == old(State()).ArrangeGuesses(group)
    {
      if size < group.size {
        return Thrown(TableTooSmall);
      }
      groups := groups + [group];
      occupiedPlaces := occupiedPlaces + group.size;
      r := Ok;
    }
  }

  /** The states of a list of table objects, in list order. */
  function Snapshot(ts: seq<Table>): (r: seq<TableState>)
    reads ts
    ensures |r| == |ts|
    ensures forall i :: 0 <= i < |ts| ==> r[i] == ts[i].State()
  {
    if ts == [] then [] else [ts[0].State()] + Snapshot(ts[1..])
  }
}
