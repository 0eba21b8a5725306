/** The configured capacities (RestManager/Configurations/TablesConfiguration.cs). */
module Configurations {
  import opened TableModel

  /** An ordered list of capacities, one table each. */
  datatype TablesConfiguration = TablesConfiguration(sizes: seq<int>)
  {
    /** One fresh, empty table per configured size, in configuration order (nothing is sorted). */
    function Tables(): (ts: seq<TableState>)
      ensures |ts| == |sizes|
      ensures forall i :: 0 <= i < |sizes| ==>
                ts[i].size == sizes[i] && ts[i].IsFullyAvailable() && ts[i].groups == []
    {
      seq(|sizes|, i requires 0 <= i < |sizes| => NewTable(sizes[i]))
    }
  }

  /** The parameterless constructor: no sizes, hence no tables. */
  function DefaultConfiguration(): (c: TablesConfiguration)
    ensures c.sizes == [] && c.Tables() == []
  {
    TablesConfiguration([])
  }

  /** Allocates the table objects of a configuration: fresh, pairwise distinct, one per size. */
  method CreateTables(configuration: TablesConfiguration) returns (ts: seq<Table>)
    ensures Snapshot(ts) == configuration.Tables()
    ensures forall i :: 0 <= i < |ts| ==> fresh(ts[i])
    ensures forall i, j :: 0 <= i < j < |ts| ==> ts[i] != ts[j]
  {
    var sizes := configuration.sizes;
    ts := [];
    var n := 0;
    while n < |sizes|
      invariant 0 <= n <= |sizes| && |ts| == n
      invariant forall i :: 0 <= i < n ==> fresh(ts[i]) && ts[i].State() == NewTable(sizes[i])
      invariant forall i, j :: 0 <= i < j < n ==> ts[i] != ts[j]
    {
      var t := new Table(sizes[n]);
      ts := ts + [t];
      n := n + 1;
    }
    assert Snapshot(ts) == configuration.Tables();
  }
}
