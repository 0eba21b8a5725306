/** Client groups (RestManager/Models/ClientsGroup.cs) and facts about lists of them. */
module Groups {
  import opened Basics

  /** An arriving party: how many seats it needs and the caller-chosen id. */
  datatype ClientsGroup = ClientsGroup(size: int, groupId: int)

  /** Seats taken by all the groups together. */
  function SizeSum(gs: seq<ClientsGroup>): int
  {
    if gs == [] then 0 else SizeSum(gs[..|gs| - 1]) + gs[|gs| - 1].size
  }

  /** The ids of the groups, position by position. */
  function Ids(gs: seq<ClientsGroup>): (ids: seq<int>)
    ensures |ids| == |gs|
    ensures forall k :: 0 <= k < |gs| ==> ids[k] == gs[k].groupId
  {
    seq(|gs|, k requires 0 <= k < |gs| => gs[k].groupId)
  }

  /** No id occurs twice. */
  ghost predicate DistinctIds(gs: seq<ClientsGroup>)
  {
    forall a, b :: 0 <= a < b < |gs| ==> gs[a].groupId != gs[b].groupId
  }

  ghost predicate AllPositive(gs: seq<ClientsGroup>)
  {
    forall k :: 0 <= k < |gs| ==> gs[k].size > 0
  }

  /** `Groups.FirstOrDefault(g => g.GroupId == id)`: the position of the first group with that id. */
  function FindGroup(gs: seq<ClientsGroup>, id: int): (r: Option<nat>)
    ensures r.None? <==> id !in Ids(gs)
    ensures r.Some? ==> r.value < |gs| && gs[r.value].groupId == id
    ensures r.Some? ==> forall j :: 0 <= j < r.value ==> gs[j].groupId != id
  {
    var r := FindGroupFrom(gs, id, 0);
    assert r.None? ==> forall j :: 0 <= j < |gs| ==> Ids(gs)[j] != id;
    r
  }

  /** The scan of FindGroup from position `from` on. */
  function FindGroupFrom(gs: seq<ClientsGroup>, id: int, from: nat): (r: Option<nat>)
    requires from <= |gs|
    ensures r.None? <==> forall j :: from <= j < |gs| ==> gs[j].groupId != id
    ensures r.Some? ==> from <= r.value < |gs| && gs[r.value].groupId == id
    ensures r.Some? ==> forall j :: from <= j < r.value ==> gs[j].groupId != id
    decreases |gs| - from
  {
    if from == |gs| then None
    else if gs[from].groupId == id then Some(from)
    else FindGroupFrom(gs, id, from + 1)
  }

  lemma SizeSumAppend(gs: seq<ClientsGroup>, g: ClientsGroup)
    ensures SizeSum(gs + [g]) == SizeSum(gs) + g.size
  {
  }

  lemma {:induction false} SizeSumNonnegative(gs: seq<ClientsGroup>)
    requires AllPositive(gs)
    ensures SizeSum(gs) >= 0
    ensures gs != [] ==> SizeSum(gs) > 0
  {
    if gs != [] {
      SizeSumNonnegative(gs[..|gs| - 1]);
    }
  }

  /** Taking one group out of the list frees exactly its seats. */
  lemma {:induction false} SizeSumRemoveAt(gs: seq<ClientsGroup>, k: nat)
    requires k < |gs|
    ensures SizeSum(RemoveAt(gs, k)) == SizeSum(gs) - gs[k].size
    decreases |gs|
  {
    var last := |gs| - 1;
    if k < last {
      var init := gs[..last];
      SizeSumRemoveAt(init, k);
      assert RemoveAt(gs, k) == RemoveAt(init, k) + [gs[last]];
      SizeSumAppend(RemoveAt(init, k), gs[last]);
    } else {
      assert RemoveAt(gs, k) == gs[..last];
    }
  }

  lemma RemoveAtKeepsDistinct(gs: seq<ClientsGroup>, k: nat)
    requires k < |gs| && DistinctIds(gs)
    ensures DistinctIds(RemoveAt(gs, k))
    ensures gs[k].groupId !in Ids(RemoveAt(gs, k))
    ensures forall id :: id in Ids(RemoveAt(gs, k)) <==> id in Ids(gs) && id != gs[k].groupId
  {
    var r := RemoveAt(gs, k);
    forall id | id in Ids(gs) && id != gs[k].groupId ensures id in Ids(r) {
      var j :| 0 <= j < |gs| && Ids(gs)[j] == id;
      if j < k { assert Ids(r)[j] == id; } else { assert Ids(r)[j - 1] == id; }
    }
  }
}
