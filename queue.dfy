/**
 * The waiting queue, a priority queue keyed by group size. Entries are kept in
 * insertion order; the head is the first entry of least size.
 */
module WaitQueue {
  import opened Basics
  import opened Groups

  /** Position of the head: least size, earliest among equal sizes. */
  function MinIndex(q: seq<ClientsGroup>): (k: nat)
    requires q != []
    ensures k < |q|
    ensures forall j :: 0 <= j < |q| ==> q[k].size <= q[j].size
    ensures forall j :: 0 <= j < k ==> q[j].size > q[k].size
  {
    MinIndexFrom(q, 0)
  }

  /** The head of the part of the queue from position `from` on. */
  function MinIndexFrom(q: seq<ClientsGroup>, from: nat): (k: nat)
    requires from < |q|
    ensures from <= k < |q|
    ensures forall j :: from <= j < |q| ==> q[k].size <= q[j].size
    ensures forall j :: from <= j < k ==> q[j].size > q[k].size
    decreases |q| - from
  {
    if from == |q| - 1 then from
    else
      var m := MinIndexFrom(q, from + 1);
      if q[from].size <= q[m].size then from else m
  }

  /** TryPeek on a non-empty queue. */
  function Peek(q: seq<ClientsGroup>): (g: ClientsGroup)
    requires q != []
    ensures g in q && forall j :: 0 <= j < |q| ==> g.size <= q[j].size
  {
    q[MinIndex(q)]
  }

  /** TryDequeue on a non-empty queue: the head and what stays queued. */
  function Dequeue(q: seq<ClientsGroup>): (r: (ClientsGroup, seq<ClientsGroup>))
    requires q != []
    ensures r.0 == Peek(q) && |r.1| == |q| - 1
    ensures forall j :: 0 <= j < |r.1| ==> r.0.size <= r.1[j].size
  {
    var k := MinIndex(q);
    (q[k], RemoveAt(q, k))
  }

  /** Dequeuing takes out exactly the head: the rest plus the head is the old queue. */
  lemma DequeueIsRemoval(q: seq<ClientsGroup>)
    requires q != []
    ensures multiset(Dequeue(q).1) + multiset{Dequeue(q).0} == multiset(q)
  {
    RemoveAtMultiset(q, MinIndex(q));
  }

  lemma DequeueKeepsDistinct(q: seq<ClientsGroup>)
    requires q != [] && DistinctIds(q)
    ensures DistinctIds(Dequeue(q).1)
    ensures Dequeue(q).0.groupId !in Ids(Dequeue(q).1)
    ensures forall id :: id in Ids(Dequeue(q).1) ==> id in Ids(q)
  {
  }
}
