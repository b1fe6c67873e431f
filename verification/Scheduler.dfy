/** Node placement (control/internal/scheduler/scheduler.go). */
module Scheduler {
  import opened Wrappers

  type NodeId = nat

  datatype NodeStatus = Healthy | Unhealthy | Draining | Removed

  datatype Node = Node(id: NodeId, capacityMB: int, usedMB: int, status: NodeStatus)

  datatype ScheduleError = ErrNoNodes | ErrNoCapacity

  predicate IsInt32(x: int) { -0x8000_0000 <= x < 0x8000_0000 }

  /** Two's-complement wrap-around of a 32-bit result. */
  function Wrap32(x: int): (r: int)
    ensures IsInt32(r)
    ensures IsInt32(x) ==> r == x
  {
    (x + 0x8000_0000) % 0x1_0000_0000 - 0x8000_0000
  }

  /** Free RAM as the int32 subtraction computes it. */
  function Free(n: Node): int { Wrap32(n.capacityMB - n.usedMB) }

  /** A candidate that passes every filter of the loop. */
  predicate Fits(n: Node, requiredMB: int) {
    n.status == Healthy && requiredMB <= Free(n) && 0 <= Free(n)
  }

  /** Index i is the first of the maximal-free candidates among those that fit. */
  ghost predicate FirstBest(nodes: seq<Node>, requiredMB: int, i: nat) {
    && i < |nodes|
    && Fits(nodes[i], requiredMB)
    && (forall j | 0 <= j < |nodes| && Fits(nodes[j], requiredMB) :: Free(nodes[j]) <= Free(nodes[i]))
    && (forall j | 0 <= j < i && Fits(nodes[j], requiredMB) :: Free(nodes[j]) < Free(nodes[i]))
  }

  /** Index of the best candidate of the first n ones, or |nodes| when none fits. */
  function BestOf(nodes: seq<Node>, requiredMB: int, n: nat): (r: nat)
    requires n <= |nodes|
    ensures r < n || r == |nodes|
    ensures r < n ==> FirstBest(nodes[..n], requiredMB, r)
    ensures r == |nodes| ==> forall j | 0 <= j < n :: !Fits(nodes[j], requiredMB)
  {
    if n == 0 then |nodes|
    else
      var best := BestOf(nodes, requiredMB, n - 1);
      assert forall j | 0 <= j < n - 1 :: nodes[..n-1][j] == nodes[..n][j];
      if Fits(nodes[n-1], requiredMB) && (best == |nodes| || Free(nodes[best]) < Free(nodes[n-1]))
      then n - 1 else best
  }

  /** The node a placement selects, as a value; None when nothing fits. */
  function Place(nodes: seq<Node>, requiredMB: int): Option<NodeId> {
    var best := BestOf(nodes, requiredMB, |nodes|);
    if best < |nodes| then Some(nodes[best].id) else None
  }

  /** What a placement promises: a healthy node of the list that fits, and none roomier. */
  lemma PlaceIsBest(nodes: seq<Node>, requiredMB: int)
    ensures Place(nodes, requiredMB).Some? ==>
              exists i: nat :: FirstBest(nodes, requiredMB, i) && nodes[i].id == Place(nodes, requiredMB).value
    ensures Place(nodes, requiredMB).None? <==> forall n | n in nodes :: !Fits(n, requiredMB)
  {
    var best := BestOf(nodes, requiredMB, |nodes|);
    assert nodes[..|nodes|] == nodes;
    if best < |nodes| {
      assert FirstBest(nodes, requiredMB, best);
      assert nodes[best] in nodes;
    }
  }

  /** The loop of Schedule: bestFree starts at -1 and only a strictly larger value replaces it. */
  method Schedule(candidates: seq<Node>, requiredMB: int) returns (r: Result<NodeId, ScheduleError>)
    ensures candidates == [] <==> r == Failure(ErrNoNodes)
    ensures r.Success? <==> exists i: nat :: FirstBest(candidates, requiredMB, i)
    ensures forall i: nat | FirstBest(candidates, requiredMB, i) :: r == Success(candidates[i].id)
    ensures r.Success? <==> Place(candidates, requiredMB).Some?
    ensures r.Success? ==> Place(candidates, requiredMB) == Some(r.value)
  {
    if candidates == [] {
      return Failure(ErrNoNodes);
    }
    var bestID: NodeId := 0;
    var bestFree := -1;
    ghost var best: nat := |candidates|;
    for k := 0 to |candidates|
      invariant best == BestOf(candidates, requiredMB, k)
      invariant best == |candidates| ==> bestFree == -1
      invariant best < |candidates| ==> bestFree == Free(candidates[best]) && bestID == candidates[best].id
    {
      var c := candidates[k];
      if c.status != Healthy { continue; }
      var free := Free(c);
      if free < requiredMB { continue; }
      if free > bestFree {
        bestFree := free;
        bestID := c.id;
        best := k;
      }
    }
    assert candidates[..|candidates|] == candidates;
    if bestFree < 0 {
      assert best == |candidates|;
      return Failure(ErrNoCapacity);
    }
    assert FirstBest(candidates, requiredMB, best);
    forall i: nat | FirstBest(candidates, requiredMB, i) ensures i == best {
      FirstBestIsUnique(candidates, requiredMB, i, best);
    }
    return Success(bestID);
  }

  lemma FirstBestIsUnique(nodes: seq<Node>, requiredMB: int, i: nat, j: nat)
    requires FirstBest(nodes, requiredMB, i) && FirstBest(nodes, requiredMB, j)
    ensures i == j
  {
  }

  /** On int32 capacity and use the subtraction is exact exactly when its result is an int32, and so whenever neither is
      negative. */
  lemma FreeIsExactIff(n: Node)
    requires IsInt32(n.capacityMB) && IsInt32(n.usedMB)
    ensures Free(n) == n.capacityMB - n.usedMB <==> IsInt32(n.capacityMB - n.usedMB)
    ensures 0 <= n.capacityMB && 0 <= n.usedMB ==> Free(n) == n.capacityMB - n.usedMB
  {
  }

  /** The list ListHealthyNodes returns: healthy nodes, roomiest first. */
  ghost predicate HealthyDescending(nodes: seq<Node>) {
    && (forall n | n in nodes :: n.status == Healthy)
    && (forall i, j | 0 <= i < j < |nodes| :: Free(nodes[j]) <= Free(nodes[i]))
  }

  /** On that list the search is only ever about the head. */
  lemma PlaceOnDescendingIsHead(nodes: seq<Node>, requiredMB: int)
    requires HealthyDescending(nodes) && nodes != [] && 0 <= requiredMB
    ensures Place(nodes, requiredMB)
            == if requiredMB <= Free(nodes[0]) then Some(nodes[0].id) else None
  {
    PlaceIsBest(nodes, requiredMB);
    assert nodes[0] in nodes;
    if requiredMB <= Free(nodes[0]) {
      assert FirstBest(nodes, requiredMB, 0);
      var i: nat :| FirstBest(nodes, requiredMB, i) && nodes[i].id == Place(nodes, requiredMB).value;
      FirstBestIsUnique(nodes, requiredMB, i, 0);
    } else {
      forall n | n in nodes ensures !Fits(n, requiredMB) {
        var j :| 0 <= j < |nodes| && nodes[j] == n;
      }
    }
  }

  /** A node whose free memory is below the int32 range looks roomy to the search: alone, it is picked exactly when it
      is healthy and the requirement is at most its wrapped free memory. Only a direct caller can pass such a node: the
      listing's ORDER BY computes the same difference as an int4, and Postgres rejects one out of range. */
  lemma WrappedNodeIsPickedIff(n: Node, requiredMB: int)
    requires IsInt32(n.capacityMB) && IsInt32(n.usedMB) && n.capacityMB - n.usedMB < -0x8000_0000
    ensures Free(n) == n.capacityMB - n.usedMB + 0x1_0000_0000 && Free(n) > 0
    ensures Place([n], requiredMB) == Some(n.id)
            <==> n.status == Healthy && requiredMB <= n.capacityMB - n.usedMB + 0x1_0000_0000
  {
    PlaceIsBest([n], requiredMB);
    assert n in [n];
    if Fits(n, requiredMB) {
      var i: nat :| FirstBest([n], requiredMB, i) && [n][i].id == Place([n], requiredMB).value;
    }
  }
}
