/** The rescheduler and the heartbeat monitor that calls it, working on the store in place. */
module RescheduleLoop {
  import opened Wrappers
  import opened Models
  import opened Scheduler
  import opened Protocol
  import opened Atomic
  import opened Store
  import opened Handlers
  import opened RescheduleRows
  import opened HeartbeatTick

  /** count rows moved, failed ones not; errors names the failed ones in the order they were listed. */
  datatype RescheduleResult = RescheduleResult(count: nat, failed: nat, errors: seq<SandboxId>)

  /** A start command for sandbox id is among the commands that were added. */
  ghost predicate GotStart(before: map<CmdId, Cmd>, after: map<CmdId, Cmd>, id: SandboxId) {
    exists c | c in after :: c !in before && after[c].kind == StartCmd && after[c].sandbox == id
  }

  ghost predicate OnlyStartsFor(before: map<CmdId, Cmd>, after: map<CmdId, Cmd>, items: Listing) {
    && Extends(before, after)
    && (forall c | c in after && c !in before :: exists x | x in items :: after[c].sandbox == x.0)
  }

  /** What the counters of a reschedule report, over the listed rows. */
  ghost predicate Accounts(result: RescheduleResult, items: Listing, before: map<CmdId, Cmd>, after: map<CmdId, Cmd>) {
    && result.count + result.failed == |items|
    && |result.errors| == result.failed
    && (forall e | e in result.errors :: exists y | y in items :: y.0 == e)
    && |after| == |before| + result.count
    && OnlyStartsFor(before, after, items)
    && (forall x | x in items :: x.0 in result.errors <==> !GotStart(before, after, x.0))
  }

  function Counted(result: RescheduleResult, id: SandboxId, ok: bool): RescheduleResult {
    if ok then result.(count := result.count + 1)
    else result.(failed := result.failed + 1, errors := result.errors + [id])
  }

  /** A start for another sandbox changes nothing for this one. */
  lemma GotStartStays(before: map<CmdId, Cmd>, mid: map<CmdId, Cmd>, after: map<CmdId, Cmd>, c: CmdId, id: SandboxId)
    requires c in after && c !in mid && after == mid[c := after[c]] && after[c].sandbox != id
    ensures GotStart(before, after, id) <==> GotStart(before, mid, id)
  {
    if GotStart(before, mid, id) {
      var k :| k in mid && k !in before && mid[k].kind == StartCmd && mid[k].sandbox == id;
      assert k in after && after[k] == mid[k];
    }
  }

  lemma AccountSuccess(result: RescheduleResult, items: Listing, x: (SandboxId, Row),
                       before: map<CmdId, Cmd>, mid: map<CmdId, Cmd>, after: map<CmdId, Cmd>)
    requires Accounts(result, items, before, mid) && Issued(mid, after, StartCmd, x.0)
    requires forall y | y in items :: y.0 != x.0
    ensures Accounts(Counted(result, x.0, true), items + [x], before, after)
  {
    var c :| c in after && c !in mid && after == mid[c := after[c]] && after[c].kind == StartCmd
      && after[c].sandbox == x.0;
    assert after.Keys == mid.Keys + {c};
    assert GotStart(before, after, x.0);
    assert x in items + [x];
    forall y | y in items ensures GotStart(before, after, y.0) <==> GotStart(before, mid, y.0) {
      GotStartStays(before, mid, after, c, y.0);
    }
  }

  lemma AccountFailure(result: RescheduleResult, items: Listing, x: (SandboxId, Row),
                       before: map<CmdId, Cmd>, after: map<CmdId, Cmd>)
    requires Accounts(result, items, before, after)
    requires forall y | y in items :: y.0 != x.0
    ensures Accounts(Counted(result, x.0, false), items + [x], before, after)
  {
    assert !GotStart(before, after, x.0);
    assert x in items + [x];
  }

  class Rescheduler {
    const plane: ControlPlane

    constructor (plane: ControlPlane)
      ensures this.plane == plane
    {
      this.plane := plane;
    }

    /** Move the running rows of a failed node, one after the other; a failing one does not stop the rest. */
    method RescheduleNode(node: NodeId) returns (result: Option<RescheduleResult>, ghost listed: Listing)
      modifies plane.store
      ensures result.Some? <==> !plane.store.script(old(plane.store.clock)).fails
      ensures result.None? ==> plane.Now() == old(plane.Now()).(clock := old(plane.store.clock) + 1)
      ensures result.Some? ==>
                && Lists(listed, old(plane.store.rows), Some(node))
                && plane.Now() == Rescheduled(old(plane.Now()).(clock := old(plane.store.clock) + 1), listed,
                                              plane.store.script)
                && Accounts(result.value, listed, old(plane.store.cmds), plane.store.cmds)
    {
      var store := plane.store;
      var ok, sandboxes := store.ListRunningSandboxesByNode(node);
      listed := sandboxes;
      if !ok { return None, listed; }
      var counts := RescheduleAll(sandboxes);
      result := Some(counts);
    }

    /** The same; the monitor only logs the counters. */
    method RescheduleAndLog(node: NodeId) returns (ok: bool, ghost listed: Listing)
      modifies plane.store
      ensures ok <==> !plane.store.script(old(plane.store.clock)).fails
      ensures !ok ==> plane.Now() == old(plane.Now()).(clock := old(plane.store.clock) + 1)
      ensures ok ==> Lists(listed, old(plane.store.rows), Some(node))
                     && plane.Now() == Rescheduled(old(plane.Now()).(clock := old(plane.store.clock) + 1), listed,
                                                   plane.store.script)
    {
      var result;
      result, listed := RescheduleNode(node);
      ok := result.Some?;
    }

    method RescheduleAll(sandboxes: Listing) returns (counts: RescheduleResult)
      requires forall i, j | 0 <= i < j < |sandboxes| :: sandboxes[i].0 != sandboxes[j].0
      modifies plane.store
      ensures plane.Now() == Rescheduled(old(plane.Now()), sandboxes, plane.store.script)
      ensures Accounts(counts, sandboxes, old(plane.store.cmds), plane.store.cmds)
    {
      counts := RescheduleResult(0, 0, []);
      var store := plane.store;
      ghost var begun := plane.Now();
      assert sandboxes[..0] == [];
      for i := 0 to |sandboxes|
        invariant plane.Now() == Rescheduled(begun, sandboxes[..i], store.script)
        invariant Accounts(counts, sandboxes[..i], old(store.cmds), store.cmds)
      {
        counts := RescheduleNext(sandboxes[i], counts, sandboxes[..i], begun, old(store.cmds));
        assert sandboxes[..i + 1] == sandboxes[..i] + [sandboxes[i]];
      }
      assert sandboxes[..|sandboxes|] == sandboxes;
    }

    /** One iteration: the row after the ones already done. */
    method RescheduleNext(x: (SandboxId, Row), counts: RescheduleResult, ghost done: Listing, ghost begun: Driven,
                          ghost before: map<CmdId, Cmd>) returns (counts': RescheduleResult)
      requires plane.Now() == Rescheduled(begun, done, plane.store.script)
      requires forall y | y in done :: y.0 != x.0
      requires Accounts(counts, done, before, plane.store.cmds)
      modifies plane.store
      ensures plane.Now() == Rescheduled(begun, done + [x], plane.store.script)
      ensures Accounts(counts', done + [x], before, plane.store.cmds)
    {
      RescheduledOneMore(begun, done, x, plane.store.script);
      ghost var mid := plane.store.cmds;
      var moved := RescheduleSandbox(x.0, x.1);
      if moved.Success? {
        AccountSuccess(counts, done, x, before, mid, plane.store.cmds);
        counts' := counts.(count := counts.count + 1);
      } else {
        AccountFailure(counts, done, x, before, mid);
        counts' := counts.(failed := counts.failed + 1, errors := counts.errors + [x.0]);
      }
    }

    method RescheduleSandbox(id: SandboxId, sandbox: Row) returns (r: HandlerResult)
      modifies plane.store
      ensures plane.Now() == old(plane.Driving(InLoop(MoveCas(id, sandbox))))
      ensures Issues(r.Success?, old(plane.store.cmds), plane.store.cmds, StartCmd, id)
    {
      var store := plane.store;
      DriveOnce(store.State(), InLoop(MoveCas(id, sandbox)), store.script, store.clock);
      var moved := store.TransitionSandboxState(id, Running, Pending);
      if !moved.GotRow? { return Failure(StoreError); }
      r := UnrouteAndReset(id, sandbox);
    }

    /** Both failures are only logged. */
    method UnrouteAndReset(id: SandboxId, sandbox: Row) returns (r: HandlerResult)
      modifies plane.store
      ensures plane.Now() == old(plane.Driving(InLoop(MoveUnroute(id, sandbox))))
      ensures Issues(r.Success?, old(plane.store.cmds), plane.store.cmds, StartCmd, id)
    {
      var store := plane.store;
      DriveOnce(store.State(), InLoop(MoveUnroute(id, sandbox)), store.script, store.clock);
      var removed := store.OnSandboxStopped(sandbox.app);
      r := ResetAndPlace(id, sandbox);
    }

    method ResetAndPlace(id: SandboxId, sandbox: Row) returns (r: HandlerResult)
      modifies plane.store
      ensures plane.Now() == old(plane.Driving(InLoop(MoveReset(id, sandbox))))
      ensures Issues(r.Success?, old(plane.store.cmds), plane.store.cmds, StartCmd, id)
    {
      var store := plane.store;
      DriveOnce(store.State(), InLoop(MoveReset(id, sandbox)), store.script, store.clock);
      var reset := store.ResetSandboxFailureCount(id);
      r := PlaceAgain(id, sandbox);
    }

    method PlaceAgain(id: SandboxId, sandbox: Row) returns (r: HandlerResult)
      modifies plane.store
      ensures plane.Now() == old(plane.Driving(InLoop(MovePlace(id, sandbox))))
      ensures Issues(r.Success?, old(plane.store.cmds), plane.store.cmds, StartCmd, id)
    {
      var store := plane.store;
      DriveOnce(store.State(), InLoop(MovePlace(id, sandbox)), store.script, store.clock);
      var nodes := store.ListHealthyNodes();
      if !nodes.GotNodes? { return Failure(StoreError); }
      r := PlaceOn(id, Need(sandbox), nodes.nodes);
    }

    method PlaceOn(id: SandboxId, need: int, nodes: seq<Node>) returns (r: HandlerResult)
      modifies plane.store
      ensures plane.Now() == if Place(nodes, need).Some? then old(plane.Driving(Assign(id, Place(nodes, need).value)))
                             else old(plane.Driving(InLoop(MoveFail(id))))
      ensures Issues(r.Success?, old(plane.store.cmds), plane.store.cmds, StartCmd, id)
    {
      var target := Schedule(nodes, need);
      if target.Failure? {
        GiveUp(id);
        return Failure(NoCapacity);
      }
      r := plane.AssignAndIssue(id, target.value);
    }

    method GiveUp(id: SandboxId)
      modifies plane.store
      ensures plane.Now() == old(plane.Driving(InLoop(MoveFail(id)))) && plane.store.cmds == old(plane.store.cmds)
    {
      var store := plane.store;
      DriveOnce(store.State(), InLoop(MoveFail(id)), store.script, store.clock);
      var failed := store.TransitionSandboxState(id, Pending, Failed);
    }
  }

  // ---------------------------------------------------------------- the heartbeat monitor

  /** The node was seen once, and longer than threshold ago. */
  predicate Silent(n: Node, lastSeen: map<NodeId, int>, now: int, threshold: int) {
    n.status == Healthy && n.id in lastSeen && now - lastSeen[n.id] > threshold
  }

  /** The silent ones among the first n nodes. */
  function SilentNodes(nodes: seq<Node>, lastSeen: map<NodeId, int>, now: int, threshold: int, n: nat): seq<NodeId>
    requires n <= |nodes|
  {
    if n == 0 then []
    else
      SilentNodes(nodes, lastSeen, now, threshold, n - 1)
      + if Silent(nodes[n - 1], lastSeen, now, threshold) then [nodes[n - 1].id] else []
  }

  /** A node is among them exactly when it is healthy and was last seen longer ago than the threshold; one that was
      never seen is not. */
  lemma {:induction false} SilentNodesAre(nodes: seq<Node>, lastSeen: map<NodeId, int>, now: int, threshold: int,
                                          n: nat, id: NodeId)
    requires n <= |nodes|
    ensures id in SilentNodes(nodes, lastSeen, now, threshold, n)
            <==> exists i | 0 <= i < n :: nodes[i].id == id && nodes[i].status == Healthy && id in lastSeen
                                          && lastSeen[id] < now - threshold
  {
    if n > 0 {
      SilentNodesAre(nodes, lastSeen, now, threshold, n - 1, id);
      assert nodes[n - 1].id == id && Silent(nodes[n - 1], lastSeen, now, threshold) ==>
          id in lastSeen && lastSeen[id] < now - threshold;
    }
  }

  function TurnNodes(turns: seq<Turn>): seq<NodeId> {
    if turns == [] then [] else TurnNodes(turns[..|turns| - 1]) + [turns[|turns| - 1].node]
  }

  lemma TurnNodesOneMore(turns: seq<Turn>, turn: Turn)
    ensures TurnNodes(turns + [turn]) == TurnNodes(turns) + [turn.node]
  {
    assert (turns + [turn])[..|turns|] == turns;
  }

  class HeartbeatMonitor {
    const rescheduler: Rescheduler

    constructor (rescheduler: Rescheduler)
      ensures this.rescheduler == rescheduler
    {
      this.rescheduler := rescheduler;
    }

    /** One tick: every silent node of the listing gets one turn, in the order of the listing. */
    method Tick(lastSeen: map<NodeId, int>, now: int, threshold: int) returns (ghost turns: seq<Turn>)
      modifies rescheduler.plane.store
      ensures var store := rescheduler.plane.store;
              && IsTick(old(rescheduler.plane.Now()).(clock := old(store.clock) + 1), turns, store.script,
                        rescheduler.plane.Now())
              && TurnNodes(turns) == if store.script(old(store.clock)).fails then []
                                     else SilentNodes(old(store.nodes), lastSeen, now, threshold, |old(store.nodes)|)
    {
      turns := [];
      var ok, nodes := rescheduler.plane.store.ListNodes();
      if !ok { return; }
      ghost var begun := rescheduler.plane.Now();
      for i := 0 to |nodes|
        invariant IsTick(begun, turns, rescheduler.plane.store.script, rescheduler.plane.Now())
        invariant TurnNodes(turns) == SilentNodes(nodes, lastSeen, now, threshold, i)
      {
        turns := Check(nodes[i], lastSeen, now, threshold, turns, begun);
      }
    }

    /** The iteration for one node. */
    method Check(n: Node, lastSeen: map<NodeId, int>, now: int, threshold: int, ghost turns: seq<Turn>,
                 ghost begun: Driven) returns (ghost turns': seq<Turn>)
      requires IsTick(begun, turns, rescheduler.plane.store.script, rescheduler.plane.Now())
      modifies rescheduler.plane.store
      ensures IsTick(begun, turns', rescheduler.plane.store.script, rescheduler.plane.Now())
      ensures TurnNodes(turns') == TurnNodes(turns) + if Silent(n, lastSeen, now, threshold) then [n.id] else []
    {
      turns' := turns;
      if n.status != Healthy { return; }
      if n.id !in lastSeen { return; }
      if now - lastSeen[n.id] > threshold {
        ghost var before := rescheduler.plane.Now();
        ghost var turn := TakeTurn(n.id);
        IsTickOneMore(begun, turns, turn, rescheduler.plane.store.script, before);
        TurnNodesOneMore(turns, turn);
        turns' := turns + [turn];
      }
    }

    method TakeTurn(node: NodeId) returns (ghost turn: Turn)
      modifies rescheduler.plane.store
      ensures turn.node == node && Happens(old(rescheduler.plane.Now()), turn, rescheduler.plane.store.script)
      ensures rescheduler.plane.Now()
              == AfterTurn(old(rescheduler.plane.Now()), turn, rescheduler.plane.store.script)
    {
      ghost var before := rescheduler.plane.Now();
      var marked := rescheduler.plane.store.MarkNodeUnhealthy(node);
      if !marked { return Unmarked(node); }
      ghost var now := rescheduler.plane.Now();
      assert now == Driven(before.db.(nodes := Mark(before.db.nodes, node)), before.clock + 1);
      turn := RescheduleMarked(node, before);
    }

    /** The node's status has just been written. */
    method RescheduleMarked(node: NodeId, ghost before: Driven) returns (ghost turn: Turn)
      requires rescheduler.plane.Now() == Driven(before.db.(nodes := Mark(before.db.nodes, node)), before.clock + 1)
      requires !rescheduler.plane.store.script(before.clock).fails
      modifies rescheduler.plane.store
      ensures turn.node == node && Happens(before, turn, rescheduler.plane.store.script)
      ensures rescheduler.plane.Now() == AfterTurn(before, turn, rescheduler.plane.store.script)
    {
      ghost var now := rescheduler.plane.Now();
      var ok, listed := rescheduler.RescheduleAndLog(node);
      TurnFollows(before, now, rescheduler.plane.Now(), node, listed, ok, rescheduler.plane.store.script);
      turn := if ok then Moved(node, listed) else Unlisted(node);
    }
  }

  /** marked is the state after the status write, after the one after the call. */
  lemma TurnFollows(before: Driven, marked: Driven, after: Driven, node: NodeId, listed: Listing, ok: bool,
                    script: nat -> Choice)
    requires marked == Driven(before.db.(nodes := Mark(before.db.nodes, node)), before.clock + 1)
    requires !script(before.clock).fails && (ok <==> !script(marked.clock).fails)
    requires !ok ==> after == marked.(clock := marked.clock + 1)
    requires ok ==> Lists(listed, marked.db.rows, Some(node))
                    && after == Rescheduled(marked.(clock := marked.clock + 1), listed, script)
    ensures var turn := if ok then Moved(node, listed) else Unlisted(node);
            Happens(before, turn, script) && after == AfterTurn(before, turn, script)
  {
  }
}
