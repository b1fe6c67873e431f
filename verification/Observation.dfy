/**
 What the agent observes and what the control plane makes of it: the heartbeat, the containers endpoint, the
 control plane's client of it, the reconciling loop and the freshness check.
 */
module Observation {
  import opened Wrappers
  import opened Reconcile

  // ---------------------------------------------------------------- agent: the containers endpoint

  datatype Response = Response(status: int, found: bool, state: string)

  /** The first container of that name, or the number of containers. */
  function Find(containers: seq<Container>, name: App): (r: nat)
    ensures r <= |containers|
    ensures r < |containers| ==> containers[r].app == name
    ensures forall i | 0 <= i < r :: containers[i].app != name
  {
    if containers == [] then 0
    else if containers[0].app == name then 0
    else
      var r := 1 + Find(containers[1..], name);
      assert forall i | 1 <= i < r :: containers[i] == containers[1..][i - 1];
      r
  }

  /** snapshot is None when Docker could not be listed. */
  function Served(name: App, snapshot: Option<seq<Container>>): Response {
    if name == "" then Response(400, false, "")
    else if snapshot.None? then Response(500, false, "")
    else
      var i := Find(snapshot.value, name);
      if i < |snapshot.value| then Response(200, true, snapshot.value[i].state) else Response(404, false, "")
  }

  method ServeHTTP(name: App, snapshot: Option<seq<Container>>) returns (r: Response)
    ensures r == Served(name, snapshot)
    ensures r.status == 404 <==> name != "" && snapshot.Some? && name !in Names(snapshot.value)
    ensures r.status == 200 <==> name != "" && snapshot.Some? && name in Names(snapshot.value)
    ensures r.status == 200 ==>
              exists i | 0 <= i < |snapshot.value| ::
                && snapshot.value[i].app == name && r == Response(200, true, snapshot.value[i].state)
                && forall j | 0 <= j < i :: snapshot.value[j].app != name
    ensures r.status != 200 ==> !r.found
    ensures name == "" <==> r.status == 400
    ensures name != "" && snapshot.None? <==> r.status == 500
  {
    if name == "" { return Response(400, false, ""); }
    if snapshot.None? { return Response(500, false, ""); }
    var containers := snapshot.value;
    for i := 0 to |containers|
      invariant forall j | 0 <= j < i :: containers[j].app != name
    {
      if containers[i].app == name {
        assert containers[i] in containers;
        FindIs(containers, name, i);
        return Response(200, true, containers[i].state);
      }
    }
    FindIs(containers, name, |containers|);
    return Response(404, false, "");
  }

  lemma FindIs(containers: seq<Container>, name: App, i: nat)
    requires i <= |containers| && (i < |containers| ==> containers[i].app == name)
    requires forall j | 0 <= j < i :: containers[j].app != name
    ensures Find(containers, name) == i
    ensures i == |containers| <==> name !in Names(containers)
  {
    if i < |containers| {
      assert containers[i] in containers;
    }
  }

  // ---------------------------------------------------------------- agent: the heartbeat

  /** What one tick sends: nothing at all when the snapshot fails. */
  method SendHeartbeat(snapshot: Option<seq<Container>>) returns (sent: Option<seq<Container>>)
    ensures sent == snapshot
  {
    if snapshot.None? { return None; }
    var containers: seq<Container> := [];
    for i := 0 to |snapshot.value|
      invariant containers == snapshot.value[..i]
    {
      var s := snapshot.value[i];
      containers := containers + [Container(s.app, s.state, s.port, s.id)];
    }
    assert snapshot.value[..|snapshot.value|] == snapshot.value;
    return Some(containers);
  }

  // ---------------------------------------------------------------- control plane: the client

  datatype Answer = Present(state: string) | Absent | Unknown

  /** reply is None when the request failed; decodes is whether a 200 body could be decoded. */
  method ContainerExists(row: Option<Rec>, nodeFound: bool, reply: Option<Response>, decodes: bool) returns (r: Answer)
    ensures r == Interpreted(row, nodeFound, reply, decodes)
    ensures r == Absent ==> row.Some? && row.value.node.Some? && reply.Some?
                            && (reply.value.status == 404 || (reply.value.status == 200 && !reply.value.found))
    ensures r.Present? ==> row.Some? && row.value.node.Some? && nodeFound && reply.Some? && decodes
                           && reply.value == Response(200, true, r.state)
  {
    if row.None? { return Unknown; }
    if row.value.node.None? { return Unknown; }
    if !nodeFound { return Unknown; }
    if reply.None? { return Unknown; }
    if reply.value.status == 200 {
      if !decodes { return Unknown; }
      return if reply.value.found then Present(reply.value.state) else Absent;
    } else if reply.value.status == 404 {
      return Absent;
    } else {
      return Unknown;
    }
  }

  function Interpreted(row: Option<Rec>, nodeFound: bool, reply: Option<Response>, decodes: bool): Answer {
    if row.None? || row.value.node.None? || !nodeFound || reply.None? then Unknown
    else if reply.value.status == 200 then
      if !decodes then Unknown else if reply.value.found then Present(reply.value.state) else Absent
    else if reply.value.status == 404 then Absent
    else Unknown
  }

  /** Asked about a name, agent and client together answer absent only on the strength of a successful listing that
      lacks it, and always when one does. */
  lemma AbsentIffListedWithout(row: Rec, name: App, snapshot: Option<seq<Container>>, decodes: bool)
    requires row.node.Some? && name != ""
    ensures Interpreted(Some(row), true, Some(Served(name, snapshot)), decodes) == Absent
            <==> snapshot.Some? && name !in Names(snapshot.value)
  {
    if snapshot.Some? {
      FindIs(snapshot.value, name, Find(snapshot.value, name));
    }
  }

  /** When the listing has the name they give the state of the first container of that name. */
  lemma PresentIsTheListedState(row: Rec, name: App, containers: seq<Container>, i: nat)
    requires row.node.Some? && name != "" && i < |containers| && containers[i].app == name
    requires forall j | 0 <= j < i :: containers[j].app != name
    ensures Interpreted(Some(row), true, Some(Served(name, Some(containers))), true) == Present(containers[i].state)
  {
    FindIs(containers, name, i);
  }

  // ---------------------------------------------------------------- control plane: the store and its two readers

  datatype Fetched = ReadFailed | NotFound | Cached(row: Rec, verifiedAt: int) | Confirmed(row: Rec, verifiedAt: int)

  class SandboxTable {
    var rows: Table
    /** Statements issued so far; script(calls) decides the next one. */
    var calls: nat
    const script: nat -> Reading

    constructor (rows: Table, script: nat -> Reading)
      ensures this.rows == rows && calls == 0 && this.script == script
    {
      this.rows, this.script, calls := rows, script, 0;
    }

    method ListSandboxesForNode(node: NodeId) returns (ok: bool, items: seq<Listed>)
      modifies this`calls
      ensures calls == old(calls) + 1 && ok == !script(old(calls)).fails
      ensures ok ==> ListsNode(items, rows, node)
    {
      ok, items := !script(calls).fails, [];
      calls := calls + 1;
      if !ok { return; }
      var todo := rows.Keys;
      while todo != {}
        invariant todo <= rows.Keys
        invariant forall i, j | 0 <= i < j < |items| :: items[i].app != items[j].app
        invariant forall x | x in items ::
                    x.app in rows && x.app !in todo && rows[x.app].node == Some(node)
                    && IsActive(rows[x.app].state) && rows[x.app].createdAt == x.createdAt
        invariant forall app | app in rows && app !in todo && rows[app].node == Some(node)
                               && IsActive(rows[app].state) ::
                    Listed(app, rows[app].createdAt) in items
        decreases todo
      {
        var app :| app in todo;
        todo := todo - {app};
        if rows[app].node == Some(node) && IsActive(rows[app].state) {
          items := items + [Listed(app, rows[app].createdAt)];
        }
      }
    }

    method GetSandboxByName(app: App) returns (failed: bool, row: Option<Rec>)
      modifies this`calls
      ensures calls == old(calls) + 1 && failed == script(old(calls)).fails
      ensures row == if !failed && app in rows then Some(rows[app]) else None
    {
      failed, row := script(calls).fails, None;
      calls := calls + 1;
      if !failed && app in rows {
        row := Some(rows[app]);
      }
    }

    method MarkSandboxVerified(app: App, state: string) returns (ok: bool)
      modifies this
      ensures calls == old(calls) + 1
      ensures forall node :: rows == DoWrite(old(rows), node, Verify(app, state), script(old(calls)))
      ensures ok == (!script(old(calls)).fails
                     && (app in old(rows) ==> !VerifyRejected(old(rows)[app], state, script(old(calls)).now)))
    {
      var at := script(calls);
      calls := calls + 1;
      ok := !at.fails;
      if ok && app in rows && rows[app].verifiedAt < at.now {
        ok := IsState(state);
        if ok {
          rows := rows[app := rows[app].(state := state, verifiedAt := at.now)];
        }
      }
    }

    method MarkSandboxAgentLost(app: App, node: NodeId) returns (ok: bool)
      modifies this
      ensures calls == old(calls) + 1 && ok == !script(old(calls)).fails
      ensures rows == DoWrite(old(rows), node, Lose(app), script(old(calls)))
    {
      var at := script(calls);
      calls := calls + 1;
      ok := !at.fails;
      if ok && app in rows && LoseSelects(rows[app], node, at.now) {
        rows := rows[app := rows[app].(state := "destroyed", reason := "agent_lost_at_heartbeat",
                                       verifiedAt := at.now)];
      }
    }

    method MarkSandboxDestroyed(app: App) returns (ok: bool)
      modifies this
      ensures calls == old(calls) + 1 && ok == !script(old(calls)).fails
      ensures rows == if ok && app in old(rows)
                         && old(rows)[app].state in {"pending", "starting", "running", "restarting"}
                      then old(rows)[app := old(rows)[app].(state := "destroyed", version := old(rows)[app].version + 1,
                                                            reason := "agent_lost_at_freshness_check",
                                                            verifiedAt := script(old(calls)).now)]
                      else old(rows)
    {
      var at := script(calls);
      calls := calls + 1;
      ok := !at.fails;
      if ok && app in rows && IsActive(rows[app].state) {
        rows := rows[app := rows[app].(state := "destroyed", reason := "agent_lost_at_freshness_check",
                                       verifiedAt := at.now, version := rows[app].version + 1)];
      }
    }
  }

  // ---------------------------------------------------------------- control plane: the reconciler

  /** How many of the n statements from k on do not fail. */
  function Successes(script: nat -> Reading, k: nat, n: nat): nat {
    if n == 0 then 0 else Successes(script, k, n - 1) + if script(k + n - 1).fails then 0 else 1
  }

  /** Successes counts them. */
  lemma {:induction false} SuccessesCount(script: nat -> Reading, k: nat, n: nat)
    ensures Successes(script, k, n) == |set i: nat | k <= i < k + n && !script(i).fails|
  {
    var all := set i: nat | k <= i < k + n && !script(i).fails;
    if n == 0 {
      assert all == {};
    } else {
      SuccessesCount(script, k, n - 1);
      var earlier := set i: nat | k <= i < k + (n - 1) && !script(i).fails;
      assert all == if script(k + n - 1).fails then earlier else earlier + {k + n - 1};
    }
  }

  lemma LosesOneMore(items: seq<Listed>, i: nat, reported: set<App>, now: int)
    requires i < |items|
    ensures Loses(items[..i + 1], reported, Some(now))
            == if items[i].app in reported || now - items[i].createdAt < GRACE
              then Loses(items[..i], reported, Some(now))
               else Loses(items[..i], reported, Some(now)) + [Lose(items[i].app)]
  {
    assert items[..i + 1][..i] == items[..i];
  }

  class HeartbeatReconciler {
    const table: SandboxTable

    constructor (table: SandboxTable)
      ensures this.table == table
    {
      this.table := table;
    }

    /** The pass is its plan of writes, executed in order whether or not they fail; only a failing listing stops it. */
    method Reconcile(node: NodeId, containers: seq<Container>, now: int)
      returns (ok: bool, driftCount: nat, ghost items: seq<Listed>)
      modifies table
      ensures ok == !table.script(old(table.calls)).fails
      ensures !ok ==> table.rows == old(table.rows) && driftCount == 0
      ensures ok ==>
                var plan := Plan(containers, items, Some(now));
                && ListsNode(items, old(table.rows), node)
                && table.rows == Apply(old(table.rows), node, plan, table.script, old(table.calls) + 1)
                && table.calls == old(table.calls) + 1 + |plan|
                && driftCount == Successes(table.script, old(table.calls) + 1 + |containers|,
                                           |Loses(items, Names(containers), Some(now))|)
    {
      driftCount, items := 0, [];
      var dbRows;
      ok, dbRows := table.ListSandboxesForNode(node);
      if !ok { return; }
      items := dbRows;
      driftCount := WritePlan(node, containers, dbRows, now);
    }

    method WritePlan(node: NodeId, containers: seq<Container>, dbRows: seq<Listed>, now: int) returns (driftCount: nat)
      modifies table
      ensures table.rows
              == Apply(old(table.rows), node, Plan(containers, dbRows, Some(now)), table.script, old(table.calls))
      ensures table.calls == old(table.calls) + |Plan(containers, dbRows, Some(now))|
      ensures driftCount == Successes(table.script, old(table.calls) + |containers|,
                                      |Loses(dbRows, Names(containers), Some(now))|)
    {
      PlanSplits(table.rows, node, containers, dbRows, now, table.script, table.calls, Verifies(containers),
                 Loses(dbRows, Names(containers), Some(now)));
      var agentSet := AgentSet(containers);
      VerifyAll(node, containers);
      driftCount := LoseMissing(node, dbRows, agentSet, now);
    }

    static method AgentSet(containers: seq<Container>) returns (names: set<App>)
      ensures names == Names(containers)
    {
      names := {};
      for i := 0 to |containers|
        invariant names == Names(containers[..i])
      {
        NamesOneMore(containers, i);
        names := names + {containers[i].app};
      }
      assert containers[..|containers|] == containers;
    }

    /** Bump verified_at and the state of every reported row. */
    method VerifyAll(node: NodeId, containers: seq<Container>)
      modifies table
      ensures Wrote(table.rows, table.calls, old(table.rows), old(table.calls), node, Verifies(containers),
                    table.script)
    {
      assert containers[..0] == [];
      for i := 0 to |containers|
        invariant Wrote(table.rows, table.calls, old(table.rows), old(table.calls), node, Verifies(containers[..i]),
                        table.script)
      {
        VerifyRow(node, containers, i, old(table.rows), old(table.calls));
      }
      assert containers[..|containers|] == containers;
    }

    method VerifyRow(node: NodeId, containers: seq<Container>, i: nat, ghost before: Table, ghost k: nat)
      requires i < |containers|
      requires Wrote(table.rows, table.calls, before, k, node, Verifies(containers[..i]), table.script)
      modifies table
      ensures Wrote(table.rows, table.calls, before, k, node, Verifies(containers[..i + 1]), table.script)
    {
      VerifiesOneMore(containers, i);
      OneMoreWrote(table.rows, table.calls, before, k, node, Verifies(containers[..i]),
                   Verify(containers[i].app, containers[i].state), table.script);
      var ok := table.MarkSandboxVerified(containers[i].app, containers[i].state);
    }

    /** Mark the listed rows that were not reported and are past the grace window. */
    method LoseMissing(node: NodeId, dbRows: seq<Listed>, agentSet: set<App>, now: int) returns (driftCount: nat)
      modifies table
      ensures var writes := Loses(dbRows, agentSet, Some(now));
              && table.rows == Apply(old(table.rows), node, writes, table.script, old(table.calls))
              && table.calls == old(table.calls) + |writes|
              && driftCount == Successes(table.script, old(table.calls), |writes|)
    {
      driftCount := 0;
      assert dbRows[..0] == [];
      for i := 0 to |dbRows|
        invariant LostSoFar(table.rows, table.calls, driftCount, old(table.rows), old(table.calls), node,
                            Loses(dbRows[..i], agentSet, Some(now)), table.script)
      {
        driftCount := LoseRow(node, dbRows, i, agentSet, now, driftCount, old(table.rows), old(table.calls));
      }
      assert dbRows[..|dbRows|] == dbRows;
    }

    /** The iteration for row i. */
    method LoseRow(node: NodeId, dbRows: seq<Listed>, i: nat, agentSet: set<App>, now: int, driftCount: nat,
                   ghost before: Table, ghost k: nat) returns (driftCount': nat)
      requires i < |dbRows|
      requires LostSoFar(table.rows, table.calls, driftCount, before, k, node, Loses(dbRows[..i], agentSet, Some(now)),
                         table.script)
      modifies table
      ensures LostSoFar(table.rows, table.calls, driftCount', before, k, node,
                        Loses(dbRows[..i + 1], agentSet, Some(now)), table.script)
    {
      var row := dbRows[i];
      LosesOneMore(dbRows, i, agentSet, now);
      if row.app in agentSet { return driftCount; }
      if now - row.createdAt < GRACE { return driftCount; }
      OneMoreLost(table.rows, table.calls, driftCount, before, k, node, Loses(dbRows[..i], agentSet, Some(now)),
                  row.app, table.script);
      var ok := table.MarkSandboxAgentLost(row.app, node);
      driftCount' := if ok then driftCount + 1 else driftCount;
    }
  }

  /** The table and the number of statements issued, after these writes. */
  predicate Wrote(rows: Table, calls: nat, before: Table, k: nat, node: NodeId, writes: seq<Write>,
                  script: nat -> Reading)
  {
    rows == Apply(before, node, writes, script, k) && calls == k + |writes|
  }

  lemma OneMoreWrote(rows: Table, calls: nat, before: Table, k: nat, node: NodeId, writes: seq<Write>, w: Write,
                     script: nat -> Reading)
    requires Wrote(rows, calls, before, k, node, writes, script)
    ensures Wrote(DoWrite(rows, node, w, script(calls)), calls + 1, before, k, node, writes + [w], script)
  {
    assert (writes + [w])[..|writes|] == writes;
  }

  lemma VerifiesOneMore(containers: seq<Container>, i: nat)
    requires i < |containers|
    ensures Verifies(containers[..i + 1])
            == Verifies(containers[..i]) + [Verify(containers[i].app, containers[i].state)]
  {
    assert containers[..i + 1][..i] == containers[..i];
  }

  /** The same, and how many of them succeeded. */
  predicate LostSoFar(rows: Table, calls: nat, driftCount: nat, before: Table, k: nat, node: NodeId, writes: seq<Write>,
                      script: nat -> Reading)
  {
    Wrote(rows, calls, before, k, node, writes, script) && driftCount == Successes(script, k, |writes|)
  }

  lemma OneMoreLost(rows: Table, calls: nat, driftCount: nat, before: Table, k: nat, node: NodeId, writes: seq<Write>,
                    app: App, script: nat -> Reading)
    requires LostSoFar(rows, calls, driftCount, before, k, node, writes, script)
    ensures LostSoFar(DoWrite(rows, node, Lose(app), script(calls)), calls + 1,
                      if script(calls).fails then driftCount else driftCount + 1, before, k, node,
                      writes + [Lose(app)], script)
  {
    OneMoreWrote(rows, calls, before, k, node, writes, Lose(app), script);
  }

  lemma {:induction false} ApplyConcat(t: Table, node: NodeId, a: seq<Write>, b: seq<Write>, script: nat -> Reading,
                                       k: nat)
    ensures Apply(t, node, a + b, script, k) == Apply(Apply(t, node, a, script, k), node, b, script, k + |a|)
  {
    if b == [] {
      assert a + b == a;
    } else {
      var n := |b| - 1;
      ApplyConcat(t, node, a, b[..n], script, k);
      assert (a + b)[..|a| + n] == a + b[..n];
    }
  }

  lemma PlanSplits(t: Table, node: NodeId, report: seq<Container>, items: seq<Listed>, now: int, script: nat -> Reading,
                   k: nat, verifies: seq<Write>, loses: seq<Write>)
    requires verifies == Verifies(report) && loses == Loses(items, Names(report), Some(now))
    ensures Plan(report, items, Some(now)) == verifies + loses && |verifies| == |report|
    ensures Apply(t, node, verifies + loses, script, k)
            == Apply(Apply(t, node, verifies, script, k), node, loses, script, k + |report|)
  {
    VerifiesAt(report);
    ApplyConcat(t, node, verifies, loses, script, k);
  }

  lemma NamesOneMore(containers: seq<Container>, i: nat)
    requires i < |containers|
    ensures Names(containers[..i + 1]) == Names(containers[..i]) + {containers[i].app}
  {
    assert containers[..i + 1] == containers[..i] + [containers[i]];
  }

  // ---------------------------------------------------------------- control plane: the freshness check

  /** What the environment supplies to one check: the second read of the row, the node row, the agent's answer. */
  datatype Surroundings = Surroundings(readFails: bool, nodeFound: bool, reply: Option<Response>, decodes: bool)

  class FreshnessService {
    const table: SandboxTable
    const freshness: int

    constructor (table: SandboxTable, freshness: int)
      ensures this.table == table && this.freshness == freshness
    {
      this.table, this.freshness := table, freshness;
    }

    /** Fresh rows are returned as they are; otherwise the agent decides, and an agent that cannot be asked changes
        nothing. A row is only ever destroyed when the agent confirms its container absent; a mark that fails is only
        logged. */
    method GetSandbox(name: App, forceRefresh: bool, now: int, later: int, env: Surroundings) returns (r: Fetched)
      modifies table
      ensures var k, rows := old(table.calls), old(table.rows);
              if table.script(k).fails then r == ReadFailed && table.rows == rows
              else if name !in rows then r == NotFound && table.rows == rows
              else
                var row := rows[name];
                if !forceRefresh && now - row.verifiedAt <= freshness
                then r == Cached(row, row.verifiedAt) && table.rows == rows
                else
                  var read := if env.readFails then None else Some(row);
                  var answer := Interpreted(read, env.nodeFound, env.reply, env.decodes);
                  var mark := table.script(k + 1);
                  match answer {
                    case Unknown => r == Cached(row, row.verifiedAt) && table.rows == rows
                    case Absent =>
                      r == NotFound
                      && table.rows == if mark.fails then rows else rows[name := DestroyedRow(row, mark.now)]
                    case Present(state) =>
                      r == Confirmed(row, later)
                      && table.rows == if mark.fails then rows else rows[name := VerifiedRow(row, state, mark.now)]
                  }
    {
      var failed, found := table.GetSandboxByName(name);
      if failed { return ReadFailed; }
      if found.None? { return NotFound; }
      var row := found.value;
      var stale := now - row.verifiedAt > freshness;
      if !stale && !forceRefresh {
        return Cached(row, row.verifiedAt);
      }
      var answer := ContainerExists(if env.readFails then None else Some(row), env.nodeFound, env.reply, env.decodes);
      if answer.Unknown? {
        return Cached(row, row.verifiedAt);
      }
      if answer.Absent? {
        var marked := table.MarkSandboxDestroyed(name);
        return NotFound;
      }
      var marked := table.MarkSandboxVerified(name, answer.state);
      assert table.rows == DoWrite(old(table.rows), 0, Verify(name, answer.state), table.script(old(table.calls) + 1));
      return Confirmed(row, later);
    }
  }
}
