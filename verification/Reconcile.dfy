/** The heartbeat reconciler (control/internal/scheduler/heartbeat_reconciler.go) and the statements it issues. */
module Reconcile {
  import opened Wrappers

  type NodeId = nat
  type App = string

  /** state is text, as Docker or the state machine spells it; version is state_version. */
  datatype Rec = Rec(node: Option<NodeId>, state: string, version: nat, verifiedAt: int, createdAt: int, reason: string)

  /** app_name is unique, so it identifies the row. */
  type Table = map<App, Rec>

  /** The CHECK constraint on sandboxes.state. */
  predicate IsState(s: string) {
    s == "pending" || s == "starting" || s == "running" || s == "restarting"
    || s == "stopped" || s == "destroying" || s == "destroyed" || s == "failed"
  }

  /** The names the state machine gives its eight states. */
  const STATE_NAMES :=
    {"pending", "starting", "running", "restarting", "stopped", "destroying", "destroyed", "failed"}

  predicate IsActive(s: string) { s == "pending" || s == "starting" || s == "running" || s == "restarting" }

  const GRACE := 60

  datatype Container = Container(app: App, state: string, port: int, id: string)

  datatype Write = Verify(app: App, state: string) | Lose(app: App)

  /** What the environment decides about one statement: its clock reading, and whether it fails. */
  datatype Reading = Reading(now: int, fails: bool)

  // ---------------------------------------------------------------- statements

  /** WHERE app_name = $1 AND verified_at < NOW(): any row, whatever its state. */
  function VerifiedRow(r: Rec, state: string, now: int): Rec {
    if r.verifiedAt < now && IsState(state) then r.(state := state, verifiedAt := now) else r
  }

  predicate VerifyRejected(r: Rec, state: string, now: int) { r.verifiedAt < now && !IsState(state) }

  /** WHERE node_id, an active state and created_at < NOW() - 60s. */
  predicate LoseSelects(r: Rec, node: NodeId, now: int) {
    r.node == Some(node) && IsActive(r.state) && r.createdAt < now - GRACE
  }

  function LostRow(r: Rec, node: NodeId, now: int): Rec {
    if LoseSelects(r, node, now)
    then r.(state := "destroyed", reason := "agent_lost_at_heartbeat", verifiedAt := now) else r
  }

  /** MarkSandboxDestroyed does not look at the node. */
  function DestroyedRow(r: Rec, now: int): Rec {
    if IsActive(r.state)
    then r.(state := "destroyed", reason := "agent_lost_at_freshness_check", verifiedAt := now,
            version := r.version + 1)
    else r
  }

  /** The row after one statement. */
  function Written(r: Rec, node: NodeId, w: Write, at: Reading): Rec {
    if at.fails then r
    else match w
      case Verify(_, state) => VerifiedRow(r, state, at.now)
      case Lose(_) => LostRow(r, node, at.now)
  }

  function DoWrite(t: Table, node: NodeId, w: Write, at: Reading): Table {
    if w.app in t then t[w.app := Written(t[w.app], node, w, at)] else t
  }

  /** The plan's writes one after the other; script(k) is the reading of the first. */
  function Apply(t: Table, node: NodeId, plan: seq<Write>, script: nat -> Reading, k: nat): Table {
    if plan == [] then t
    else
      var n := |plan| - 1;
      DoWrite(Apply(t, node, plan[..n], script, k), node, plan[n], script(k + n))
  }

  // ---------------------------------------------------------------- the pass as a plan of writes

  datatype Listed = Listed(app: App, createdAt: int)

  /** SELECT ... WHERE node_id and an active state: every such row once. */
  ghost predicate ListsNode(items: seq<Listed>, t: Table, node: NodeId) {
    && (forall i, j | 0 <= i < j < |items| :: items[i].app != items[j].app)
    && (forall x | x in items ::
          x.app in t && t[x.app].node == Some(node) && IsActive(t[x.app].state) && t[x.app].createdAt == x.createdAt)
    && (forall app | app in t && t[app].node == Some(node) && IsActive(t[app].state) ::
          Listed(app, t[app].createdAt) in items)
  }

  function Names(report: seq<Container>): set<App> { set c | c in report :: c.app }

  function Verifies(report: seq<Container>): seq<Write> {
    if report == [] then []
    else
      var n := |report| - 1;
      Verifies(report[..n]) + [Verify(report[n].app, report[n].state)]
  }

  /** The rows to lose: not reported, and past the grace window by the Go clock when there is one. */
  function Loses(items: seq<Listed>, reported: set<App>, now: Option<int>): seq<Write> {
    if items == [] then []
    else
      var n := |items| - 1;
      var x := items[n];
      Loses(items[..n], reported, now)
      + if x.app !in reported && (now.Some? ==> now.value - x.createdAt >= GRACE) then [Lose(x.app)] else []
  }

  /** now is the Go clock; without one the pass relies on the SQL filter alone. */
  function Plan(report: seq<Container>, items: seq<Listed>, now: Option<int>): seq<Write> {
    Verifies(report) + Loses(items, Names(report), now)
  }

  ghost predicate Distinct(plan: seq<Write>) { forall i, j | 0 <= i < j < |plan| :: plan[i].app != plan[j].app }

  ghost predicate DistinctReport(report: seq<Container>) {
    forall i, j | 0 <= i < j < |report| :: report[i].app != report[j].app
  }

  lemma {:induction false} VerifiesAt(report: seq<Container>)
    ensures |Verifies(report)| == |report|
    ensures forall i | 0 <= i < |report| :: Verifies(report)[i] == Verify(report[i].app, report[i].state)
  {
    if report != [] {
      VerifiesAt(report[..|report| - 1]);
    }
  }

  /** Loses names exactly the rows that qualify, each once. */
  lemma {:induction false} LosesAre(items: seq<Listed>, reported: set<App>, now: Option<int>)
    requires forall i, j | 0 <= i < j < |items| :: items[i].app != items[j].app
    ensures Distinct(Loses(items, reported, now))
    ensures forall w | w in Loses(items, reported, now) ::
              w.Lose? && w.app !in reported && exists x | x in items :: x.app == w.app
    ensures forall x | x in items ::
              Lose(x.app) in Loses(items, reported, now)
              <==> x.app !in reported && (now.Some? ==> now.value - x.createdAt >= GRACE)
  {
    if items != [] {
      var n := |items| - 1;
      LosesAre(items[..n], reported, now);
      assert items == items[..n] + [items[n]];
      assert forall x | x in items[..n] :: x.app != items[n].app;
    }
  }

  lemma PlanIsDistinct(report: seq<Container>, items: seq<Listed>, now: Option<int>)
    requires DistinctReport(report)
    requires forall i, j | 0 <= i < j < |items| :: items[i].app != items[j].app
    ensures Distinct(Plan(report, items, now))
  {
    VerifiesAt(report);
    LosesAre(items, Names(report), now);
    var verifies, loses := Verifies(report), Loses(items, Names(report), now);
    forall i, j | 0 <= i < |verifies| && 0 <= j < |loses| ensures verifies[i].app != loses[j].app {
      assert report[i] in report && loses[j] in loses;
    }
  }

  // ---------------------------------------------------------------- row-wise exactness

  lemma {:induction false} ApplyKeys(t: Table, node: NodeId, plan: seq<Write>, script: nat -> Reading, k: nat)
    ensures Apply(t, node, plan, script, k).Keys == t.Keys
  {
    if plan != [] {
      ApplyKeys(t, node, plan[..|plan| - 1], script, k);
    }
  }

  /** A row no write names is unchanged. */
  lemma {:induction false} UnnamedRow(t: Table, node: NodeId, plan: seq<Write>, script: nat -> Reading, k: nat,
                                      app: App)
    requires app in t && forall w | w in plan :: w.app != app
    ensures app in Apply(t, node, plan, script, k) && Apply(t, node, plan, script, k)[app] == t[app]
  {
    if plan != [] {
      UnnamedRow(t, node, plan[..|plan| - 1], script, k, app);
      assert plan[|plan| - 1] in plan;
    }
  }

  /** A row a write names ends as that one write leaves it, whatever happens to the others. */
  lemma {:induction false} NamedRow(t: Table, node: NodeId, plan: seq<Write>, script: nat -> Reading, k: nat, i: nat)
    requires Distinct(plan) && i < |plan| && plan[i].app in t
    ensures plan[i].app in Apply(t, node, plan, script, k)
    ensures Apply(t, node, plan, script, k)[plan[i].app] == Written(t[plan[i].app], node, plan[i], script(k + i))
  {
    var n := |plan| - 1;
    var app := plan[i].app;
    if i == n {
      assert forall w | w in plan[..n] :: w.app != app;
      UnnamedRow(t, node, plan[..n], script, k, app);
    } else {
      assert plan[..n][i] == plan[i];
      NamedRow(t, node, plan[..n], script, k, i);
    }
  }

  /** The same readings with no failing statement. */
  function Calm(script: nat -> Reading): nat -> Reading { (k: nat) => script(k).(fails := false) }

  /** Failures are isolated: a row whose write fails is as before the pass, every other row is as after a pass
      without failures. */
  lemma FailuresAreIsolated(t: Table, node: NodeId, report: seq<Container>, items: seq<Listed>, now: int,
                            script: nat -> Reading, k: nat, app: App)
    requires DistinctReport(report) && ListsNode(items, t, node) && app in t
    ensures var plan := Plan(report, items, Some(now));
            var after, calm := Apply(t, node, plan, script, k), Apply(t, node, plan, Calm(script), k);
            && app in after && app in calm
            && after[app] == if exists i: nat | i < |plan| :: plan[i].app == app && script(k + i).fails then t[app]
                             else calm[app]
  {
    var plan := Plan(report, items, Some(now));
    PlanIsDistinct(report, items, Some(now));
    if i: nat :| i < |plan| && plan[i].app == app {
      NamedRow(t, node, plan, script, k, i);
      NamedRow(t, node, plan, Calm(script), k, i);
      assert forall j | 0 <= j < |plan| && plan[j].app == app :: j == i;
    } else {
      assert forall w | w in plan :: w.app != app;
      UnnamedRow(t, node, plan, script, k, app);
      UnnamedRow(t, node, plan, Calm(script), k, app);
    }
  }

  /** The writes of a plan, by kind. */
  lemma PlannedWrites(report: seq<Container>, items: seq<Listed>, now: Option<int>, w: Write)
    requires forall i, j | 0 <= i < j < |items| :: items[i].app != items[j].app
    ensures w in Plan(report, items, now) && w.Verify? ==> w.app in Names(report)
    ensures w in Plan(report, items, now) && w.Lose? ==> w in Loses(items, Names(report), now)
  {
    VerifiesAt(report);
    if w in Verifies(report) {
      var i :| 0 <= i < |report| && Verifies(report)[i] == w;
      assert report[i] in report;
    } else {
      LosesAre(items, Names(report), now);
    }
  }

  /** A row is up for losing exactly when it is listed, not reported and past the Go grace window. */
  lemma LosesIff(t: Table, node: NodeId, report: seq<Container>, items: seq<Listed>, now: int, app: App)
    requires ListsNode(items, t, node) && app in t && app !in Names(report)
    ensures (exists w | w in Plan(report, items, Some(now)) :: w.app == app)
            <==> t[app].node == Some(node) && t[app].state in {"pending", "starting", "running", "restarting"}
                 && now - t[app].createdAt >= 60
    ensures forall w | w in Plan(report, items, Some(now)) && w.app == app :: w == Lose(app)
  {
    LosesAre(items, Names(report), Some(now));
    forall w | w in Plan(report, items, Some(now)) && w.app == app
      ensures w == Lose(app) && t[app].node == Some(node) && IsActive(t[app].state) && now - t[app].createdAt >= GRACE
    {
      PlannedWrites(report, items, Some(now), w);
      var x :| x in items && x.app == w.app;
    }
    if t[app].node == Some(node) && IsActive(t[app].state) && now - t[app].createdAt >= GRACE {
      var x := Listed(app, t[app].createdAt);
      assert x in items;
      assert Lose(x.app) in Loses(items, Names(report), Some(now));
      assert Lose(app) in Plan(report, items, Some(now));
    }
  }

  /** A pass destroys a row exactly when the row is on the node in an active state, is not reported, is past the grace
      window on both clocks, and its statement does not fail; state_version stays as it was. There is such a statement
      exactly for the rows of the node that are active and past the window on the control plane's clock. */
  lemma LostIff(t: Table, node: NodeId, report: seq<Container>, items: seq<Listed>, now: int,
                script: nat -> Reading, k: nat, app: App)
    requires DistinctReport(report) && ListsNode(items, t, node) && app in t && app !in Names(report)
    ensures var plan := Plan(report, items, Some(now)); var after := Apply(t, node, plan, script, k);
            && app in after
            && (after[app] != t[app] <==>
                && t[app].node == Some(node) && t[app].state in {"pending", "starting", "running", "restarting"}
                && now - t[app].createdAt >= 60
                && exists i: nat | i < |plan| :: plan[i] == Lose(app) && !script(k + i).fails
                                                 && t[app].createdAt < script(k + i).now - 60)
            && ((exists i: nat | i < |plan| :: plan[i] == Lose(app))
                <==> t[app].node == Some(node) && t[app].state in {"pending", "starting", "running", "restarting"}
                     && now - t[app].createdAt >= 60)
            && (after[app] != t[app] ==>
                  && after[app].state == "destroyed" && after[app].reason == "agent_lost_at_heartbeat"
                  && after[app].version == t[app].version && after[app].node == t[app].node)
  {
    var plan := Plan(report, items, Some(now));
    PlanIsDistinct(report, items, Some(now));
    LosesIff(t, node, report, items, now, app);
    if i: nat :| i < |plan| && plan[i].app == app {
      NamedRow(t, node, plan, script, k, i);
      assert plan[i] in plan;
      assert plan[i] == Lose(app);
      assert forall j: nat | j < |plan| && plan[j] == Lose(app) :: j == i;
    } else {
      assert forall w | w in plan :: w.app != app;
      UnnamedRow(t, node, plan, script, k, app);
    }
  }

  /** A reported row takes the reported state, whatever its own state was: with a fresh reading and a state name the
      table accepts it always does, and a destroyed row comes back. */
  lemma ReportedRow(t: Table, node: NodeId, report: seq<Container>, items: seq<Listed>, now: Option<int>,
                    script: nat -> Reading, k: nat, i: nat)
    requires DistinctReport(report) && ListsNode(items, t, node) && i < |report| && report[i].app in t
    ensures var app, after := report[i].app, Apply(t, node, Plan(report, items, now), script, k);
            && app in after
            && (after[app].state == report[i].state && after[app].verifiedAt == script(k + i).now
                && after[app].version == t[app].version && after[app].node == t[app].node
                <== !script(k + i).fails && report[i].state in STATE_NAMES && t[app].verifiedAt < script(k + i).now)
            && (after[app] == t[app]
                <== script(k + i).fails || report[i].state !in STATE_NAMES || t[app].verifiedAt >= script(k + i).now)
  {
    var plan := Plan(report, items, now);
    PlanIsDistinct(report, items, now);
    VerifiesAt(report);
    assert plan[i] == Verify(report[i].app, report[i].state);
    NamedRow(t, node, plan, script, k, i);
  }

  // ---------------------------------------------------------------- the grace window

  /** Both passes read the same single clock, and the same writes fail in both. */
  ghost predicate SameReadings(plan: seq<Write>, plan': seq<Write>, script: nat -> Reading, script': nat -> Reading,
                               now: int) {
    && (forall k :: script(k).now == now && script'(k).now == now)
    && (forall i, j | 0 <= i < |plan| && 0 <= j < |plan'| && plan[i] == plan'[j] :: script(i).fails == script'(j).fails)
  }

  /** Under one clock reading the Go short-circuit changes no row: the SQL filter alone gives the same table. */
  lemma GraceShortCircuitIsRedundant(t: Table, node: NodeId, report: seq<Container>, items: seq<Listed>, now: int,
                                     script: nat -> Reading, script': nat -> Reading)
    requires DistinctReport(report) && ListsNode(items, t, node)
    requires SameReadings(Plan(report, items, Some(now)), Plan(report, items, None), script, script', now)
    ensures Apply(t, node, Plan(report, items, Some(now)), script, 0)
            == Apply(t, node, Plan(report, items, None), script', 0)
  {
    var plan, plan' := Plan(report, items, Some(now)), Plan(report, items, None);
    ApplyKeys(t, node, plan, script, 0);
    ApplyKeys(t, node, plan', script', 0);
    forall app | app in t ensures Apply(t, node, plan, script, 0)[app] == Apply(t, node, plan', script', 0)[app] {
      SameRow(t, node, report, items, now, script, script', app);
    }
  }

  lemma SameRow(t: Table, node: NodeId, report: seq<Container>, items: seq<Listed>, now: int,
                script: nat -> Reading, script': nat -> Reading, app: App)
    requires DistinctReport(report) && ListsNode(items, t, node) && app in t
    requires SameReadings(Plan(report, items, Some(now)), Plan(report, items, None), script, script', now)
    ensures var plan, plan' := Plan(report, items, Some(now)), Plan(report, items, None);
            && app in Apply(t, node, plan, script, 0) && app in Apply(t, node, plan', script', 0)
            && Apply(t, node, plan, script, 0)[app] == Apply(t, node, plan', script', 0)[app]
  {
    var plan, plan' := Plan(report, items, Some(now)), Plan(report, items, None);
    if j: nat :| j < |plan'| && plan'[j].app == app {
      SameNamedRow(t, node, report, items, now, script, script', j);
    } else {
      NothingIsAdded(report, items, now, app);
      UnnamedRow(t, node, plan', script', 0, app);
      UnnamedRow(t, node, plan, script, 0, app);
    }
  }

  /** The row of the longer plan's write j. */
  lemma SameNamedRow(t: Table, node: NodeId, report: seq<Container>, items: seq<Listed>, now: int,
                     script: nat -> Reading, script': nat -> Reading, j: nat)
    requires DistinctReport(report) && ListsNode(items, t, node)
    requires j < |Plan(report, items, None)| && Plan(report, items, None)[j].app in t
    requires SameReadings(Plan(report, items, Some(now)), Plan(report, items, None), script, script', now)
    ensures var plan, plan' := Plan(report, items, Some(now)), Plan(report, items, None); var app := plan'[j].app;
            && app in Apply(t, node, plan, script, 0) && app in Apply(t, node, plan', script', 0)
            && Apply(t, node, plan, script, 0)[app] == Apply(t, node, plan', script', 0)[app]
  {
    var plan, plan' := Plan(report, items, Some(now)), Plan(report, items, None);
    PlanIsDistinct(report, items, Some(now));
    PlanIsDistinct(report, items, None);
    NamedRow(t, node, plan', script', 0, j);
    if plan'[j] in plan {
      var i: nat :| i < |plan| && plan[i] == plan'[j];
      NamedRow(t, node, plan, script, 0, i);
    } else {
      OnlyRecentRowsAreSkipped(t, node, report, items, now, j);
      UnnamedRow(t, node, plan, script, 0, plan'[j].app);
    }
  }

  /** Every write of the shorter plan is in the longer one. */
  lemma {:induction false} LosesShrink(items: seq<Listed>, reported: set<App>, now: int)
    ensures forall w | w in Loses(items, reported, Some(now)) :: w in Loses(items, reported, None)
  {
    if items != [] {
      LosesShrink(items[..|items| - 1], reported, now);
    }
  }

  lemma NothingIsAdded(report: seq<Container>, items: seq<Listed>, now: int, app: App)
    requires forall j | 0 <= j < |Plan(report, items, None)| :: Plan(report, items, None)[j].app != app
    ensures forall w | w in Plan(report, items, Some(now)) :: w.app != app
  {
    LosesShrink(items, Names(report), now);
    forall w | w in Plan(report, items, Some(now)) ensures w.app != app {
      assert w in Plan(report, items, None);
    }
  }

  /** A write that only the longer plan has is about a row the SQL filter passes over. */
  lemma OnlyRecentRowsAreSkipped(t: Table, node: NodeId, report: seq<Container>, items: seq<Listed>, now: int, j: nat)
    requires DistinctReport(report) && ListsNode(items, t, node)
    requires j < |Plan(report, items, None)| && Plan(report, items, None)[j] !in Plan(report, items, Some(now))
    ensures var w := Plan(report, items, None)[j];
            && w.Lose? && w.app in t && !LoseSelects(t[w.app], node, now)
            && forall v | v in Plan(report, items, Some(now)) :: v.app != w.app
  {
    var w := Plan(report, items, None)[j];
    var reported := Names(report);
    LosesAre(items, reported, None);
    LosesAre(items, reported, Some(now));
    VerifiesAt(report);
    assert w !in Verifies(report);
    assert w in Loses(items, reported, None);
    PlannedWrites(report, items, None, w);
    var x :| x in items && x.app == w.app;
    assert w == Lose(x.app);
    assert now - x.createdAt < GRACE;
    forall v | v in Plan(report, items, Some(now)) ensures v.app != w.app {
      PlannedWrites(report, items, Some(now), v);
    }
  }
}
