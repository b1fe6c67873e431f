/** One pass of the idle reaper (control/internal/lifecycle/idle_reaper.go). */
module IdleReaping {
  import opened Wrappers
  import opened Models
  import opened Protocol
  import opened Atomic
  import opened Store
  import opened Handlers
  import opened RequestOutcome
  import R = RescheduleRows

  type Listing = seq<(SandboxId, Row)>

  /** reapOne for every listed row, in order. */
  function Reaped(d: Driven, items: Listing, script: nat -> Choice): Driven {
    if items == [] then d
    else
      var before := Reaped(d, items[..|items| - 1], script);
      var x := items[|items| - 1];
      Drive(before.db, InLoop(ReapCas(x.0, x.1)), script, before.clock)
  }

  // ---------------------------------------------------------------- a pass without failing calls

  /** Row id, stopped by the reaper, has its stop command, for its node. */
  ghost predicate HasStop(cmds: map<CmdId, Cmd>, id: SandboxId, row: Row) {
    row.node.Some?
    && exists c | c in cmds :: cmds[c] == Cmd(StopCmd, row.node.value, id, Queued, 0, 60, row.version + 1, Stopped)
  }

  function Apps(items: Listing): set<string> { set x | x in items :: x.1.app }

  /** Every listed row is stopped and unrouted and has its stop command; no other row, route or command is touched. */
  ghost predicate ListReaped(a: Db, items: Listing, b: Db) {
    RowsReaped(a.rows, items, b.rows) && CmdsReaped(a.cmds, items, b.cmds) && b.routes == a.routes - Apps(items)
  }

  ghost predicate RowsReaped(a: map<SandboxId, Row>, items: Listing, b: map<SandboxId, Row>) {
    && b.Keys == a.Keys
    && (forall id | id in a :: b[id] == if (id, a[id]) in items then Changed(a[id], Stopped) else a[id])
  }

  ghost predicate CmdsReaped(a: map<CmdId, Cmd>, items: Listing, b: map<CmdId, Cmd>) {
    R.Extends(a, b) && |b| == |a| + |items| && forall x | x in items :: HasStop(b, x.0, x.1)
  }

  function StopCmdOf(x: (SandboxId, Row)): Cmd
    requires x.1.node.Some?
  {
    Cmd(StopCmd, x.1.node.value, x.0, Queued, 0, 60, x.1.version + 1, Stopped)
  }

  /** The database after listed row x was reaped, with command c. */
  function StoppedDb(db: Db, x: (SandboxId, Row), c: CmdId): Db
    requires x.1.node.Some?
  {
    db.(rows := db.rows[x.0 := Changed(x.1, Stopped)], cmds := db.cmds[c := StopCmdOf(x)],
        routes := db.routes - {x.1.app})
  }

  lemma ReapStops(db: Db, x: (SandboxId, Row), script: nat -> Choice, k: nat)
    requires x.0 in db.rows && db.rows[x.0] == x.1 && x.1.state == Running && x.1.node.Some?
    requires (forall j :: !script(j).fails) && script(k + 1).cmd !in db.cmds
    ensures Drive(db, InLoop(ReapCas(x.0, x.1)), script, k) == Driven(StoppedDb(db, x, script(k + 1).cmd), k + 3)
  {
    ReapOutcome(db, x.0, x.1, script, k);
    ReapTakesThreeCalls(db, x.0, x.1, script, k);
  }

  lemma ReapTakesThreeCalls(db: Db, id: SandboxId, sb: Row, script: nat -> Choice, k: nat)
    requires id in db.rows && db.rows[id].state == Running && !script(k).fails
    ensures Drive(db, InLoop(ReapCas(id, sb)), script, k).clock == k + 3
  {
    DriveOnce(db, InLoop(ReapCas(id, sb)), script, k);
    var db1 := db.(rows := db.rows[id := Changed(db.rows[id], Stopped)]);
    var issue := Issue(StopCmd, id, sb.node, 0, db1.rows[id].version, Stopped, Some(sb.app));
    DriveOnce(db1, issue, script, k + 1);
    DriveOnce(Called(db1, issue, script(k + 1)).db, InLoop(ReapUnroute(id, sb.app)), script, k + 2);
  }

  lemma RowReaped(a: map<SandboxId, Row>, items: Listing, b: map<SandboxId, Row>, x: (SandboxId, Row))
    requires RowsReaped(a, items, b) && x.0 in a && a[x.0] == x.1 && forall y | y in items :: y.0 != x.0
    ensures RowsReaped(a, items + [x], b[x.0 := Changed(x.1, Stopped)])
  {
    forall id | id in a ensures (id, a[id]) in items + [x] <==> id == x.0 || (id, a[id]) in items {
      assert id == x.0 ==> (id, a[id]) == x;
    }
  }

  lemma CmdReaped(a: map<CmdId, Cmd>, items: Listing, b: map<CmdId, Cmd>, x: (SandboxId, Row), c: CmdId)
    requires CmdsReaped(a, items, b) && x.1.node.Some? && c !in b
    ensures CmdsReaped(a, items + [x], b[c := StopCmdOf(x)])
  {
    var after := b[c := StopCmdOf(x)];
    assert after.Keys == b.Keys + {c};
    forall y | y in items + [x] ensures HasStop(after, y.0, y.1) {
      if y in items {
        var k :| k in b && b[k] == Cmd(StopCmd, y.1.node.value, y.0, Queued, 0, 60, y.1.version + 1, Stopped);
        assert k in after && after[k] == b[k];
      } else {
        assert after[c] == StopCmdOf(y);
      }
    }
  }

  lemma RouteReaped(a: map<string, Route>, items: Listing, b: map<string, Route>, x: (SandboxId, Row))
    requires b == a - Apps(items)
    ensures b - {x.1.app} == a - Apps(items + [x])
  {
    assert Apps(items + [x]) == Apps(items) + {x.1.app};
  }

  lemma OneReaped(a: Db, items: Listing, b: Db, x: (SandboxId, Row), c: CmdId)
    requires ListReaped(a, items, b) && (forall y | y in items :: y.0 != x.0)
    requires x.0 in a.rows && a.rows[x.0] == x.1 && x.1.node.Some? && c !in b.cmds
    ensures ListReaped(a, items + [x], StoppedDb(b, x, c))
  {
    var after := StoppedDb(b, x, c);
    RowReaped(a.rows, items, b.rows, x);
    CmdReaped(a.cmds, items, b.cmds, x, c);
    RouteReaped(a.routes, items, b.routes, x);
  }

  lemma StillListed(a: Db, items: Listing, n: nat, b: Db)
    requires n < |items| && R.Current(items, a.rows) && ListReaped(a, items[..n], b)
    ensures var x := items[n];
            && x.0 in b.rows && b.rows[x.0] == x.1 && x.1.state == Running
            && forall y | y in items[..n] :: y.0 != x.0
  {
    assert items[n] in items;
    assert (items[n].0, a.rows[items[n].0]) !in items[..n];
  }

  lemma NextReaped(a: Db, items: Listing, d: Driven, x: (SandboxId, Row), script: nat -> Choice, d': Driven)
    requires ListReaped(a, items, d.db) && (forall y | y in items :: y.0 != x.0)
    requires x.0 in a.rows && a.rows[x.0] == x.1 && x.1.state == Running && x.1.node.Some?
    requires x.0 in d.db.rows && d.db.rows[x.0] == x.1
    requires (forall j :: !script(j).fails) && R.Fresh(script, d.clock, d.db.cmds)
    requires d' == Driven(StoppedDb(d.db, x, script(d.clock + 1).cmd), d.clock + 3)
    ensures ListReaped(a, items + [x], d'.db) && R.Fresh(script, d'.clock, d'.db.cmds)
  {
    OneReaped(a, items, d.db, x, script(d.clock + 1).cmd);
    StillFresh(d, x, script);
  }

  lemma StillFresh(d: Driven, x: (SandboxId, Row), script: nat -> Choice)
    requires x.1.node.Some? && R.Fresh(script, d.clock, d.db.cmds)
    ensures R.Fresh(script, d.clock + 3, d.db.cmds[script(d.clock + 1).cmd := StopCmdOf(x)])
  {
    R.FreshLater(script, d.clock, d.clock + 2, d.db.cmds, script(d.clock + 1).cmd, StopCmdOf(x));
  }

  lemma ReapedAppend(d: Driven, items: Listing, x: (SandboxId, Row), script: nat -> Choice)
    ensures var before := Reaped(d, items, script);
            Reaped(d, items + [x], script) == Drive(before.db, InLoop(ReapCas(x.0, x.1)), script, before.clock)
  {
    assert (items + [x])[..|items|] == items;
  }

  ghost predicate ReapedWell(d: Driven, items: Listing, d': Driven, script: nat -> Choice) {
    ListReaped(d.db, items, d'.db) && R.Fresh(script, d'.clock, d'.db.cmds)
  }

  lemma AppendReaped(d: Driven, items: Listing, n: nat, d1: Driven, script: nat -> Choice, d2: Driven)
    requires n < |items| && R.Current(items, d.db.rows) && (forall j :: !script(j).fails)
    requires ReapedWell(d, items[..n], d1, script) && items[n].1.node.Some?
    requires d2 == Driven(StoppedDb(d1.db, items[n], script(d1.clock + 1).cmd), d1.clock + 3)
    ensures ReapedWell(d, items[..n] + [items[n]], d2, script)
  {
    assert items[n] in items;
    StillListed(d.db, items, n, d1.db);
    NextReaped(d.db, items[..n], d1, items[n], script, d2);
  }

  lemma {:induction false} ReapedUpTo(d: Driven, items: Listing, n: nat, script: nat -> Choice)
    requires (forall j :: !script(j).fails) && R.Fresh(script, d.clock, d.db.cmds) && R.Current(items, d.db.rows)
    requires n <= |items| && forall x | x in items :: x.1.node.Some?
    ensures ReapedWell(d, items[..n], Reaped(d, items[..n], script), script)
  {
    if n == 0 {
      NoneReaped(d, script);
    } else {
      var before := items[..n - 1];
      assert items[..n] == before + [items[n - 1]];
      ReapedUpTo(d, items, n - 1, script);
      ReapedAppend(d, before, items[n - 1], script);
      var d1 := Reaped(d, before, script);
      StillListed(d.db, items, n - 1, d1.db);
      StopNext(d1, items[n - 1], script, Reaped(d, items[..n], script));
      AppendReaped(d, items, n - 1, d1, script, Reaped(d, items[..n], script));
    }
  }

  lemma StopNext(d: Driven, x: (SandboxId, Row), script: nat -> Choice, d': Driven)
    requires x.0 in d.db.rows && d.db.rows[x.0] == x.1 && x.1.state == Running && x.1.node.Some?
    requires (forall j :: !script(j).fails) && script(d.clock + 1).cmd !in d.db.cmds
    requires d' == Drive(d.db, InLoop(ReapCas(x.0, x.1)), script, d.clock)
    ensures d' == Driven(StoppedDb(d.db, x, script(d.clock + 1).cmd), d.clock + 3)
  {
    ReapStops(d.db, x, script, d.clock);
  }

  lemma NoneReaped(d: Driven, script: nat -> Choice)
    requires R.Fresh(script, d.clock, d.db.cmds)
    ensures ReapedWell(d, [], Reaped(d, [], script), script)
  {
    assert Apps([]) == {};
  }

  /** A pass in which no call fails stops every listed row, with one stop command to its node each, and takes their
      routes away. */
  lemma ReapedStopsTheList(d: Driven, items: Listing, script: nat -> Choice)
    requires (forall j :: !script(j).fails) && R.Fresh(script, d.clock, d.db.cmds) && R.Current(items, d.db.rows)
    requires forall x | x in items :: x.1.node.Some?
    ensures ListReaped(d.db, items, Reaped(d, items, script).db)
  {
    ReapedUpTo(d, items, |items|, script);
    assert items[..|items|] == items;
  }

  // ---------------------------------------------------------------- the pass itself

  /** Exactly the rows of ids were stopped. */
  ghost predicate OnlyStopped(before: map<SandboxId, Row>, after: map<SandboxId, Row>, ids: set<SandboxId>) {
    && ids <= before.Keys && after.Keys == before.Keys
    && (forall id | id in ids :: before[id].state == Running)
    && (forall id | id in before :: after[id] == if id in ids then before[id].Move(Stopped, ByHandler) else before[id])
  }

  class IdleReaper {
    const plane: ControlPlane

    constructor (plane: ControlPlane)
      ensures this.plane == plane
    {
      this.plane := plane;
    }

    /** A row whose transition fails is skipped; reaped counts the rows that were stopped. */
    method Reap(idle: set<SandboxId>) returns (reaped: nat, ghost listed: Listing, ghost stopped: set<SandboxId>)
      modifies plane.store
      ensures !plane.store.script(old(plane.store.clock)).fails ==>
                Lists(listed, map id | id in old(plane.store.rows) && id in idle :: old(plane.store.rows)[id], None)
      ensures plane.Now() == Reaped(old(plane.Now()).(clock := old(plane.store.clock) + 1), listed, plane.store.script)
      ensures reaped == |stopped| && OnlyStopped(old(plane.store.rows), plane.store.rows, stopped)
      ensures stopped <= idle
    {
      var ok, sandboxes := plane.store.ListIdleSandboxes(idle);
      listed := sandboxes;
      reaped, stopped := ReapAll(sandboxes);
    }

    method ReapAll(sandboxes: Listing) returns (reaped: nat, ghost stopped: set<SandboxId>)
      modifies plane.store
      ensures plane.Now() == Reaped(old(plane.Now()), sandboxes, plane.store.script)
      ensures reaped == |stopped| && OnlyStopped(old(plane.store.rows), plane.store.rows, stopped)
      ensures forall id | id in stopped :: exists x | x in sandboxes :: x.0 == id
    {
      reaped, stopped := 0, {};
      ghost var begun := plane.Now();
      assert sandboxes[..0] == [];
      for i := 0 to |sandboxes|
        invariant plane.Now() == Reaped(begun, sandboxes[..i], plane.store.script)
        invariant reaped == |stopped| && OnlyStopped(old(plane.store.rows), plane.store.rows, stopped)
        invariant forall id | id in stopped :: exists x | x in sandboxes :: x.0 == id
      {
        ghost var before := plane.store.rows;
        var done := ReapNext(sandboxes[i], sandboxes[..i], begun);
        assert sandboxes[..i + 1] == sandboxes[..i] + [sandboxes[i]];
        if done {
          OneMoreStopped(old(plane.store.rows), before, stopped, sandboxes[i].0);
          assert sandboxes[i] in sandboxes;
          stopped := stopped + {sandboxes[i].0};
          reaped := reaped + 1;
        }
      }
      assert sandboxes[..|sandboxes|] == sandboxes;
    }

    method ReapNext(x: (SandboxId, Row), ghost done: Listing, ghost begun: Driven) returns (reaped: bool)
      requires plane.Now() == Reaped(begun, done, plane.store.script)
      modifies plane.store
      ensures plane.Now() == Reaped(begun, done + [x], plane.store.script)
      ensures reaped ==> x.0 in old(plane.store.rows) && old(plane.store.rows)[x.0].state == Running
      ensures plane.store.rows
              == if reaped then old(plane.store.rows)[x.0 := old(plane.store.rows)[x.0].Move(Stopped, ByHandler)]
                 else old(plane.store.rows)
    {
      assert (done + [x])[..|done|] == done;
      reaped := plane.ReapOne(x.0, x.1);
    }
  }

  lemma OneMoreStopped(before: map<SandboxId, Row>, mid: map<SandboxId, Row>, ids: set<SandboxId>, id: SandboxId)
    requires OnlyStopped(before, mid, ids) && id in mid && mid[id].state == Running
    ensures id !in ids && OnlyStopped(before, mid[id := mid[id].Move(Stopped, ByHandler)], ids + {id})
  {
  }
}
