/** What the rescheduler does to a database, and where a heartbeat tick leaves the rows of a silent node. */
module RescheduleRows {
  import opened Wrappers
  import opened Models
  import opened Scheduler
  import opened Protocol
  import opened Atomic
  import opened AtomicRuns
  import opened RequestOutcome

  type Listing = seq<(SandboxId, Row)>

  /** rescheduleSandbox for every listed row, in order. */
  function Rescheduled(d: Driven, items: Listing, script: nat -> Choice): Driven
    decreases |items|
  {
    if items == [] then d
    else Rescheduled(Drive(d.db, InLoop(MoveCas(items[0].0, items[0].1)), script, d.clock), items[1..], script)
  }

  lemma {:induction false} RescheduledOneMore(d: Driven, items: Listing, x: (SandboxId, Row), script: nat -> Choice)
    ensures var before := Rescheduled(d, items, script);
            Rescheduled(d, items + [x], script)
            == Drive(before.db, InLoop(MoveCas(x.0, x.1)), script, before.clock)
    decreases |items|
  {
    if items == [] {
      assert (items + [x])[1..] == [];
    } else {
      assert (items + [x])[1..] == items[1..] + [x];
      RescheduledOneMore(Drive(d.db, InLoop(MoveCas(items[0].0, items[0].1)), script, d.clock), items[1..], x, script);
    }
  }

  // ---------------------------------------------------------------- one row, no failing call

  function Need(row: Row): int { if row.memoryMB > 0 then row.memoryMB else 512 }

  function Back(row: Row): Row { row.Move(Pending, ByHandler).(failures := 0, restarts := []) }

  function MovedRow(row: Row, target: Option<NodeId>): Row {
    if target.Some?
    then Back(row).Move(Starting, ByHandler).(node := target, container := None, port := None)
    else Back(row).Move(Failed, ByHandler)
  }

  function MovedCmds(cmds: map<CmdId, Cmd>, c: CmdId, id: SandboxId, row: Row, target: Option<NodeId>): map<CmdId, Cmd>
  {
    if target.Some?
    then cmds[c := Cmd(StartCmd, target.value, id, Queued, 0, 60, row.version + 2, Starting)] else cmds
  }

  /** Handler pc's next call turns db into db' and leaves it at pc'. */
  predicate Goes(db: Db, pc: Pc, ch: Choice, db': Db, pc': Pc) {
    var o := Called(db, pc, ch);
    o.db == db' && Resume(pc, o.reply) == Some(pc')
  }

  lemma DriveGoes(db: Db, pc: Pc, db': Db, pc': Pc, script: nat -> Choice, clock: nat)
    requires Goes(db, pc, script(clock), db', pc')
    ensures Drive(db, pc, script, clock) == Drive(db', pc', script, clock + 1)
  {
    DriveOnce(db, pc, script, clock);
  }

  lemma FourSteps(db: Db, pc: Pc, db1: Db, pc1: Pc, db2: Db, pc2: Pc, db3: Db, pc3: Pc, pc4: Pc,
                  script: nat -> Choice, clock: nat)
    requires Goes(db, pc, script(clock), db1, pc1) && Goes(db1, pc1, script(clock + 1), db2, pc2)
    requires Goes(db2, pc2, script(clock + 2), db3, pc3) && Goes(db3, pc3, script(clock + 3), db3, pc4)
    ensures Drive(db, pc, script, clock) == Drive(db3, pc4, script, clock + 4)
  {
    DriveGoes(db, pc, db1, pc1, script, clock);
    DriveGoes(db1, pc1, db2, pc2, script, clock + 1);
    DriveGoes(db2, pc2, db3, pc3, script, clock + 2);
    DriveGoes(db3, pc3, db3, pc4, script, clock + 3);
  }

  /** The handler's first three calls send the row back to pending, unroute it and forgive its failures. */
  lemma SentBack(db: Db, id: SandboxId, sb: Row, ch: Choice)
    requires id in db.rows && db.rows[id] == sb && sb.state == Running && !ch.fails
    ensures Goes(db, InLoop(MoveCas(id, sb)), ch, PutRow(db, id, sb.Move(Pending, ByHandler)),
                 InLoop(MoveUnroute(id, sb)))
  {
  }

  lemma Unrouted(db: Db, id: SandboxId, sb: Row, ch: Choice)
    requires !ch.fails
    ensures Goes(db, InLoop(MoveUnroute(id, sb)), ch, db.(routes := db.routes - {sb.app}), InLoop(MoveReset(id, sb)))
  {
  }

  lemma Forgiven(db: Db, id: SandboxId, sb: Row, ch: Choice)
    requires id in db.rows && !ch.fails
    ensures Goes(db, InLoop(MoveReset(id, sb)), ch, PutRow(db, id, db.rows[id].(failures := 0, restarts := [])),
                 InLoop(MovePlace(id, sb)))
  {
  }

  lemma Placed(db: Db, id: SandboxId, sb: Row, ch: Choice)
    requires !ch.fails
    ensures var target := Place(HealthyNodes(db.nodes), Need(sb));
            Goes(db, InLoop(MovePlace(id, sb)), ch, db,
                 if target.Some? then Assign(id, target.value) else InLoop(MoveFail(id)))
  {
  }

  lemma ReadyAt(db: Db, id: SandboxId, script: nat -> Choice, clock: nat)
    requires id in db.rows && db.rows[id].state == Running && NoFailure(script)
    ensures var sb := db.rows[id]; var target := Place(HealthyNodes(db.nodes), Need(sb));
            Drive(db, InLoop(MoveCas(id, sb)), script, clock)
            == Drive(db.(rows := db.rows[id := Back(sb)], routes := db.routes - {sb.app}),
                     if target.Some? then Assign(id, target.value) else InLoop(MoveFail(id)), script, clock + 4)
  {
    var sb := db.rows[id];
    var target := Place(HealthyNodes(db.nodes), Need(sb));
    var db1 := PutRow(db, id, sb.Move(Pending, ByHandler));
    var db2 := db1.(routes := db1.routes - {sb.app});
    var db3 := db2.(rows := db.rows[id := Back(sb)]);
    assert PutRow(db2, id, db2.rows[id].(failures := 0, restarts := [])) == db3;
    SentBack(db, id, sb, script(clock));
    Unrouted(db1, id, sb, script(clock + 1));
    Forgiven(db2, id, sb, script(clock + 2));
    Placed(db3, id, sb, script(clock + 3));
    FourSteps(db, InLoop(MoveCas(id, sb)), db1, InLoop(MoveUnroute(id, sb)), db2, InLoop(MoveReset(id, sb)),
              db3, InLoop(MovePlace(id, sb)), if target.Some? then Assign(id, target.value) else InLoop(MoveFail(id)),
              script, clock);
  }

  lemma Started(db: Db, id: SandboxId, target: NodeId, script: nat -> Choice, clock: nat)
    requires id in db.rows && db.rows[id].state == Pending && !script(clock).fails
    requires !script(clock + 1).fails && script(clock + 1).cmd !in db.cmds
    ensures var row := db.rows[id].Move(Starting, ByHandler).(node := Some(target), container := None, port := None);
            Drive(db, Assign(id, target), script, clock)
            == Driven(db.(rows := db.rows[id := row],
                          cmds := db.cmds[script(clock + 1).cmd :=
                                            Cmd(StartCmd, target, id, Queued, 0, 60, row.version, Starting)]),
                      clock + 2)
  {
    DriveOnce(db, Assign(id, target), script, clock);
    var db1 := DoAssign(db, id, target).db;
    assert PutRow(db1, id, db1.rows[id]) == db1;
    DriveOnce(db1, Issue(StartCmd, id, Some(target), 0, db1.rows[id].version, Starting, None), script, clock + 1);
  }

  lemma Stranded(db: Db, id: SandboxId, script: nat -> Choice, clock: nat)
    requires id in db.rows && db.rows[id].state == Pending && !script(clock).fails
    ensures Drive(db, InLoop(MoveFail(id)), script, clock)
            == Driven(PutRow(db, id, db.rows[id].Move(Failed, ByHandler)), clock + 1)
  {
    DriveOnce(db, InLoop(MoveFail(id)), script, clock);
  }

  function MovedDb(db: Db, id: SandboxId, c: CmdId): Db
    requires id in db.rows
  {
    var sb := db.rows[id];
    var target := Place(HealthyNodes(db.nodes), Need(sb));
    db.(rows := db.rows[id := MovedRow(sb, target)], cmds := MovedCmds(db.cmds, c, id, sb, target),
        routes := db.routes - {sb.app})
  }

  /** The same database after the row was sent back. */
  function SentBackDb(db: Db, id: SandboxId): Db
    requires id in db.rows
  {
    db.(rows := db.rows[id := Back(db.rows[id])], routes := db.routes - {db.rows[id].app})
  }

  lemma MovedAgain(db: Db, id: SandboxId, c: CmdId)
    requires id in db.rows
    ensures var sb := db.rows[id]; var target := Place(HealthyNodes(db.nodes), Need(sb));
            MovedDb(db, id, c) == SentBackDb(db, id).(rows := SentBackDb(db, id).rows[id := MovedRow(sb, target)],
                                                      cmds := MovedCmds(db.cmds, c, id, sb, target))
  {
    var sb := db.rows[id];
    var row := MovedRow(sb, Place(HealthyNodes(db.nodes), Need(sb)));
    assert db.rows[id := Back(sb)][id := row] == db.rows[id := row];
  }

  /** Without failures a listed row that is still current ends on the node Place picks, or failed. */
  lemma MoveOutcome(db: Db, id: SandboxId, script: nat -> Choice, clock: nat)
    requires id in db.rows && db.rows[id].state == Running
    requires NoFailure(script) && script(clock + 5).cmd !in db.cmds
    ensures var sb := db.rows[id]; var target := Place(HealthyNodes(db.nodes), Need(sb));
            Drive(db, InLoop(MoveCas(id, sb)), script, clock)
            == Driven(MovedDb(db, id, script(clock + 5).cmd), clock + if target.Some? then 6 else 5)
  {
    var target := Place(HealthyNodes(db.nodes), Need(db.rows[id]));
    ReadyAt(db, id, script, clock);
    MovedAgain(db, id, script(clock + 5).cmd);
    if target.Some? {
      Started(SentBackDb(db, id), id, target.value, script, clock + 4);
    } else {
      Stranded(SentBackDb(db, id), id, script, clock + 4);
    }
  }

  // ---------------------------------------------------------------- one row, whichever calls fail

  /** The rest once the row is pending, unrouted and forgiven: it is placed again, or fails when there is no capacity.
      */
  function AfterForgive(db: Db, id: SandboxId, memoryMB: int, script: nat -> Choice, k: nat): Db
    requires id in db.rows && db.rows[id].state == Pending
  {
    var target := Place(HealthyNodes(db.nodes), if memoryMB > 0 then memoryMB else 512);
    if script(k).fails then db
    else if target.Some? then AfterAssign(db, id, target.value, script, k + 1)
    else if script(k + 1).fails then db
    else db.(rows := db.rows[id := Changed(db.rows[id], Failed)])
  }

  /** sb is the row as it was listed. The route's removal and the reset are passed over when they fail. */
  function AfterMove(db: Db, id: SandboxId, sb: Row, script: nat -> Choice, k: nat): Db {
    if script(k).fails || id !in db.rows || db.rows[id].state != Running then db
    else
      var back := Changed(db.rows[id], Pending);
      var forgiven := if script(k + 2).fails then back else back.(failures := 0, restarts := []);
      AfterForgive(db.(rows := db.rows[id := forgiven],
                       routes := if script(k + 1).fails then db.routes else db.routes - {sb.app}),
                   id, sb.memoryMB, script, k + 3)
  }

  lemma PlaceAgainEnds(db: Db, id: SandboxId, sb: Row, script: nat -> Choice, k: nat)
    requires id in db.rows && db.rows[id].state == Pending
    ensures Drive(db, InLoop(MovePlace(id, sb)), script, k).db == AfterForgive(db, id, sb.memoryMB, script, k)
  {
    DriveOnce(db, InLoop(MovePlace(id, sb)), script, k);
    var target := Place(HealthyNodes(db.nodes), if sb.memoryMB > 0 then sb.memoryMB else 512);
    if !script(k).fails {
      if target.Some? {
        AssignOutcome(db, id, target.value, script, k + 1);
      } else {
        DriveOnce(db, InLoop(MoveFail(id)), script, k + 1);
      }
    }
  }

  lemma ResetGoes(db: Db, id: SandboxId, sb: Row, db': Db, script: nat -> Choice, k: nat)
    requires id in db.rows
    requires db' == if script(k).fails then db
                    else db.(rows := db.rows[id := db.rows[id].(failures := 0, restarts := [])])
    ensures Drive(db, InLoop(MoveReset(id, sb)), script, k) == Drive(db', InLoop(MovePlace(id, sb)), script, k + 1)
  {
    DriveGoes(db, InLoop(MoveReset(id, sb)), db', InLoop(MovePlace(id, sb)), script, k);
  }

  lemma UnrouteGoes(db: Db, id: SandboxId, sb: Row, db': Db, script: nat -> Choice, k: nat)
    requires db' == if script(k).fails then db else db.(routes := db.routes - {sb.app})
    ensures Drive(db, InLoop(MoveUnroute(id, sb)), script, k) == Drive(db', InLoop(MoveReset(id, sb)), script, k + 1)
  {
    DriveGoes(db, InLoop(MoveUnroute(id, sb)), db', InLoop(MoveReset(id, sb)), script, k);
  }

  /** Rescheduling takes a running row back to pending, without its route and its failures, and on to starting with one
      start command on the node the scheduler picks, or to failed when there is none; a call that fails ends the handler
      where it is, but for the route's removal and the reset. */
  lemma MoveEnds(db: Db, id: SandboxId, sb: Row, script: nat -> Choice, k: nat)
    ensures Drive(db, InLoop(MoveCas(id, sb)), script, k).db == AfterMove(db, id, sb, script, k)
  {
    DriveOnce(db, InLoop(MoveCas(id, sb)), script, k);
    if !script(k).fails && id in db.rows && db.rows[id].state == Running {
      var back := Changed(db.rows[id], Pending);
      var forgiven := if script(k + 2).fails then back else back.(failures := 0, restarts := []);
      var routes := if script(k + 1).fails then db.routes else db.routes - {sb.app};
      var db1 := db.(rows := db.rows[id := back]);
      UnrouteGoes(db1, id, sb, db1.(routes := routes), script, k + 1);
      assert db1.rows[id := forgiven] == db.rows[id := forgiven];
      ResetGoes(db1.(routes := routes), id, sb, db.(rows := db.rows[id := forgiven], routes := routes), script, k + 2);
      PlaceAgainEnds(db.(rows := db.rows[id := forgiven], routes := routes), id, sb, script, k + 3);
    }
  }

  // ---------------------------------------------------------------- the rows of one node

  /** Command ids to come are new and distinct. */
  ghost predicate Fresh(script: nat -> Choice, clock: nat, cmds: map<CmdId, Cmd>) {
    && (forall k | k >= clock :: script(k).cmd !in cmds)
    && (forall j, k | clock <= j < k :: script(j).cmd != script(k).cmd)
  }

  /** What the listing promises about every item when its turn comes. */
  ghost predicate Current(items: Listing, rows: map<SandboxId, Row>) {
    && (forall i, j | 0 <= i < j < |items| :: items[i].0 != items[j].0)
    && (forall x | x in items :: x.0 in rows && rows[x.0] == x.1 && x.1.state == Running)
  }

  /** Row id has its start command, for the node and the change it was just given. */
  ghost predicate HasStart(cmds: map<CmdId, Cmd>, id: SandboxId, row: Row) {
    row.node.Some?
    && exists c | c in cmds :: cmds[c] == Cmd(StartCmd, row.node.value, id, Queued, 0, 60, row.version, Starting)
  }

  ghost predicate Extends(a: map<CmdId, Cmd>, b: map<CmdId, Cmd>) {
    forall c | c in a :: c in b && b[c] == a[c]
  }

  /** Every listed row is moved and has its command, every other row is as before. */
  ghost predicate ListMoved(a: Db, items: Listing, b: Db) {
    && b.rows.Keys == a.rows.Keys && b.nodes == a.nodes && Extends(a.cmds, b.cmds)
    && (forall id | id in a.rows ::
          if (id, a.rows[id]) in items
          then b.rows[id] == MovedRow(a.rows[id], Place(HealthyNodes(a.nodes), Need(a.rows[id])))
               && (b.rows[id].state == Starting ==> HasStart(b.cmds, id, b.rows[id]))
          else b.rows[id] == a.rows[id])
  }

  lemma FirstMoved(db: Db, id: SandboxId, c: CmdId)
    requires id in db.rows && db.rows[id].state == Running && c !in db.cmds
    ensures ListMoved(db, [(id, db.rows[id])], MovedDb(db, id, c))
  {
    var db' := MovedDb(db, id, c);
    var target := Place(HealthyNodes(db.nodes), Need(db.rows[id]));
    if target.Some? {
      assert c in db'.cmds
             && db'.cmds[c] == Cmd(StartCmd, target.value, id, Queued, 0, 60, db'.rows[id].version, Starting);
    }
  }

  lemma HasStartStays(a: map<CmdId, Cmd>, b: map<CmdId, Cmd>, id: SandboxId, row: Row)
    requires HasStart(a, id, row) && Extends(a, b)
    ensures HasStart(b, id, row)
  {
    var c :| c in a && a[c] == Cmd(StartCmd, row.node.value, id, Queued, 0, 60, row.version, Starting);
    assert c in b && b[c] == a[c];
  }

  lemma ListMovedChain(a: Db, all: Listing, b: Db, c: Db)
    requires all != [] && Current(all, a.rows) && ListMoved(a, [all[0]], b) && ListMoved(b, all[1..], c)
    requires forall y | y in all[1..] :: y.0 != all[0].0
    ensures ListMoved(a, all, c)
  {
    var x, items := all[0], all[1..];
    assert all == [x] + items && x in all;
    forall id | id in a.rows
      ensures if (id, a.rows[id]) in all
              then c.rows[id] == MovedRow(a.rows[id], Place(HealthyNodes(a.nodes), Need(a.rows[id])))
                   && (c.rows[id].state == Starting ==> HasStart(c.cmds, id, c.rows[id]))
              else c.rows[id] == a.rows[id]
    {
      if id == x.0 {
        assert (id, a.rows[id]) == x && x in [x];
        assert (id, b.rows[id]) !in items;
        if c.rows[id].state == Starting {
          HasStartStays(b.cmds, c.cmds, id, b.rows[id]);
        }
      } else {
        assert (id, a.rows[id]) !in [x];
        assert b.rows[id] == a.rows[id];
        assert (id, a.rows[id]) in all <==> (id, b.rows[id]) in items;
      }
    }
  }

  lemma FreshLater(script: nat -> Choice, clock: nat, later: nat, cmds: map<CmdId, Cmd>, c: CmdId, cmd: Cmd)
    requires Fresh(script, clock, cmds) && clock < later && c == script(later - 1).cmd
    ensures Fresh(script, later, cmds) && Fresh(script, later, cmds[c := cmd])
  {
  }

  lemma OneMoved(d: Driven, x: (SandboxId, Row), script: nat -> Choice)
    requires NoFailure(script) && Fresh(script, d.clock, d.db.cmds)
    requires x.0 in d.db.rows && d.db.rows[x.0] == x.1 && x.1.state == Running
    ensures var d' := Drive(d.db, InLoop(MoveCas(x.0, x.1)), script, d.clock);
            ListMoved(d.db, [x], d'.db) && Fresh(script, d'.clock, d'.db.cmds)
  {
    var c := script(d.clock + 5).cmd;
    var target := Place(HealthyNodes(d.db.nodes), Need(x.1));
    MoveOutcome(d.db, x.0, script, d.clock);
    FirstMoved(d.db, x.0, c);
    FreshLater(script, d.clock, d.clock + 6, d.db.cmds, c,
               Cmd(StartCmd, if target.Some? then target.value else 0, x.0, Queued, 0, 60, x.1.version + 2, Starting));
  }

  lemma StillCurrent(a: Db, items: Listing, b: Db)
    requires items != [] && Current(items, a.rows) && ListMoved(a, [items[0]], b)
    ensures Current(items[1..], b.rows)
    ensures forall y | y in items[1..] :: y.0 != items[0].0
  {
    forall y | y in items[1..] ensures y.0 != items[0].0 && y.0 in b.rows && b.rows[y.0] == y.1
      && y.1.state == Running {
      var j :| 0 <= j < |items[1..]| && items[1..][j] == y;
      assert items[j + 1] == y && y in items;
      assert (y.0, a.rows[y.0]) !in [items[0]];
    }
  }

  /** Rescheduling a node without failures moves exactly the listed rows. */
  lemma {:induction false} RescheduledMovesTheList(d: Driven, items: Listing, script: nat -> Choice)
    requires NoFailure(script) && Fresh(script, d.clock, d.db.cmds) && Current(items, d.db.rows)
    ensures var d' := Rescheduled(d, items, script);
            ListMoved(d.db, items, d'.db) && Fresh(script, d'.clock, d'.db.cmds)
    decreases |items|
  {
    if items != [] {
      var d1 := Drive(d.db, InLoop(MoveCas(items[0].0, items[0].1)), script, d.clock);
      OneMoved(d, items[0], script);
      StillCurrent(d.db, items, d1.db);
      RescheduledMovesTheList(d1, items[1..], script);
      ListMovedChain(d.db, items, d1.db, Rescheduled(d1, items[1..], script).db);
    }
  }
}
