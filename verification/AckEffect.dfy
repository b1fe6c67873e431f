/**
 What an acknowledgement, handled alone, does in the end: for every command and row, and whichever of its calls fail.
 script(k) decides the handler's first call.
 */
module AckEffect {
  import opened Wrappers
  import opened Models
  import opened Protocol
  import opened Atomic
  import opened RequestOutcome

  /** Command c acknowledged. A start that neither succeeded nor failed and a stop that did not succeed leave their row
      behind. */
  function Acknowledged(db: Db, c: CmdId, status: AckStatus, ch: Choice): Db {
    if ch.fails || c !in db.cmds then db
    else
      var cmd := db.cmds[c];
      var behind := (cmd.kind == StartCmd && status == AckOther) || (cmd.kind == StopCmd && status != AckSuccess);
      db.(cmds := db.cmds[c := cmd.(status := if status == AckFailure then Errored else Completed)],
          lost := if behind then db.lost + {cmd.sandbox} else db.lost)
  }

  /** The row moved on. */
  function Moved(db: Db, id: SandboxId, to: State): Db
    requires id in db.rows
  {
    db.(rows := db.rows[id := Changed(db.rows[id], to)])
  }

  /** Container id and host port as the acknowledgement names them, if it names either. */
  function Known(db: Db, id: SandboxId, info: Runtime): Db
    requires id in db.rows
  {
    db.(rows := db.rows[id := db.rows[id].(
                                container := if info.container == "" then None else Some(info.container),
                                port := if info.port == 0 then None else Some(info.port))])
  }

  function Announced(db: Db, id: SandboxId, seen: Row): Db {
    if seen.node.Some? && seen.port.Some?
    then db.(routes := db.routes[seen.app := Route(id, seen.node.value, seen.port.value)]) else db
  }

  function Forgiven(db: Db, id: SandboxId): Db
    requires id in db.rows
  {
    db.(rows := db.rows[id := db.rows[id].(failures := 0, restarts := [])])
  }

  /** The row is running: its route is added, its failures are forgiven and the command is acknowledged, and a call that
      fails on the way is passed over. seen is the row as the second look finds it. */
  function AfterLook(db: Db, c: CmdId, id: SandboxId, seen: Row, script: nat -> Choice, k: nat): Db
    requires id in db.rows
  {
    var routed := if script(k).fails then db else Announced(db, id, seen);
    if seen.failures == 0 then Acknowledged(routed, c, AckSuccess, script(k + 1))
    else Acknowledged(if script(k + 1).fails then routed else Forgiven(routed, id), c, AckSuccess, script(k + 2))
  }

  /** read is the row as the handler first read it, which stands in for a second look that fails. */
  function AfterStart(db: Db, c: CmdId, id: SandboxId, read: Row, info: Runtime, script: nat -> Choice, k: nat): Db
    requires id in db.rows
  {
    if info == Runtime("", 0) then AfterLook(db, c, id, if script(k).fails then read else db.rows[id], script, k + 1)
    else
      var known := if script(k).fails then db else Known(db, id, info);
      AfterLook(known, c, id, if script(k + 1).fails then read else known.rows[id], script, k + 2)
  }

  function AfterAck(db: Db, c: CmdId, id: SandboxId, kind: CmdKind, status: AckStatus, info: Runtime,
                    script: nat -> Choice, k: nat): Db
  {
    if script(k).fails || id !in db.rows then db
    else
      var row := db.rows[id];
      match (kind, status)
      case (StartCmd, AckSuccess) =>
        if row.state == Running then AfterStart(db, c, id, row, info, script, k + 1)
        else if (row.state != Starting && row.state != Failed) || script(k + 1).fails then db
        else AfterStart(Moved(db, id, Running), c, id, row, info, script, k + 2)
      case (StartCmd, AckFailure) =>
        if row.state == Failed then Acknowledged(db, c, AckFailure, script(k + 1))
        else if row.state != Starting || script(k + 1).fails then db
        else Acknowledged(Moved(db, id, Failed), c, AckFailure, script(k + 2))
      case (StopCmd, AckSuccess) =>
        if row.state != Destroying then Acknowledged(db, c, AckSuccess, script(k + 1))
        else if script(k + 1).fails then db
        else
          var gone := Moved(db, id, Destroyed);
          Acknowledged(if script(k + 2).fails then gone else gone.(routes := db.routes - {row.app}), c, AckSuccess,
                       script(k + 3))
      case _ => Acknowledged(db, c, status, script(k + 1))
  }

  // ---------------------------------------------------------------- the calls, last ones first

  lemma FinishEnds(db: Db, c: CmdId, id: SandboxId, status: AckStatus, script: nat -> Choice, k: nat)
    ensures Drive(db, InAck(AckFinish(c, id, status)), script, k).db == Acknowledged(db, c, status, script(k))
  {
    DriveOnce(db, InAck(AckFinish(c, id, status)), script, k);
  }

  lemma ResetEnds(db: Db, c: CmdId, id: SandboxId, script: nat -> Choice, k: nat)
    requires id in db.rows
    ensures Drive(db, InAck(AckReset(c, id)), script, k).db
            == Acknowledged(if script(k).fails then db else Forgiven(db, id), c, AckSuccess, script(k + 1))
  {
    var db1 := if script(k).fails then db else Forgiven(db, id);
    assert Called(db, InAck(AckReset(c, id)), script(k)).db == db1;
    DriveOnce(db, InAck(AckReset(c, id)), script, k);
    FinishEnds(db1, c, id, AckSuccess, script, k + 1);
  }

  /** d is where driving the handler from here ends. */
  lemma RouteEnds(db: Db, c: CmdId, id: SandboxId, seen: Row, script: nat -> Choice, k: nat, d: Driven)
    requires id in db.rows && d == Drive(db, InAck(AckRoute(c, id, seen)), script, k)
    ensures d.db == AfterLook(db, c, id, seen, script, k)
  {
    var db1 := if script(k).fails then db else Announced(db, id, seen);
    assert Called(db, InAck(AckRoute(c, id, seen)), script(k)).db == db1;
    DriveOnce(db, InAck(AckRoute(c, id, seen)), script, k);
    if seen.failures == 0 {
      FinishEnds(db1, c, id, AckSuccess, script, k + 1);
    } else {
      ResetEnds(db1, c, id, script, k + 1);
    }
  }

  lemma LookGoes(db: Db, c: CmdId, id: SandboxId, read: Row, seen: Row, script: nat -> Choice, k: nat, d: Driven)
    requires id in db.rows && seen == if script(k).fails then read else db.rows[id]
    requires d == Drive(db, InAck(AckRefetch(c, id, read)), script, k)
    ensures d == Drive(db, InAck(AckRoute(c, id, seen)), script, k + 1)
  {
    DriveOnce(db, InAck(AckRefetch(c, id, read)), script, k);
  }

  lemma PersistEnds(db: Db, c: CmdId, id: SandboxId, read: Row, info: Runtime, script: nat -> Choice, k: nat)
    requires id in db.rows && info != Runtime("", 0)
    ensures Drive(db, InAck(AckPersist(c, id, read, info)), script, k).db
            == AfterStart(db, c, id, read, info, script, k)
  {
    var db1 := if script(k).fails then db else Known(db, id, info);
    assert Called(db, InAck(AckPersist(c, id, read, info)), script(k)).db == db1;
    DriveOnce(db, InAck(AckPersist(c, id, read, info)), script, k);
    var seen := if script(k + 1).fails then read else db1.rows[id];
    var d := Drive(db1, InAck(AckRefetch(c, id, read)), script, k + 1);
    LookGoes(db1, c, id, read, seen, script, k + 1, d);
    RouteEnds(db1, c, id, seen, script, k + 2, d);
  }

  lemma StartEnds(db: Db, c: CmdId, id: SandboxId, read: Row, info: Runtime, script: nat -> Choice, k: nat)
    requires id in db.rows
    ensures Drive(db, InAck(Settled(c, id, read, EvStarted, info)), script, k).db
            == AfterStart(db, c, id, read, info, script, k)
  {
    if info == Runtime("", 0) {
      var seen := if script(k).fails then read else db.rows[id];
      var d := Drive(db, InAck(AckRefetch(c, id, read)), script, k);
      LookGoes(db, c, id, read, seen, script, k, d);
      RouteEnds(db, c, id, seen, script, k + 1, d);
    } else {
      PersistEnds(db, c, id, read, info, script, k);
    }
  }

  lemma GoneEnds(db: Db, c: CmdId, id: SandboxId, app: string, script: nat -> Choice, k: nat)
    ensures Drive(db, InAck(AckUnroute(c, id, app)), script, k).db
            == Acknowledged(if script(k).fails then db else db.(routes := db.routes - {app}), c, AckSuccess,
                            script(k + 1))
  {
    var db1 := if script(k).fails then db else db.(routes := db.routes - {app});
    assert Called(db, InAck(AckUnroute(c, id, app)), script(k)).db == db1;
    DriveOnce(db, InAck(AckUnroute(c, id, app)), script, k);
    FinishEnds(db1, c, id, AckSuccess, script, k + 1);
  }

  /** The compare-and-swap of a handler that runs alone hits, unless the call fails. */
  lemma CasEnds(db: Db, c: CmdId, id: SandboxId, event: Event, to: State, info: Runtime, script: nat -> Choice, k: nat)
    requires id in db.rows
    ensures Drive(db, InAck(AckCas(c, id, db.rows[id], event, to, info)), script, k).db
            == if script(k).fails then db
               else Drive(Moved(db, id, to), InAck(Settled(c, id, db.rows[id], event, info)), script, k + 1).db
  {
    DriveOnce(db, InAck(AckCas(c, id, db.rows[id], event, to, info)), script, k);
  }

  // ---------------------------------------------------------------- the whole handler

  /** What the handler does next with the row it has read. */
  lemma ReadGoes(db: Db, c: CmdId, id: SandboxId, kind: CmdKind, status: AckStatus, info: Runtime,
                 script: nat -> Choice, k: nat)
    requires id in db.rows && !script(k).fails
    ensures var row, read := db.rows[id], InAck(AckRead(c, id, kind, status, info));
            var next := AckResume(AckRead(c, id, kind, status, info), GotRow(id, row));
            Drive(db, read, script, k).db == if next.None? then db else Drive(db, InAck(next.value), script, k + 1).db
  {
    DriveOnce(db, InAck(AckRead(c, id, kind, status, info)), script, k);
  }

  lemma StartAck(db: Db, c: CmdId, id: SandboxId, info: Runtime, script: nat -> Choice, k: nat)
    requires id in db.rows && !script(k).fails
    ensures Drive(db, InAck(AckRead(c, id, StartCmd, AckSuccess, info)), script, k).db
            == AfterAck(db, c, id, StartCmd, AckSuccess, info, script, k)
  {
    var row := db.rows[id];
    ReadGoes(db, c, id, StartCmd, AckSuccess, info, script, k);
    if row.state == Running {
      StartEnds(db, c, id, row, info, script, k + 1);
    } else if row.state == Starting || row.state == Failed {
      CasEnds(db, c, id, EvStarted, Running, info, script, k + 1);
      StartEnds(Moved(db, id, Running), c, id, row, info, script, k + 2);
    }
  }

  lemma FailedStartAck(db: Db, c: CmdId, id: SandboxId, info: Runtime, script: nat -> Choice, k: nat)
    requires id in db.rows && !script(k).fails
    ensures Drive(db, InAck(AckRead(c, id, StartCmd, AckFailure, info)), script, k).db
            == AfterAck(db, c, id, StartCmd, AckFailure, info, script, k)
  {
    ReadGoes(db, c, id, StartCmd, AckFailure, info, script, k);
    if db.rows[id].state == Failed {
      FinishEnds(db, c, id, AckFailure, script, k + 1);
    } else if db.rows[id].state == Starting {
      CasEnds(db, c, id, EvStartFailed, Failed, info, script, k + 1);
      FinishEnds(Moved(db, id, Failed), c, id, AckFailure, script, k + 2);
    }
  }

  lemma StopAck(db: Db, c: CmdId, id: SandboxId, info: Runtime, script: nat -> Choice, k: nat)
    requires id in db.rows && !script(k).fails
    ensures Drive(db, InAck(AckRead(c, id, StopCmd, AckSuccess, info)), script, k).db
            == AfterAck(db, c, id, StopCmd, AckSuccess, info, script, k)
  {
    ReadGoes(db, c, id, StopCmd, AckSuccess, info, script, k);
    if db.rows[id].state == Destroying {
      CasEnds(db, c, id, EvDestroyed, Destroyed, info, script, k + 1);
      GoneEnds(Moved(db, id, Destroyed), c, id, db.rows[id].app, script, k + 2);
    } else {
      FinishEnds(db, c, id, AckSuccess, script, k + 1);
    }
  }

  /** A start that succeeded takes a starting or failed row to running, adds its route, forgives its failures and
      completes the command; one that failed takes a starting row to failed. A stop that succeeded takes a destroying
      row to destroyed and its route away. Every other acknowledgement is only put on the command; one that the table
      does not allow changes nothing at all. */
  lemma AckEnds(db: Db, c: CmdId, id: SandboxId, kind: CmdKind, status: AckStatus, info: Runtime,
                script: nat -> Choice, k: nat)
    ensures Drive(db, InAck(AckRead(c, id, kind, status, info)), script, k).db
            == AfterAck(db, c, id, kind, status, info, script, k)
  {
    if id !in db.rows || script(k).fails {
      DriveOnce(db, InAck(AckRead(c, id, kind, status, info)), script, k);
    } else if kind == StartCmd && status == AckSuccess {
      StartAck(db, c, id, info, script, k);
    } else if kind == StartCmd && status == AckFailure {
      FailedStartAck(db, c, id, info, script, k);
    } else if kind == StopCmd && status == AckSuccess {
      StopAck(db, c, id, info, script, k);
    } else {
      ReadGoes(db, c, id, kind, status, info, script, k);
      FinishEnds(db, c, id, status, script, k + 1);
    }
  }

  lemma PlainLook(db: Db, c: CmdId, id: SandboxId, script: nat -> Choice, k: nat)
    requires id in db.rows && c in db.cmds && db.cmds[c].kind == StartCmd && forall j :: !script(j).fails
    ensures var db', row := AfterLook(db, c, id, db.rows[id], script, k), db.rows[id];
            && db'.rows == (if row.failures == 0 then db.rows
                            else db.rows[id := row.(failures := 0, restarts := [])])
            && db'.routes == Announced(db, id, row).routes
            && db'.cmds == db.cmds[c := db.cmds[c].(status := Completed)] && db'.lost == db.lost
  {
  }

  lemma PlainStart(db: Db, c: CmdId, id: SandboxId, read: Row, info: Runtime, script: nat -> Choice, k: nat)
    requires id in db.rows && c in db.cmds && db.cmds[c].kind == StartCmd && forall j :: !script(j).fails
    ensures var known := if info == Runtime("", 0) then db else Known(db, id, info);
            var db', row := AfterStart(db, c, id, read, info, script, k), known.rows[id];
            && db'.rows == (if row.failures == 0 then known.rows
                            else known.rows[id := row.(failures := 0, restarts := [])])
            && db'.routes == Announced(known, id, row).routes
            && db'.cmds == db.cmds[c := db.cmds[c].(status := Completed)] && db'.lost == db.lost
  {
    if info == Runtime("", 0) {
      PlainLook(db, c, id, script, k + 1);
    } else {
      PlainLook(Known(db, id, info), c, id, script, k + 2);
    }
  }

  /** What follows once the row is where the event takes it. read is the row as the handler knows it. */
  function AfterSettled(db: Db, c: CmdId, id: SandboxId, event: Event, read: Row, info: Runtime, script: nat -> Choice,
                        k: nat): Db
    requires id in db.rows
  {
    match event
    case EvStarted => AfterStart(db, c, id, read, info, script, k)
    case EvStartFailed => Acknowledged(db, c, AckFailure, script(k))
    case _ =>
      Acknowledged(if script(k).fails then db else db.(routes := db.routes - {read.app}), c, AckSuccess, script(k + 1))
  }

  lemma SettledEnds(db: Db, c: CmdId, id: SandboxId, event: Event, read: Row, info: Runtime, script: nat -> Choice,
                    k: nat)
    requires id in db.rows
    ensures Drive(db, InAck(Settled(c, id, read, event, info)), script, k).db
            == AfterSettled(db, c, id, event, read, info, script, k)
  {
    match event {
      case EvStarted => StartEnds(db, c, id, read, info, script, k);
      case EvStartFailed => FinishEnds(db, c, id, AckFailure, script, k);
      case _ => GoneEnds(db, c, id, read.app, script, k);
    }
  }

  /** When somebody else has moved the row since it was read: the acknowledgement goes on, with the row as it is now, if
      that is where its event would have taken it, and otherwise changes nothing. */
  lemma LostRaceEnds(db: Db, c: CmdId, id: SandboxId, sb: Row, event: Event, to: State, info: Runtime,
                     script: nat -> Choice, k: nat)
    requires (event == EvStarted && to == Running) || (event == EvStartFailed && to == Failed)
             || (event == EvDestroyed && to == Destroyed)
    requires id !in db.rows || db.rows[id].state != sb.state
    ensures Drive(db, InAck(AckCas(c, id, sb, event, to, info)), script, k).db
            == if script(k).fails || script(k + 1).fails || id !in db.rows || db.rows[id].state != to then db
               else AfterSettled(db, c, id, event, db.rows[id], info, script, k + 2)
  {
    DriveOnce(db, InAck(AckCas(c, id, sb, event, to, info)), script, k);
    if !script(k).fails {
      DriveOnce(db, InAck(AckRefresh(c, id, event, to, info)), script, k + 1);
      if !script(k + 1).fails && id in db.rows && db.rows[id].state == to {
        SettledEnds(db, c, id, event, db.rows[id], info, script, k + 2);
      }
    }
  }

  /** In particular, when no call fails: a start that succeeded leaves a row that was starting, failed or running
      already in running with a new restart budget, its route pointing to its port, and the command completed. */
  lemma StartAckOpensBudget(db: Db, c: CmdId, id: SandboxId, info: Runtime, script: nat -> Choice, k: nat)
    requires id in db.rows && (db.rows[id].state in {Starting, Failed, Running}) && c in db.cmds
    requires db.cmds[c].kind == StartCmd && forall j :: !script(j).fails
    requires db.rows[id].failures == 0 ==> db.rows[id].restarts == []
    ensures var row, db' := db.rows[id], Drive(db, InAck(AckRead(c, id, StartCmd, AckSuccess, info)), script, k).db;
            && id in db'.rows && db'.rows[id].state == Running && db'.rows[id].failures == 0
            && db'.rows[id].restarts == [] && db'.rows[id].app == row.app && db'.rows[id].node == row.node
            && db'.rows[id].version == (if row.state == Running then row.version else row.version + 1)
            && (info.port != 0 ==> db'.rows[id].port == Some(info.port))
            && (info.port != 0 && row.node.Some? ==>
                  row.app in db'.routes && db'.routes[row.app] == Route(id, row.node.value, info.port))
            && db'.cmds == db.cmds[c := db.cmds[c].(status := Completed)] && db'.lost == db.lost
  {
    var row0 := db.rows[id];
    var moved := if row0.state == Running then db else Moved(db, id, Running);
    AckEnds(db, c, id, StartCmd, AckSuccess, info, script, k);
    PlainStart(moved, c, id, row0, info, script, if row0.state == Running then k + 1 else k + 2);
  }
}
