/** What a container event, handled alone, does in the end: to every row, and whichever of its calls fail. script(k)
  decides the handler's first call. */
module EventOutcome {
  import opened Wrappers
  import opened Models
  import opened Scheduler
  import opened Protocol
  import opened Atomic
  import opened RequestOutcome

  /** Seconds before the restart after so many earlier failures. */
  function Delay(failures: nat): nat
    requires failures < 3
  {
    if failures == 0 then 5 else if failures == 1 then 10 else 20
  }

  lemma DelayIsTheBackoff(failures: nat)
    requires failures < 3
    ensures RestartDelay(failures + 1) == Delay(failures)
  {
    if failures == 2 {
      assert RestartDelay(3) == 2 * RestartDelay(2);
    }
  }

  // ---------------------------------------------------------------- HandleCrash

  /** One more failure on the row. */
  function Counted(db: Db, id: SandboxId): Db
    requires id in db.rows
  {
    db.(rows := db.rows[id := db.rows[id].(failures := db.rows[id].failures + 1)])
  }

  /** The crash of a row in restarting is followed by a restart. */
  predicate Restarts(db: Db, id: SandboxId, script: nat -> Choice, k: nat) {
    id in db.rows && db.rows[id].state == Restarting && db.rows[id].failures < 3
    && !script(k).fails && !script(k + 1).fails
  }

  /** A restart: the row goes to starting with one more failure, and a start command with its delay goes to the node; if
      the command cannot be issued the row is on record as lost. */
  function Restarted(db: Db, id: SandboxId, node: Option<NodeId>, ch: Choice): Db
    requires id in db.rows && db.rows[id].failures < 3
  {
    var row := db.rows[id];
    var delay := Delay(row.failures);
    var up := Changed(row, Starting).(failures := row.failures + 1);
    if CanIssue(db, node, ch)
    then db.(rows := db.rows[id := up.(restarts := row.restarts + [delay])],
             cmds := db.cmds[ch.cmd := Cmd(StartCmd, node.value, id, Queued, delay, delay + 60, up.version, Starting)])
    else db.(rows := db.rows[id := up], lost := db.lost + {id})
  }

  /** HandleCrash with a row the caller had read in running. */
  function AfterCrash(db: Db, id: SandboxId, node: Option<NodeId>, script: nat -> Choice, k: nat): Db {
    if id !in db.rows || script(k).fails then db
    else if Restarts(db, id, script, k) then Restarted(db, id, node, script(k + 2))
    else Counted(db, id)
  }

  /** A start command with its delay, which is put on the row's record. */
  function Reissued(db: Db, id: SandboxId, node: Option<NodeId>, delay: nat, ch: Choice): Db
    requires id in db.rows
  {
    var row := db.rows[id];
    if CanIssue(db, node, ch)
    then db.(rows := db.rows[id := row.(restarts := row.restarts + [delay])],
             cmds := db.cmds[ch.cmd := Cmd(StartCmd, node.value, id, Queued, delay, delay + 60, row.version, Starting)])
    else db.(lost := db.lost + {id})
  }

  lemma IssueRestart(db: Db, id: SandboxId, node: Option<NodeId>, delay: nat, script: nat -> Choice, k: nat, d: Driven)
    requires id in db.rows && db.rows[id].state == Starting && delay > 0
    requires d == Drive(db, Issue(StartCmd, id, node, delay, db.rows[id].version, Starting, None), script, k)
    ensures d.db == Reissued(db, id, node, delay, script(k))
  {
    DriveOnce(db, Issue(StartCmd, id, node, delay, db.rows[id].version, Starting, None), script, k);
  }

  lemma RestartCalls(db: Db, id: SandboxId, sb: Row, count: nat, ch: Choice)
    requires id in db.rows && 1 <= count <= 3
    ensures var pc, row := InEvent(CrashRestart(id, sb, count)), db.rows[id];
            var o := Called(db, pc, ch);
            if row.state == Restarting && !ch.fails
            then o.db == db.(rows := db.rows[id := Changed(row, Starting)])
                 && Resume(pc, o.reply)
                    == Some(Issue(StartCmd, id, sb.node, Delay(count - 1), row.version + 1, Starting, None))
            else o.db == db && Resume(pc, o.reply).None?
  {
    DelayIsTheBackoff(count - 1);
  }

  /** The row with one more failure, which the restart has put in starting. */
  function Revived(row: Row): Row { Changed(row, Starting).(failures := row.failures + 1) }

  lemma CountedRestart(db: Db, id: SandboxId, sb: Row, script: nat -> Choice, k: nat, d: Driven)
    requires id in db.rows && db.rows[id].failures < 3
    requires d == Drive(Counted(db, id), InEvent(CrashRestart(id, sb, db.rows[id].failures + 1)), script, k)
    ensures d.db == if db.rows[id].state == Restarting && !script(k).fails
                    then Restarted(db, id, sb.node, script(k + 1)) else Counted(db, id)
  {
    if db.rows[id].state == Restarting && !script(k).fails {
      RestartEnds(db, id, sb, script, k, d);
    } else {
      var pc := InEvent(CrashRestart(id, sb, db.rows[id].failures + 1));
      RestartCalls(Counted(db, id), id, sb, db.rows[id].failures + 1, script(k));
      DriveEnds(Counted(db, id), pc, Counted(db, id), script, k, d);
    }
  }

  lemma RestartEnds(db: Db, id: SandboxId, sb: Row, script: nat -> Choice, k: nat, d: Driven)
    requires id in db.rows && db.rows[id].failures < 3 && db.rows[id].state == Restarting && !script(k).fails
    requires d == Drive(Counted(db, id), InEvent(CrashRestart(id, sb, db.rows[id].failures + 1)), script, k)
    ensures d.db == Restarted(db, id, sb.node, script(k + 1))
  {
    var row := db.rows[id];
    var db2 := db.(rows := db.rows[id := Revived(row)]);
    RestartCallLeads(db, id, sb, script(k), db2);
    var issue := Issue(StartCmd, id, sb.node, Delay(row.failures), row.version + 1, Starting, None);
    var d2 := Drive(db2, issue, script, k + 1);
    DriveStep(Counted(db, id), InEvent(CrashRestart(id, sb, row.failures + 1)), db2, issue, script, k, d, d2);
    IssueRestart(db2, id, sb.node, Delay(row.failures), script, k + 1, d2);
    RevivedIs(db, id, sb.node, script(k + 1));
  }

  lemma RestartCallLeads(db: Db, id: SandboxId, sb: Row, ch: Choice, db2: Db)
    requires id in db.rows && db.rows[id].failures < 3 && db.rows[id].state == Restarting && !ch.fails
    requires db2 == db.(rows := db.rows[id := Revived(db.rows[id])])
    ensures var pc, row := InEvent(CrashRestart(id, sb, db.rows[id].failures + 1)), db.rows[id];
            var o := Called(Counted(db, id), pc, ch);
            && o.db == db2
            && Resume(pc, o.reply)
               == Some(Issue(StartCmd, id, sb.node, Delay(row.failures), row.version + 1, Starting, None))
  {
    RestartCalls(Counted(db, id), id, sb, db.rows[id].failures + 1, ch);
    var db1 := Counted(db, id);
    assert db1.rows[id := Changed(db1.rows[id], Starting)] == db.rows[id := Revived(db.rows[id])];
  }

  lemma RevivedIs(db: Db, id: SandboxId, node: Option<NodeId>, ch: Choice)
    requires id in db.rows && db.rows[id].failures < 3
    ensures Restarted(db, id, node, ch)
            == Reissued(db.(rows := db.rows[id := Revived(db.rows[id])]), id, node, Delay(db.rows[id].failures), ch)
  {
    var up := Revived(db.rows[id]);
    assert db.rows[id := up][id := up.(restarts := up.restarts + [Delay(db.rows[id].failures)])]
           == db.rows[id := up.(restarts := up.restarts + [Delay(db.rows[id].failures)])];
  }

  lemma SpentCrash(db: Db, id: SandboxId, sb: Row, script: nat -> Choice, k: nat)
    requires id in db.rows && db.rows[id].state != sb.state
    ensures Drive(db, InEvent(CrashFail(id, sb)), script, k).db == db
  {
    DriveOnce(db, InEvent(CrashFail(id, sb)), script, k);
  }

  lemma CountGoes(db: Db, id: SandboxId, sb: Row, ch: Choice)
    requires id in db.rows && !ch.fails
    ensures var o := Called(db, InEvent(CrashIncrement(id, sb)), ch); var count := db.rows[id].failures + 1;
            && o.db == Counted(db, id)
            && Resume(InEvent(CrashIncrement(id, sb)), o.reply)
               == Some(InEvent(if count > 3 then CrashFail(id, sb) else CrashRestart(id, sb, count)))
  {
  }

  /** A crash with fewer than three failures so far is followed by a restart after 5, 10 or 20 seconds; from the third
      failure on it is only counted, as the row the caller had read in running is not the row as it is. */
  lemma CrashOutcome(db: Db, id: SandboxId, sb: Row, script: nat -> Choice, k: nat)
    requires id in db.rows ==> db.rows[id].state != sb.state
    ensures Drive(db, InEvent(CrashIncrement(id, sb)), script, k).db == AfterCrash(db, id, sb.node, script, k)
  {
    DriveOnce(db, InEvent(CrashIncrement(id, sb)), script, k);
    if id in db.rows && !script(k).fails {
      CountGoes(db, id, sb, script(k));
      if db.rows[id].failures < 3 {
        CountedRestart(db, id, sb, script, k + 1,
                       Drive(Counted(db, id), InEvent(CrashRestart(id, sb, db.rows[id].failures + 1)), script, k + 1));
      } else {
        SpentCrash(Counted(db, id), id, sb, script, k + 1);
      }
    }
  }

  // ---------------------------------------------------------------- HandleEvent

  /** Where a container event takes a row. */
  function Heard(event: Event, state: State): Option<State> {
    if event == EvStarted && (state == Starting || state == Failed) then Some(Running)
    else if event == EvContainerExited && state == Starting then Some(Failed)
    else if event == EvContainerExited && state == Running then Some(Restarting)
    else None
  }

  /** The app without its route, unless the call fails. */
  function Unrouted(db: Db, app: string, ch: Choice): Db {
    if ch.fails then db else db.(routes := db.routes - {app})
  }

  function AfterEvent(db: Db, id: SandboxId, event: Event, script: nat -> Choice, k: nat): Db {
    if script(k).fails || id !in db.rows || Heard(event, db.rows[id].state).None? || script(k + 1).fails then db
    else
      var row := db.rows[id];
      var to := Heard(event, row.state).value;
      var moved := db.(rows := db.rows[id := Changed(row, to)]);
      if to != Restarting then moved
      else AfterCrash(Unrouted(moved, row.app, script(k + 2)), id, row.node, script, k + 3)
  }

  lemma UnrouteGoes(db: Db, id: SandboxId, sb: Row, script: nat -> Choice, k: nat)
    ensures Drive(db, InEvent(EventUnroute(id, sb)), script, k)
            == Drive(Unrouted(db, sb.app, script(k)), InEvent(CrashIncrement(id, sb)), script, k + 1)
  {
    DriveOnce(db, InEvent(EventUnroute(id, sb)), script, k);
  }

  lemma ExitOutcome(db: Db, id: SandboxId, sb: Row, script: nat -> Choice, k: nat)
    requires id in db.rows && db.rows[id].state != sb.state
    ensures Drive(db, InEvent(EventUnroute(id, sb)), script, k).db
            == AfterCrash(Unrouted(db, sb.app, script(k)), id, sb.node, script, k + 1)
  {
    UnrouteGoes(db, id, sb, script, k);
    CrashOutcome(Unrouted(db, sb.app, script(k)), id, sb, script, k + 1);
  }

  /** A start takes a starting or failed row to running; an exit takes a starting row to failed, and a running one to
      restarting, without its route, and on to its restart. No other row changes, and no other command is issued. */
  lemma EventOutcome(db: Db, id: SandboxId, event: Event, script: nat -> Choice, k: nat)
    requires event == EvStarted || event == EvContainerExited
    ensures Drive(db, InEvent(EventRead(id, event)), script, k).db == AfterEvent(db, id, event, script, k)
  {
    DriveOnce(db, InEvent(EventRead(id, event)), script, k);
    if !script(k).fails && id in db.rows && Heard(event, db.rows[id].state).Some? {
      var row := db.rows[id];
      var to := Heard(event, row.state).value;
      assert Resume(InEvent(EventRead(id, event)), GotRow(id, row)) == Some(InEvent(EventCas(id, row, to)));
      DriveOnce(db, InEvent(EventCas(id, row, to)), script, k + 1);
      if !script(k + 1).fails && to == Restarting {
        ExitOutcome(db.(rows := db.rows[id := Changed(row, to)]), id, row, script, k + 2);
      }
    }
  }

  /** The database with the row in restarting and unrouted. */
  function Crashing(db: Db, id: SandboxId): Db
    requires id in db.rows
  {
    db.(rows := db.rows[id := Changed(db.rows[id], Restarting)], routes := db.routes - {db.rows[id].app})
  }

  lemma PlainCrash(db: Db, id: SandboxId, script: nat -> Choice, k: nat)
    requires id in db.rows && db.rows[id].state == Running && db.rows[id].failures < 3
    requires forall j :: !script(j).fails
    ensures AfterEvent(db, id, EvContainerExited, script, k)
            == Restarted(Crashing(db, id), id, db.rows[id].node, script(k + 5))
  {
  }

  /** In particular, when no call fails and the row has a node: a crash of a running row with fewer than three failures
      ends in starting, two versions on and unrouted, with exactly one new command. */
  lemma CrashRestartsTheRow(db: Db, id: SandboxId, script: nat -> Choice, k: nat)
    requires id in db.rows && db.rows[id].state == Running && db.rows[id].failures < 3 && db.rows[id].node.Some?
    requires (forall j :: !script(j).fails) && script(k + 5).cmd !in db.cmds
    ensures var row, db' := db.rows[id], Drive(db, InEvent(EventRead(id, EvContainerExited)), script, k).db;
            var delay := if row.failures == 0 then 5 else if row.failures == 1 then 10 else 20;
            && id in db'.rows && db'.rows[id].state == Starting && db'.rows[id].version == row.version + 2
            && db'.rows[id].failures == row.failures + 1 && db'.rows[id].node == row.node
            && db'.routes == db.routes - {row.app} && db'.lost == db.lost
            && db'.cmds == db.cmds[script(k + 5).cmd := Cmd(StartCmd, row.node.value, id, Queued, delay, delay + 60,
                                                            row.version + 2, Starting)]
  {
    EventOutcome(db, id, EvContainerExited, script, k);
    PlainCrash(db, id, script, k);
  }
}
