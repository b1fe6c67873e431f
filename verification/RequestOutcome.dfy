/** What a destroy, wake or restart request and one turn of the idle reaper, handled alone, do in the end: to every row,
  and whichever of their calls fail. script(k) decides the handler's first call. */
module RequestOutcome {
  import opened Wrappers
  import opened Models
  import opened Scheduler
  import opened Protocol
  import opened Atomic

  /** The row after a handler has moved it. */
  function Changed(row: Row, to: State): Row {
    row.(state := to, version := row.version + 1, trail := row.trail + [Change(row.state, to, ByHandler)])
  }

  /** A command can be issued: the row has a node, and the call does not fail. */
  predicate CanIssue(db: Db, node: Option<NodeId>, ch: Choice) { !ch.fails && node.Some? && ch.cmd !in db.cmds }

  /** One new command for sandbox id, which reached goal at this version; or none, and then a row in starting or
      destroying goes on record as lost. */
  function Ordered(db: Db, id: SandboxId, kind: CmdKind, node: Option<NodeId>, delay: nat, version: nat, goal: State,
                   ch: Choice): Db
  {
    if CanIssue(db, node, ch)
    then db.(cmds := db.cmds[ch.cmd := Cmd(kind, node.value, id, Queued, delay, delay + 60, version, goal)])
    else if goal == Starting || goal == Destroying then db.(lost := db.lost + {id})
    else db
  }

  lemma IssueCalls(db: Db, id: SandboxId, kind: CmdKind, node: Option<NodeId>, goal: State, unroute: Option<string>,
                   ch: Choice)
    requires id in db.rows && (Critical(goal) ==> db.rows[id].state == goal)
    ensures Called(db, Issue(kind, id, node, 0, db.rows[id].version, goal, unroute), ch).db
            == Ordered(db, id, kind, node, 0, db.rows[id].version, goal, ch)
  {
    assert PutRow(db, id, db.rows[id]) == db;
  }

  lemma IssueEnds(db: Db, id: SandboxId, kind: CmdKind, node: Option<NodeId>, goal: State, script: nat -> Choice,
                  k: nat)
    requires id in db.rows && (Critical(goal) ==> db.rows[id].state == goal)
    ensures Drive(db, Issue(kind, id, node, 0, db.rows[id].version, goal, None), script, k).db
            == Ordered(db, id, kind, node, 0, db.rows[id].version, goal, script(k))
  {
    IssueCalls(db, id, kind, node, goal, None, script(k));
    DriveOnce(db, Issue(kind, id, node, 0, db.rows[id].version, goal, None), script, k);
  }

  lemma MoveThenIssue(db: Db, id: SandboxId, row: Row, kind: CmdKind, node: Option<NodeId>, goal: State,
                      script: nat -> Choice, k: nat)
    requires row.state == goal
    ensures var db1 := db.(rows := db.rows[id := row]);
            Drive(db1, Issue(kind, id, node, 0, row.version, goal, None), script, k).db
            == Ordered(db1, id, kind, node, 0, row.version, goal, script(k))
  {
    IssueEnds(db.(rows := db.rows[id := row]), id, kind, node, goal, script, k);
  }

  // ---------------------------------------------------------------- assigning a node

  /** The tail CreateSandbox and the rescheduler share: a pending row goes to starting on the node, with one start
      command for it. */
  function AfterAssign(db: Db, id: SandboxId, node: NodeId, script: nat -> Choice, k: nat): Db
    requires id in db.rows && db.rows[id].state == Pending
  {
    if script(k).fails then db
    else
      var row := Changed(db.rows[id], Starting).(node := Some(node), container := None, port := None);
      Ordered(db.(rows := db.rows[id := row]), id, StartCmd, Some(node), 0, row.version, Starting, script(k + 1))
  }

  lemma AssignOutcome(db: Db, id: SandboxId, node: NodeId, script: nat -> Choice, k: nat)
    requires id in db.rows && db.rows[id].state == Pending
    ensures Drive(db, Assign(id, node), script, k).db == AfterAssign(db, id, node, script, k)
  {
    DriveOnce(db, Assign(id, node), script, k);
    if !script(k).fails {
      var row := Changed(db.rows[id], Starting).(node := Some(node), container := None, port := None);
      MoveThenIssue(db, id, row, StartCmd, Some(node), Starting, script, k + 1);
    }
  }

  // ---------------------------------------------------------------- DestroySandbox

  /** The state a destroy request leads to: a row without a container is destroyed at once. */
  function Doomed(state: State): Option<State> {
    match state
    case Pending => Some(Destroyed)
    case Stopped => Some(Destroyed)
    case Failed => Some(Destroyed)
    case Starting => Some(Destroying)
    case Running => Some(Destroying)
    case Restarting => Some(Destroying)
    case Destroying => None
    case Destroyed => None
  }

  lemma DoomedIsTheTable(state: State)
    ensures NextState(state, EvDestroyRequest) == Doomed(state)
  {
  }

  function AfterDestroy(db: Db, id: SandboxId, script: nat -> Choice, k: nat): Db {
    if script(k).fails || id !in db.rows || Doomed(db.rows[id].state).None? || script(k + 1).fails then db
    else
      var row := db.rows[id];
      var to := Doomed(row.state).value;
      Ordered(db.(rows := db.rows[id := Changed(row, to)]), id, StopCmd, row.node, 0, row.version + 1, to,
              script(k + 2))
  }

  lemma DestroyGoes(db: Db, id: SandboxId, script: nat -> Choice, k: nat, d: Driven)
    requires d == Drive(db, InRequest(DestroyRead(id)), script, k)
    ensures d == if script(k).fails || id !in db.rows || Doomed(db.rows[id].state).None? then Driven(db, k + 1)
                 else Drive(db, InRequest(DestroyCas(id, db.rows[id], Doomed(db.rows[id].state).value)), script, k + 1)
  {
    var pc := InRequest(DestroyRead(id));
    if script(k).fails || id !in db.rows || Doomed(db.rows[id].state).None? {
      if id in db.rows { DoomedIsTheTable(db.rows[id].state); }
      DriveEnds(db, pc, db, script, k, d);
    } else {
      var row := db.rows[id];
      DoomedIsTheTable(row.state);
      var next := InRequest(DestroyCas(id, row, Doomed(row.state).value));
      DriveStep(db, pc, db, next, script, k, d, Drive(db, next, script, k + 1));
    }
  }

  /** A destroy request moves a row on to destroying, or to destroyed when it has no container, and issues one stop
      command to the row's node with a timeout of a minute; a row that is on its way already is left alone. */
  lemma DestroyOutcome(db: Db, id: SandboxId, script: nat -> Choice, k: nat)
    ensures Drive(db, InRequest(DestroyRead(id)), script, k).db == AfterDestroy(db, id, script, k)
  {
    DriveOnce(db, InRequest(DestroyRead(id)), script, k);
    if !script(k).fails && id in db.rows { DoomedIsTheTable(db.rows[id].state); }
    if !script(k).fails && id in db.rows && Doomed(db.rows[id].state).Some? {
      var row := db.rows[id];
      var to := Doomed(row.state).value;
      assert Resume(InRequest(DestroyRead(id)), GotRow(id, row)) == Some(InRequest(DestroyCas(id, row, to)));
      DriveOnce(db, InRequest(DestroyCas(id, row, to)), script, k + 1);
      MoveThenIssue(db, id, Changed(row, to), StopCmd, row.node, to, script, k + 2);
    }
  }

  // ---------------------------------------------------------------- WakeSandbox, RestartSandbox

  function AfterWake(db: Db, id: SandboxId, script: nat -> Choice, k: nat): Db {
    if script(k).fails || id !in db.rows || db.rows[id].state != Stopped || script(k + 1).fails then db
    else
      var row := db.rows[id];
      Ordered(db.(rows := db.rows[id := Changed(row, Starting)]), id, StartCmd, row.node, 0, row.version + 1, Starting,
              script(k + 2))
  }

  /** Waking moves a stopped row, and no other, to starting and issues one start command to its node. */
  lemma WakeOutcome(db: Db, id: SandboxId, script: nat -> Choice, k: nat)
    ensures Drive(db, InRequest(WakeRead(id)), script, k).db == AfterWake(db, id, script, k)
  {
    DriveOnce(db, InRequest(WakeRead(id)), script, k);
    if !script(k).fails && id in db.rows && db.rows[id].state == Stopped {
      var row := db.rows[id];
      DriveOnce(db, InRequest(WakeCas(id, row)), script, k + 1);
      MoveThenIssue(db, id, Changed(row, Starting), StartCmd, row.node, Starting, script, k + 2);
    }
  }

  lemma WakeGoes(db: Db, id: SandboxId, script: nat -> Choice, k: nat, d: Driven)
    requires d == Drive(db, InRequest(WakeRead(id)), script, k)
    ensures d == if script(k).fails || id !in db.rows || db.rows[id].state != Stopped then Driven(db, k + 1)
                 else Drive(db, InRequest(WakeCas(id, db.rows[id])), script, k + 1)
  {
    var pc := InRequest(WakeRead(id));
    if script(k).fails || id !in db.rows || db.rows[id].state != Stopped {
      DriveEnds(db, pc, db, script, k, d);
    } else {
      var next := InRequest(WakeCas(id, db.rows[id]));
      DriveStep(db, pc, db, next, script, k, d, Drive(db, next, script, k + 1));
    }
  }

  function AfterRestart(db: Db, id: SandboxId, script: nat -> Choice, k: nat): Db {
    if script(k).fails || id !in db.rows || db.rows[id].state != Running then db
    else Ordered(db, id, RestartCmd, db.rows[id].node, 0, db.rows[id].version, Running, script(k + 1))
  }

  /** Restarting issues one restart command to the node of a running row, and moves no row. */
  lemma RestartOutcome(db: Db, id: SandboxId, script: nat -> Choice, k: nat)
    ensures Drive(db, InRequest(RestartRead(id)), script, k).db == AfterRestart(db, id, script, k)
  {
    DriveOnce(db, InRequest(RestartRead(id)), script, k);
    if !script(k).fails && id in db.rows && db.rows[id].state == Running {
      IssueEnds(db, id, RestartCmd, db.rows[id].node, Running, script, k + 1);
    }
  }

  // ---------------------------------------------------------------- the idle reaper

  /** sb is the row as it was listed. */
  function AfterReap(db: Db, id: SandboxId, sb: Row, script: nat -> Choice, k: nat): Db {
    if script(k).fails || id !in db.rows || db.rows[id].state != Running then db
    else
      var row := db.rows[id];
      var stopped := Ordered(db.(rows := db.rows[id := Changed(row, Stopped)]), id, StopCmd, sb.node, 0,
                             row.version + 1, Stopped, script(k + 1));
      if script(k + 2).fails then stopped else stopped.(routes := db.routes - {sb.app})
  }

  lemma UnrouteEnds(db: Db, id: SandboxId, app: string, script: nat -> Choice, k: nat)
    ensures Drive(db, InLoop(ReapUnroute(id, app)), script, k).db
            == if script(k).fails then db else db.(routes := db.routes - {app})
  {
    DriveOnce(db, InLoop(ReapUnroute(id, app)), script, k);
  }

  lemma StopThenUnroute(db: Db, id: SandboxId, sb: Row, script: nat -> Choice, k: nat)
    requires id in db.rows && db.rows[id].state == Stopped
    ensures var stopped := Ordered(db, id, StopCmd, sb.node, 0, db.rows[id].version, Stopped, script(k));
            Drive(db, Issue(StopCmd, id, sb.node, 0, db.rows[id].version, Stopped, Some(sb.app)), script, k).db
            == if script(k + 1).fails then stopped else stopped.(routes := db.routes - {sb.app})
  {
    DriveOnce(db, Issue(StopCmd, id, sb.node, 0, db.rows[id].version, Stopped, Some(sb.app)), script, k);
    IssueCalls(db, id, StopCmd, sb.node, Stopped, Some(sb.app), script(k));
    UnrouteEnds(Ordered(db, id, StopCmd, sb.node, 0, db.rows[id].version, Stopped, script(k)), id, sb.app, script,
                k + 1);
  }

  /** Reaping moves a running row to stopped, issues one stop command to the listed node, and takes the route away even
      if the command could not be issued. */
  lemma ReapOutcome(db: Db, id: SandboxId, sb: Row, script: nat -> Choice, k: nat)
    ensures Drive(db, InLoop(ReapCas(id, sb)), script, k).db == AfterReap(db, id, sb, script, k)
  {
    DriveOnce(db, InLoop(ReapCas(id, sb)), script, k);
    if !script(k).fails && id in db.rows && db.rows[id].state == Running {
      StopThenUnroute(db.(rows := db.rows[id := Changed(db.rows[id], Stopped)]), id, sb, script, k + 1);
    }
  }

  // ---------------------------------------------------------------- a row that somebody else moved first

  /** The handler is about to move a row it has read, or that it has just inserted or sent back. */
  predicate Late(db: Db, pc: Pc) {
    match pc
    case InEvent(EventCas(id, sb, _)) => id !in db.rows || db.rows[id].state != sb.state
    case InRequest(DestroyCas(id, sb, _)) => id !in db.rows || db.rows[id].state != sb.state
    case InRequest(WakeCas(id, sb)) => id !in db.rows || db.rows[id].state != sb.state
    case InLoop(MoveFail(id)) => id !in db.rows || db.rows[id].state != Pending
    case Assign(id, _) => id !in db.rows || db.rows[id].state != Pending
    case _ => false
  }

  /** A handler that comes too late for its move changes nothing and issues nothing. */
  lemma LateChangesNothing(db: Db, pc: Pc, script: nat -> Choice, k: nat)
    requires Late(db, pc)
    ensures Drive(db, pc, script, k).db == db
  {
    DriveOnce(db, pc, script, k);
  }
}
