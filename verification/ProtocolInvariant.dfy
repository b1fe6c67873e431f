/** What every interleaving of the lifecycle handlers keeps, one step at a time. */
module ProtocolInvariant {
  import opened Wrappers
  import opened Models
  import opened Scheduler
  import opened Protocol

  // ---------------------------------------------------------------- the tables

  /** A handler's change is an edge of the table, or the rescheduler giving up on a pending row. */
  predicate Allowed(c: Change) {
    if c.author == ByHandler then IsEdge(c.from, c.to) || (c.from == Pending && c.to == Failed)
    else Sweepable(c.from) && c.to == Destroyed
  }

  /** The changes are allowed one by one and lead from pending to state. */
  predicate Leads(trail: seq<Change>, state: State) {
    if trail == [] then state == Pending
    else
      var last := trail[|trail|-1];
      last.to == state && Allowed(last) && Leads(trail[..|trail|-1], last.from)
  }

  /** The recorded changes explain the row's state, and state_version counts them. */
  predicate GoodTrail(row: Row) {
    && Leads(row.trail, row.state)
    && row.version == if row.trail != [] && row.trail[|row.trail|-1].author == ByReconciler
                      then |row.trail| - 1 else |row.trail|
  }

  predicate RowOk(row: Row) {
    && GoodTrail(row)
    && (row.node.None? ==> row.state == Pending || row.state == Destroyed)
  }

  /** How a row may evolve. At one state_version a row has one state, short of being swept. */
  predicate RowGrows(a: Row, b: Row) {
    && a.app == b.app && a.trail <= b.trail
    && a.version <= b.version
    && (a.version == b.version ==> b.state == a.state || b.state == Destroyed)
    && (a.state == Destroyed ==> b.state == Destroyed)
    && (a.node.Some? ==> b.node.Some?)
  }

  ghost predicate RowsGrow(a: map<SandboxId, Row>, born: set<SandboxId>, b: map<SandboxId, Row>) {
    forall id | id in b && id in born :: id in a && RowGrows(a[id], b[id])
  }

  predicate SameOrder(a: Cmd, b: Cmd) {
    a.kind == b.kind && a.sandbox == b.sandbox && a.entered == b.entered && a.goal == b.goal
  }

  ghost predicate CmdsGrow(a: map<CmdId, Cmd>, b: map<CmdId, Cmd>) {
    forall c | c in a :: c in b && SameOrder(a[c], b[c])
  }

  ghost predicate Grows(a: Db, b: Db) {
    && a.born <= b.born && a.lost <= b.lost
    && CmdsGrow(a.cmds, b.cmds)
    && RowsGrow(a.rows, a.born, b.rows)
  }

  /** The row was in state goal at version entered, and still is while it has that version. */
  predicate Stamped(row: Row, entered: nat, goal: State) {
    entered <= row.version && (row.version == entered ==> row.state == goal || row.state == Destroyed)
  }

  predicate KindFits(kind: CmdKind, goal: State) {
    (kind == StartCmd <==> goal == Starting) && (goal == Destroying ==> kind == StopCmd)
  }

  /** The row has left the critical state this command was issued for. */
  predicate Resolved(rows: map<SandboxId, Row>, born: set<SandboxId>, cmd: Cmd) {
    && cmd.sandbox in born
    && (Critical(cmd.goal) && cmd.sandbox in rows ==>
          cmd.entered < rows[cmd.sandbox].version || rows[cmd.sandbox].state == Destroyed)
  }

  predicate CmdOk(rows: map<SandboxId, Row>, born: set<SandboxId>, lost: set<SandboxId>, cmd: Cmd) {
    && cmd.sandbox in rows && cmd.sandbox in born
    && Stamped(rows[cmd.sandbox], cmd.entered, cmd.goal)
    && KindFits(cmd.kind, cmd.goal)
    && (!cmd.Unacked() ==> Resolved(rows, born, cmd) || cmd.sandbox in lost)
  }

  ghost predicate CmdsOk(rows: map<SandboxId, Row>, born: set<SandboxId>, lost: set<SandboxId>,
                         cmds: map<CmdId, Cmd>) {
    forall c | c in cmds :: CmdOk(rows, born, lost, cmds[c])
  }

  ghost predicate RowsOk(rows: map<SandboxId, Row>, born: set<SandboxId>) {
    forall id | id in rows :: id in born && RowOk(rows[id])
  }

  /** app_name is a unique key. */
  ghost predicate IndexOk(rows: map<SandboxId, Row>, apps: map<string, SandboxId>) {
    && (forall id | id in rows :: rows[id].app in apps && apps[rows[id].app] == id)
    && (forall app | app in apps :: apps[app] in rows && rows[apps[app]].app == app)
  }

  ghost predicate DbOk(db: Db) {
    && RowsOk(db.rows, db.born)
    && IndexOk(db.rows, db.apps)
    && CmdsOk(db.rows, db.born, db.lost, db.cmds)
  }

  // ---------------------------------------------------------------- the handlers

  predicate HasNode(db: Db, id: SandboxId) {
    id in db.born && (id in db.rows ==> db.rows[id].node.Some?)
  }

  predicate CmdIs(db: Db, c: CmdId, id: SandboxId) { c in db.cmds && db.cmds[c].sandbox == id }

  predicate Settles(db: Db, c: CmdId)
    requires c in db.cmds
  {
    Resolved(db.rows, db.born, db.cmds[c])
  }

  predicate AckMeans(event: Event, to: State) {
    (event == EvStarted || event == EvStartFailed || event == EvDestroyed) && to == Target(event)
  }

  predicate AckOk(db: Db, pc: AckPc) {
    && CmdIs(db, pc.cmd, pc.id)
    && match pc
       case AckRead(c, _, kind, _, _) => db.cmds[c].kind == kind
       case AckCas(c, _, sb, event, to, _) =>
         && AckMeans(event, to) && NextState(sb.state, event) == Some(to)
         && (Settles(db, c) || sb.state == db.cmds[c].goal)
       case AckRefresh(c, _, event, to, _) => AckMeans(event, to) && Settles(db, c)
       case AckFinish(c, _, status) => Settles(db, c) || BadAck(db.cmds[c].kind, status)
       case _ => Settles(db, pc.cmd)
  }

  /** A crash is only ever handled with a row that was read running and had a node. */
  predicate Crashed(db: Db, id: SandboxId, sb: Row) {
    id in db.born && sb.state == Running && sb.node.Some?
  }

  predicate EventOk(db: Db, pc: EventPc) {
    match pc
    case EventRead(_, event) => event == EvStarted || event == EvContainerExited
    case EventCas(_, sb, to) =>
      && (NextState(sb.state, EvStarted) == Some(to) || NextState(sb.state, EvContainerExited) == Some(to))
      && (sb.state == Running ==> sb.node.Some?)
    case CrashRestart(id, sb, count) => Crashed(db, id, sb) && 1 <= count <= MAX_RESTART_ATTEMPTS
    case _ => Crashed(db, pc.id, pc.sb)
  }

  predicate RequestOk(pc: RequestPc) {
    match pc
    case DestroyCas(_, sb, to) =>
      NextState(sb.state, EvDestroyRequest) == Some(to) && (to == Destroying ==> sb.node.Some?)
    case WakeCas(_, sb) => sb.state == Stopped && sb.node.Some?
    case _ => true
  }

  predicate LoopOk(db: Db, pc: LoopPc) {
    pc.ReapCas? || pc.ReapUnroute? || HasNode(db, pc.id)
  }

  predicate IssueOk(db: Db, kind: CmdKind, id: SandboxId, node: Option<NodeId>, entered: nat, goal: State) {
    && id in db.born && KindFits(kind, goal) && (Critical(goal) ==> node.Some?)
    && (id in db.rows ==> Stamped(db.rows[id], entered, goal))
  }

  /** What a handler may rely on between its calls, whatever the others do. */
  predicate PcOk(db: Db, pc: Pc) {
    match pc
    case InAck(ack) => AckOk(db, ack)
    case InEvent(event) => EventOk(db, event)
    case InRequest(request) => RequestOk(request)
    case InLoop(loop) => LoopOk(db, loop)
    case Issue(kind, id, node, _, entered, goal, _) => IssueOk(db, kind, id, node, entered, goal)
    case _ => true
  }

  /** The sandbox whose crash this handler has claimed and not yet turned into a restart. */
  function Claim(pc: Pc): Option<SandboxId> {
    if pc.InEvent? && !pc.event.EventRead? && !pc.event.EventCas? then Some(pc.event.id) else None
  }

  predicate Claimable(state: State) { state == Restarting || state == Destroying || state == Destroyed }

  /** A claimed row has not left restarting except to be destroyed, and is claimed only once. */
  ghost predicate ClaimsOk(s: Sys) {
    && (forall t | t in s.threads && Claim(s.threads[t]).Some? ::
          Claim(s.threads[t]).value in s.db.rows ==>
            Claimable(s.db.rows[Claim(s.threads[t]).value].state))
    && (forall t, u | t in s.threads && u in s.threads && Claim(s.threads[t]).Some?
          && Claim(s.threads[t]) == Claim(s.threads[u]) :: t == u)
  }

  predicate Awaits(cmd: Cmd, id: SandboxId, row: Row) {
    cmd.sandbox == id && cmd.entered == row.version && cmd.goal == row.state && cmd.Unacked()
  }

  predicate AboutToIssue(pc: Pc, id: SandboxId, row: Row) {
    pc.Issue? && pc.id == id && pc.entered == row.version && pc.goal == row.state
  }

  /** Somebody will move row id on: an unacknowledged command, or a handler about to issue one. */
  ghost predicate Covered(s: Sys, id: SandboxId)
    requires id in s.db.rows
  {
    || id in s.db.lost
    || (exists c :: c in s.db.cmds && Awaits(s.db.cmds[c], id, s.db.rows[id]))
    || (exists t :: t in s.threads && AboutToIssue(s.threads[t], id, s.db.rows[id]))
  }

  ghost predicate NoOrphans(s: Sys) {
    forall id | id in s.db.rows && Critical(s.db.rows[id].state) :: Covered(s, id)
  }

  ghost predicate Inv(s: Sys) {
    && DbOk(s.db)
    && (forall t | t in s.threads :: PcOk(s.db, s.threads[t]))
    && ClaimsOk(s)
    && NoOrphans(s)
  }

  // ---------------------------------------------------------------- growth

  lemma GrowsTransitive(a: Db, b: Db, c: Db)
    requires Grows(a, b) && Grows(b, c)
    ensures Grows(a, c)
  {
  }

  /** Every fact a handler relies on survives what the others do. */
  lemma PcOkStable(a: Db, b: Db, pc: Pc)
    requires Grows(a, b) && PcOk(a, pc)
    ensures PcOk(b, pc)
  {
    if pc.InAck? {
      AckOkStable(a, b, pc.ack);
    }
  }

  lemma AckOkStable(a: Db, b: Db, pc: AckPc)
    requires Grows(a, b) && AckOk(a, pc)
    ensures AckOk(b, pc)
  {
    assert Settles(a, pc.cmd) ==> Settles(b, pc.cmd);
  }

  lemma MoveKeepsTrail(row: Row, to: State, author: Author)
    requires GoodTrail(row) && row.state != Destroyed && Allowed(Change(row.state, to, author))
    ensures GoodTrail(row.Move(to, author))
  {
    assert row.Move(to, author).trail[..|row.trail|] == row.trail;
  }

  lemma MoveOk(row: Row, to: State, author: Author)
    requires RowOk(row) && row.state != Destroyed && Allowed(Change(row.state, to, author))
    requires row.node.None? ==> to == Pending || to == Destroyed
    ensures RowOk(row.Move(to, author)) && RowGrows(row, row.Move(to, author))
  {
    MoveKeepsTrail(row, to, author);
  }

  lemma CmdsOkStable(a: Db, b: Db)
    requires CmdsOk(a.rows, a.born, a.lost, a.cmds) && RowsGrow(a.rows, a.born, b.rows)
    requires a.born <= b.born && a.lost <= b.lost
    requires forall c | c in a.cmds :: a.cmds[c].sandbox in b.rows
    ensures CmdsOk(b.rows, b.born, b.lost, a.cmds)
  {
    forall c | c in a.cmds ensures CmdOk(b.rows, b.born, b.lost, a.cmds[c]) {
      assert CmdOk(a.rows, a.born, a.lost, a.cmds[c]);
    }
  }

  /** Replacing a row by one it may evolve into. */
  lemma PutRowOk(db: Db, id: SandboxId, row: Row)
    requires DbOk(db) && id in db.rows && RowGrows(db.rows[id], row) && RowOk(row)
    ensures Grows(db, PutRow(db, id, row)) && DbOk(PutRow(db, id, row))
  {
    var db' := PutRow(db, id, row);
    assert RowsGrow(db.rows, db.born, db'.rows);
    forall c | c in db.cmds ensures db.cmds[c].sandbox in db'.rows {
      assert CmdOk(db.rows, db.born, db.lost, db.cmds[c]);
    }
    CmdsOkStable(db, db');
  }

  // ---------------------------------------------------------------- one call

  lemma CasKeeps(db: Db, id: SandboxId, from: State, to: State)
    requires DbOk(db)
    requires id in db.rows && db.rows[id].state == from ==>
               && from != Destroyed && Allowed(Change(from, to, ByHandler))
               && (db.rows[id].node.None? ==> to == Pending || to == Destroyed)
    ensures Grows(db, DoCas(db, id, from, to).db) && DbOk(DoCas(db, id, from, to).db)
  {
    if id in db.rows && db.rows[id].state == from {
      MoveOk(db.rows[id], to, ByHandler);
      PutRowOk(db, id, db.rows[id].Move(to, ByHandler));
    }
  }

  lemma AssignKeeps(db: Db, id: SandboxId, node: NodeId)
    requires DbOk(db)
    ensures Grows(db, DoAssign(db, id, node).db) && DbOk(DoAssign(db, id, node).db)
  {
    if id in db.rows && db.rows[id].state == Pending {
      MoveKeepsTrail(db.rows[id], Starting, ByHandler);
      PutRowOk(db, id, DoAssign(db, id, node).reply.row);
    }
  }

  /** Rewriting columns the protocol does not depend on. */
  lemma PatchKeeps(db: Db, id: SandboxId, row: Row)
    requires DbOk(db) && id in db.rows
    requires row == db.rows[id].(failures := row.failures, restarts := row.restarts,
                                 container := row.container, port := row.port)
    ensures Grows(db, PutRow(db, id, row)) && DbOk(PutRow(db, id, row))
  {
    assert RowOk(db.rows[id]);
    PutRowOk(db, id, row);
  }

  lemma LosingKeeps(db: Db, lost: set<SandboxId>)
    requires DbOk(db) && db.lost <= lost
    ensures Grows(db, db.(lost := lost)) && DbOk(db.(lost := lost))
  {
    forall c | c in db.cmds ensures db.cmds[c].sandbox in db.rows {
      assert CmdOk(db.rows, db.born, db.lost, db.cmds[c]);
    }
    CmdsOkStable(db, db.(lost := lost));
  }

  lemma PutCmdOk(db: Db, c: CmdId, cmd: Cmd)
    requires DbOk(db) && CmdOk(db.rows, db.born, db.lost, cmd)
    requires c in db.cmds ==> SameOrder(db.cmds[c], cmd)
    ensures Grows(db, db.(cmds := db.cmds[c := cmd])) && DbOk(db.(cmds := db.cmds[c := cmd]))
  {
  }

  lemma PatchAndPutCmdOk(db: Db, id: SandboxId, row: Row, c: CmdId, cmd: Cmd)
    requires DbOk(db) && id in db.rows && c !in db.cmds
    requires row == db.rows[id].(restarts := row.restarts)
    requires cmd.sandbox == id && cmd.Unacked() && KindFits(cmd.kind, cmd.goal)
    requires Stamped(db.rows[id], cmd.entered, cmd.goal)
    ensures var db' := PutRow(db, id, row).(cmds := db.cmds[c := cmd]); Grows(db, db') && DbOk(db')
  {
    var mid := PutRow(db, id, row);
    PatchKeeps(db, id, row);
    PutCmdOk(mid, c, cmd);
    GrowsTransitive(db, mid, mid.(cmds := mid.cmds[c := cmd]));
  }

  lemma CreateKeeps(db: Db, c: CmdId, kind: CmdKind, id: SandboxId, target: Option<NodeId>, delay: nat,
                    entered: nat, goal: State)
    requires DbOk(db) && KindFits(kind, goal)
    requires id in db.rows ==> Stamped(db.rows[id], entered, goal)
    ensures var db' := DoCreate(db, c, kind, id, target, delay, entered, goal).db;
            Grows(db, db') && DbOk(db')
  {
    if id in db.rows && target.Some? && c !in db.cmds {
      var prior := db.rows[id];
      PatchAndPutCmdOk(db, id, if delay > 0 then prior.(restarts := prior.restarts + [delay]) else prior, c,
                       Cmd(kind, target.value, id, Queued, delay, 60 + delay, entered, goal));
    }
  }

  lemma FinishKeeps(db: Db, c: CmdId, status: AckStatus)
    requires DbOk(db)
    requires c in db.cmds ==> Settles(db, c) || BadAck(db.cmds[c].kind, status)
    ensures Grows(db, DoFinish(db, c, status).db) && DbOk(DoFinish(db, c, status).db)
  {
    var o := DoFinish(db, c, status);
    if c in db.cmds {
      var mid := db.(lost := o.db.lost);
      LosingKeeps(db, o.db.lost);
      assert CmdOk(mid.rows, mid.born, mid.lost, mid.cmds[c]);
      PutCmdOk(mid, c, o.db.cmds[c]);
      GrowsTransitive(db, mid, o.db);
    }
  }

  lemma IndexWithout(rows: map<SandboxId, Row>, apps: map<string, SandboxId>, id: SandboxId)
    requires IndexOk(rows, apps) && id in rows
    ensures IndexOk(rows - {id}, apps - {rows[id].app})
  {
    var app := rows[id].app;
    forall i | i in rows - {id} ensures rows[i].app in apps - {app} && apps[rows[i].app] == i {
      assert apps[rows[i].app] == i && apps[app] == id;
    }
    forall a | a in apps - {app} ensures apps[a] in rows - {id} && rows[apps[a]].app == a {
      assert rows[apps[a]].app == a;
    }
  }

  lemma IndexWith(rows: map<SandboxId, Row>, apps: map<string, SandboxId>, id: SandboxId, row: Row)
    requires IndexOk(rows, apps) && id !in rows && row.app !in apps
    ensures IndexOk(rows[id := row], apps[row.app := id])
  {
    var rows', apps' := rows[id := row], apps[row.app := id];
    forall i | i in rows' ensures rows'[i].app in apps' && apps'[rows'[i].app] == i {
      assert i != id ==> rows[i].app in apps && apps[rows[i].app] == i;
    }
    forall a | a in apps' ensures apps'[a] in rows' && rows'[apps'[a]].app == a {
      assert a != row.app ==> apps[a] in rows && rows[apps[a]].app == a;
    }
  }

  lemma DeleteKeeps(db: Db, id: SandboxId)
    requires DbOk(db)
    ensures var db' := DoDelete(db, id).db; Grows(db, db') && DbOk(db')
  {
    if id in db.rows && !exists c | c in db.cmds :: db.cmds[c].sandbox == id {
      var db' := db.(rows := db.rows - {id}, apps := db.apps - {db.rows[id].app});
      IndexWithout(db.rows, db.apps, id);
      assert RowsGrow(db.rows, db.born, db'.rows);
      forall c | c in db.cmds ensures db.cmds[c].sandbox in db'.rows {
        assert CmdOk(db.rows, db.born, db.lost, db.cmds[c]);
      }
      CmdsOkStable(db, db');
    }
  }

  lemma InsertKeeps(db: Db, id: SandboxId, app: string, memoryMB: int)
    requires DbOk(db)
    ensures var db' := DoInsert(db, id, app, memoryMB).db; Grows(db, db') && DbOk(db')
  {
    if app !in db.apps && id !in db.born && id !in db.rows {
      var row := Row(app, memoryMB, None, None, None, Pending, 0, 0, [], []);
      var db' := db.(rows := db.rows[id := row], apps := db.apps[app := id], born := db.born + {id});
      IndexWith(db.rows, db.apps, id, row);
      assert RowsGrow(db.rows, db.born, db'.rows);
      forall c | c in db.cmds ensures db.cmds[c].sandbox in db'.rows {
        assert CmdOk(db.rows, db.born, db.lost, db.cmds[c]);
      }
      CmdsOkStable(db, db');
    }
  }
}
