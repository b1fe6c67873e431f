/** With handlers run one at a time, the route index agrees with the rows. */
module AtomicRoutes {
  import opened Wrappers
  import opened Models
  import opened Scheduler
  import opened Protocol
  import opened ProtocolInvariant
  import opened ProtocolSteps

  /** The row's last change is a sweep's. */
  predicate Swept(row: Row) {
    row.state == Destroyed && row.trail != [] && row.trail[|row.trail| - 1].author != ByHandler
  }

  /** A row in this state may have a route: it got it while running, and it was not taken away since. */
  predicate Routable(row: Row) { row.state == Running || row.state == Destroying || Swept(row) }

  /** The route of app names a row of that app that is running, destroying or was swept, its node and its
      current port. */
  predicate RouteFits(db: Db, app: string)
    requires app in db.routes
  {
    && app in db.apps && db.apps[app] == db.routes[app].sandbox && db.routes[app].sandbox in db.rows
    && (var row := db.rows[db.routes[app].sandbox];
        Routable(row) && row.node == Some(db.routes[app].node) && row.port == Some(db.routes[app].port))
  }

  ghost predicate Commanded(db: Db, id: SandboxId) { exists c | c in db.cmds :: db.cmds[c].sandbox == id }

  /** A routed row has had a command, so it cannot be deleted. */
  ghost predicate Referenced(db: Db) { forall app | app in db.routes :: Commanded(db, db.routes[app].sandbox) }

  ghost predicate RoutesBut(db: Db, but: Option<string>) {
    (forall app | app in db.routes && but != Some(app) :: RouteFits(db, app)) && Referenced(db)
  }

  ghost predicate RoutesOk(db: Db) { RoutesBut(db, None) }

  /** An acknowledgement that names a container also names its port. */
  predicate PortCarried(info: Runtime) { info.container != "" ==> info.port != 0 }

  /** The row is running and its app has a route. */
  predicate RunningRouted(db: Db, id: SandboxId) {
    id in db.rows && db.rows[id].state == Running && db.rows[id].app in db.routes
  }

  predicate AppOf(db: Db, id: SandboxId, app: string) { id in db.rows ==> db.rows[id].app == app }

  /** App's route is about to be removed, because its row has left running. */
  ghost predicate Leaving(db: Db, app: string) {
    RoutesBut(db, Some(app)) && (app in db.apps && db.apps[app] in db.rows ==> db.rows[db.apps[app]].state != Running)
  }

  /** The row's port may just have changed under its route. */
  ghost predicate Rerouting(db: Db, id: SandboxId) {
    && id in db.rows && db.rows[id].state == Running
    && RoutesBut(db, Some(db.rows[id].app)) && (db.rows[id].port.None? ==> RoutesOk(db))
  }

  ghost predicate MidAck(db: Db, pc: AckPc) {
    match pc
    case AckRead(_, id, kind, status, info) =>
      RoutesOk(db) && (kind == StartCmd && status == AckSuccess ==> PortCarried(info) || !RunningRouted(db, id))
    case AckCas(_, id, sb, _, _, _) => RoutesOk(db) && id in db.rows && db.rows[id] == sb
    case AckRefresh(_, _, _, _, _) => false
    case AckPersist(_, id, _, info) =>
      RoutesOk(db) && (info.port != 0 || !RunningRouted(db, id)) && id in db.rows && db.rows[id].state == Running
    case AckRefetch(_, id, _) => Rerouting(db, id)
    case AckRoute(_, id, sb) => Rerouting(db, id) && sb == db.rows[id]
    case AckUnroute(_, _, app) => Leaving(db, app)
    case _ => RoutesOk(db)
  }

  ghost predicate MidEvent(db: Db, pc: EventPc) {
    match pc
    case EventRead(_, _) => RoutesOk(db)
    case EventCas(id, sb, _) => RoutesOk(db) && AppOf(db, id, sb.app)
    case EventUnroute(_, sb) => Leaving(db, sb.app)
    case _ => RoutesOk(db)
  }

  ghost predicate MidLoop(db: Db, pc: LoopPc) {
    match pc
    case ReapCas(id, sb) => RoutesOk(db) && AppOf(db, id, sb.app)
    case ReapUnroute(_, app) => Leaving(db, app)
    case MoveCas(id, sb) => RoutesOk(db) && AppOf(db, id, sb.app)
    case MoveUnroute(_, sb) => Leaving(db, sb.app)
    case _ => RoutesOk(db)
  }

  /** How far the route index may lag behind the rows while handler pc is under way. */
  ghost predicate Mid(db: Db, pc: Pc) {
    match pc
    case InCreate(create) =>
      && RoutesOk(db)
      && (create.CreateDelete? && create.prior in db.rows ==>
            db.rows[create.prior].state == Destroyed || db.rows[create.prior].state == Failed)
    case InAck(ack) => MidAck(db, ack)
    case InEvent(event) => MidEvent(db, event)
    case InRequest(_) => RoutesOk(db)
    case InLoop(loop) => MidLoop(db, loop)
    case Assign(_, _) => RoutesOk(db)
    case Issue(_, _, _, _, _, _, unroute) =>
      if unroute.Some? then Leaving(db, unroute.value) else RoutesOk(db)
  }

  ghost predicate MidNext(db: Db, next: Option<Pc>) {
    if next.None? then RoutesOk(db) else Mid(db, next.value)
  }

  // ---------------------------------------------------------------- how the calls act on the index

  lemma StillReferenced(a: Db, b: Db)
    requires Referenced(a) && (forall app | app in b.routes :: app in a.routes && b.routes[app] == a.routes[app])
    requires forall c | c in a.cmds :: c in b.cmds && b.cmds[c].sandbox == a.cmds[c].sandbox
    ensures Referenced(b)
  {
    forall app | app in b.routes ensures Commanded(b, b.routes[app].sandbox) {
      var c :| c in a.cmds && a.cmds[c].sandbox == a.routes[app].sandbox;
      assert c in b.cmds && b.cmds[c].sandbox == b.routes[app].sandbox;
    }
  }

  /** Changing a row only concerns the route of its own app. */
  lemma RowChangeRoutes(a: Db, b: Db, id: SandboxId)
    requires IndexOk(a.rows, a.apps) && RoutesOk(a) && id in a.rows
    requires b.routes == a.routes && b.apps == a.apps && b.cmds == a.cmds
    requires id in b.rows && b.rows == a.rows[id := b.rows[id]] && b.rows[id].app == a.rows[id].app
    ensures RoutesBut(b, Some(a.rows[id].app))
    ensures !Routable(a.rows[id]) ==> a.rows[id].app !in a.routes && RoutesOk(b)
    ensures Routable(b.rows[id]) && b.rows[id].node == a.rows[id].node && b.rows[id].port == a.rows[id].port
            ==> RoutesOk(b)
  {
    StillReferenced(a, b);
    forall app | app in b.routes && app != a.rows[id].app ensures RouteFits(b, app) {
      assert RouteFits(a, app);
    }
    if a.rows[id].app in b.routes { assert RouteFits(a, a.rows[id].app); }
  }

  /** A row change that leaves running, then the removal of the route. */
  lemma UnroutedOk(db: Db, app: string)
    requires RoutesBut(db, Some(app))
    ensures RoutesOk(db.(routes := db.routes - {app}))
  {
    var b := db.(routes := db.routes - {app});
    StillReferenced(db, b);
    forall x | x in b.routes ensures RouteFits(b, x) { assert RouteFits(db, x); }
  }

  lemma ReroutedOk(db: Db, id: SandboxId)
    requires IndexOk(db.rows, db.apps) && Rerouting(db, id) && db.rows[id].node.Some? && db.rows[id].port.Some?
    requires Commanded(db, id)
    ensures var row := db.rows[id];
            RoutesOk(db.(routes := db.routes[row.app := Route(id, row.node.value, row.port.value)]))
  {
    var row := db.rows[id];
    var b := db.(routes := db.routes[row.app := Route(id, row.node.value, row.port.value)]);
    forall x | x in b.routes ensures RouteFits(b, x) && Commanded(b, b.routes[x].sandbox) {
      if x == row.app {
        var c :| c in db.cmds && db.cmds[c].sandbox == id;
        assert c in b.cmds;
      } else {
        assert RouteFits(db, x) && Commanded(db, db.routes[x].sandbox);
        var c :| c in db.cmds && db.cmds[c].sandbox == db.routes[x].sandbox;
        assert c in b.cmds;
      }
    }
  }

  /** A destroyed row that still has its route has had a command, so the delete fails. */
  lemma DeletedRoutes(db: Db, id: SandboxId)
    requires IndexOk(db.rows, db.apps) && RoutesOk(db)
    requires id in db.rows ==> db.rows[id].state == Destroyed || db.rows[id].state == Failed
    ensures RoutesOk(DoDelete(db, id).db)
  {
    var b := DoDelete(db, id).db;
    if b != db {
      StillReferenced(db, b);
      forall x | x in b.routes ensures RouteFits(b, x) {
        assert RouteFits(db, x) && Commanded(db, db.routes[x].sandbox);
      }
    }
  }

  lemma InsertedRoutes(db: Db, id: SandboxId, app: string, memoryMB: int)
    requires IndexOk(db.rows, db.apps) && RoutesOk(db)
    ensures RoutesOk(DoInsert(db, id, app, memoryMB).db)
  {
    var b := DoInsert(db, id, app, memoryMB).db;
    StillReferenced(db, b);
    forall x | x in b.routes ensures RouteFits(b, x) { assert RouteFits(db, x); }
  }

  // ---------------------------------------------------------------- the handlers

  /** What holds around a handler that runs alone. */
  ghost predicate Alone(db: Db, pc: Pc) {
    DbOk(db) && PcOk(db, pc) && ClaimHolds(db, pc) && Mid(db, pc)
  }

  lemma LookupMid(db: Db, pc: CreatePc, ch: Choice)
    requires Alone(db, InCreate(pc)) && !ch.fails && pc.CreateLookup?
    ensures var o := Do(db, CreateCall(pc), ch); MidNext(o.db, CreateResume(pc, o.reply))
  {
  }

  lemma CreateMid(db: Db, pc: CreatePc, ch: Choice)
    requires Alone(db, InCreate(pc)) && !ch.fails
    ensures var o := Do(db, CreateCall(pc), ch); MidNext(o.db, CreateResume(pc, o.reply))
  {
    match pc {
      case CreateLookup(_, _, _) => LookupMid(db, pc, ch);
      case CreateDelete(_, _, _, prior) => DeletedRoutes(db, prior);
      case CreateInsert(app, memoryMB, id) => InsertedRoutes(db, id, app, memoryMB);
      case CreatePlace(_, _) =>
    }
  }

  lemma AckCasMid(db: Db, pc: AckPc)
    requires Alone(db, InAck(pc)) && pc.AckCas?
    ensures var o := DoCas(db, pc.id, pc.sb.state, pc.to);
            && o.reply.GotRow?
            && MidAck(o.db, Settled(pc.cmd, pc.id, pc.sb, pc.event, pc.info))
  {
    var db' := PutRow(db, pc.id, pc.sb.Move(pc.to, ByHandler));
    AckSource(pc.sb, pc.event, pc.to);
    RowChangeRoutes(db, db', pc.id);
    if pc.event == EvStarted {
      AckStartedMid(db', pc);
    } else if pc.event == EvDestroyed {
      AckGoneMid(db, db', pc);
    }
  }

  lemma AckSource(sb: Row, event: Event, to: State)
    requires AckMeans(event, to) && NextState(sb.state, event) == Some(to)
    ensures event == EvDestroyed || !Routable(sb)
    ensures event == EvDestroyed ==> to == Destroyed
    ensures event == EvStarted ==> to == Running
  {
  }

  /** The row has just entered running, and had no route in the state it left. */
  lemma AckStartedMid(db: Db, pc: AckPc)
    requires RoutesOk(db) && pc.AckCas? && pc.event == EvStarted && pc.id in db.rows
    requires db.rows[pc.id].state == Running && db.rows[pc.id].app !in db.routes
    ensures MidAck(db, Settled(pc.cmd, pc.id, pc.sb, pc.event, pc.info))
  {
  }

  lemma AckGoneMid(db: Db, db': Db, pc: AckPc)
    requires IndexOk(db.rows, db.apps) && pc.AckCas? && pc.event == EvDestroyed
    requires pc.id in db.rows && db.rows[pc.id] == pc.sb && pc.to == Destroyed
    requires db' == PutRow(db, pc.id, pc.sb.Move(pc.to, ByHandler)) && RoutesBut(db', Some(pc.sb.app))
    ensures MidAck(db', Settled(pc.cmd, pc.id, pc.sb, pc.event, pc.info))
  {
  }

  lemma AckPersistMid(db: Db, pc: AckPc, ch: Choice)
    requires Alone(db, InAck(pc)) && !ch.fails && pc.AckPersist?
    ensures Rerouting(Do(db, AckCall(pc), ch).db, pc.id)
  {
    RowChangeRoutes(db, Do(db, AckCall(pc), ch).db, pc.id);
  }

  lemma AckRerouteMid(db: Db, pc: AckPc, ch: Choice)
    requires DbOk(db) && MidAck(db, pc) && CmdIs(db, pc.cmd, pc.id) && !ch.fails && pc.AckRoute?
    ensures RoutesOk(Do(db, AckCall(pc), ch).db)
  {
    assert RowOk(db.rows[pc.id]);
    assert Commanded(db, pc.id);
    if pc.sb.port.Some? { ReroutedOk(db, pc.id); }
  }

  lemma AckRouteMid(db: Db, pc: AckPc, ch: Choice)
    requires Alone(db, InAck(pc)) && !ch.fails && (pc.AckPersist? || pc.AckRefetch? || pc.AckRoute?)
    ensures var o := Do(db, AckCall(pc), ch);
            AckResume(pc, o.reply).Some? && MidAck(o.db, AckResume(pc, o.reply).value)
  {
    if pc.AckPersist? {
      AckPersistMid(db, pc, ch);
    } else if pc.AckRoute? {
      AckRerouteMid(db, pc, ch);
    }
  }

  /** The read row is already at the target state. */
  lemma AckReadSettled(db: Db, pc: AckPc, event: Event)
    requires Alone(db, InAck(pc)) && pc.AckRead? && pc.id in db.rows
    requires AckEvent(pc.kind, pc.status, db.rows[pc.id].state) == Some(event)
    requires NextState(db.rows[pc.id].state, event).None? && db.rows[pc.id].state == Target(event)
    ensures MidAck(db, Settled(pc.cmd, pc.id, db.rows[pc.id], event, pc.info))
  {
  }

  lemma AckReadMid(db: Db, pc: AckPc, ch: Choice)
    requires Alone(db, InAck(pc)) && !ch.fails && pc.AckRead?
    ensures var o := Do(db, AckCall(pc), ch); var next := AckResume(pc, o.reply);
            o.db == db && (next.Some? ==> MidAck(db, next.value))
  {
    if pc.id in db.rows {
      var sb := db.rows[pc.id];
      var event := AckEvent(pc.kind, pc.status, sb.state);
      if event.Some? && NextState(sb.state, event.value).None? && sb.state == Target(event.value) {
        AckReadSettled(db, pc, event.value);
      }
    }
  }

  lemma SameRoutes(a: Db, b: Db, but: Option<string>)
    requires a.routes == b.routes && a.apps == b.apps && RoutesBut(a, but)
    requires forall id | id in a.rows :: id in b.rows && b.rows[id].state == a.rows[id].state
                                     && b.rows[id].trail == a.rows[id].trail
                                     && b.rows[id].node == a.rows[id].node && b.rows[id].port == a.rows[id].port
    requires forall c | c in a.cmds :: c in b.cmds && b.cmds[c].sandbox == a.cmds[c].sandbox
    ensures RoutesBut(b, but)
  {
    StillReferenced(a, b);
    forall x | x in b.routes && but != Some(x) ensures RouteFits(b, x) { assert RouteFits(a, x); }
  }

  lemma PatchedRoutes(db: Db, id: SandboxId, row: Row, but: Option<string>)
    requires RoutesBut(db, but) && id in db.rows
    requires row.state == db.rows[id].state && row.node == db.rows[id].node && row.port == db.rows[id].port
    requires row.trail == db.rows[id].trail
    ensures RoutesBut(PutRow(db, id, row), but)
  {
    SameRoutes(db, PutRow(db, id, row), but);
  }

  lemma ResetMid(db: Db, id: SandboxId)
    requires RoutesOk(db)
    ensures RoutesOk(DoReset(db, id).db) && RoutesOk(DoIncrement(db, id).db)
  {
    if id in db.rows {
      PatchedRoutes(db, id, db.rows[id].(failures := 0, restarts := []), None);
      PatchedRoutes(db, id, db.rows[id].(failures := db.rows[id].failures + 1), None);
    }
  }

  lemma FinishMid(db: Db, c: CmdId, status: AckStatus)
    requires RoutesOk(db)
    ensures RoutesOk(DoFinish(db, c, status).db)
  {
    SameRoutes(db, DoFinish(db, c, status).db, None);
  }

  lemma AckEndMid(db: Db, pc: AckPc, ch: Choice)
    requires MidAck(db, pc) && !ch.fails && (pc.AckReset? || pc.AckUnroute? || pc.AckFinish?)
    ensures var o := Do(db, AckCall(pc), ch); RoutesOk(o.db)
  {
    match pc {
      case AckUnroute(_, _, app) => UnroutedOk(db, app);
      case AckReset(_, id) => ResetMid(db, id);
      case AckFinish(c, _, status) => FinishMid(db, c, status);
    }
  }

  /** How an acknowledgement continues, as the handler's next step. */
  lemma AckNextMid(db: Db, pc: AckPc, reply: Reply)
    requires var next := AckResume(pc, reply); if next.None? then RoutesOk(db) else MidAck(db, next.value)
    ensures MidNext(db, Resume(InAck(pc), reply))
  {
  }

  lemma AckCasStepMid(db: Db, pc: AckPc, ch: Choice)
    requires Alone(db, InAck(pc)) && !ch.fails && pc.AckCas?
    ensures var o := Do(db, AckCall(pc), ch); var next := AckResume(pc, o.reply);
            next.Some? && MidAck(o.db, next.value)
  {
    AckCasMid(db, pc);
  }

  lemma AckLaterMid(db: Db, pc: AckPc, ch: Choice)
    requires Alone(db, InAck(pc)) && !ch.fails && !pc.AckRead? && !pc.AckCas?
    ensures var o := Do(db, AckCall(pc), ch); var next := AckResume(pc, o.reply);
            if next.None? then RoutesOk(o.db) else MidAck(o.db, next.value)
  {
    if pc.AckPersist? || pc.AckRefetch? || pc.AckRoute? {
      AckRouteMid(db, pc, ch);
    } else {
      AckEndMid(db, pc, ch);
    }
  }

  lemma AckMid(db: Db, pc: AckPc, ch: Choice)
    requires Alone(db, InAck(pc)) && !ch.fails
    ensures var o := Do(db, AckCall(pc), ch); MidNext(o.db, Resume(InAck(pc), o.reply))
  {
    var o := Do(db, AckCall(pc), ch);
    if pc.AckRead? {
      AckReadMid(db, pc, ch);
    } else if pc.AckCas? {
      AckCasStepMid(db, pc, ch);
    } else {
      AckLaterMid(db, pc, ch);
    }
    AckNextMid(o.db, pc, o.reply);
  }

  /** A compare-and-swap from a state without a route. */
  lemma CasAside(db: Db, id: SandboxId, from: State, to: State)
    requires IndexOk(db.rows, db.apps) && RoutesOk(db) && from != Running && from != Destroying && from != Destroyed
    ensures RoutesOk(DoCas(db, id, from, to).db)
  {
    if id in db.rows && db.rows[id].state == from {
      RowChangeRoutes(db, DoCas(db, id, from, to).db, id);
    }
  }

  lemma CasDestroying(db: Db, id: SandboxId)
    requires IndexOk(db.rows, db.apps) && RoutesOk(db)
    ensures RoutesOk(DoCas(db, id, Running, Destroying).db)
  {
    if id in db.rows && db.rows[id].state == Running {
      RowChangeRoutes(db, DoCas(db, id, Running, Destroying).db, id);
    }
  }

  /** A compare-and-swap that takes the row out of running leaves its route to be removed. */
  lemma CasLeaving(db: Db, id: SandboxId, to: State, app: string)
    requires IndexOk(db.rows, db.apps) && RoutesOk(db) && AppOf(db, id, app) && to != Running
    ensures var o := DoCas(db, id, Running, to); if o.reply.GotRow? then Leaving(o.db, app) else o.db == db
  {
    if id in db.rows && db.rows[id].state == Running {
      RowChangeRoutes(db, DoCas(db, id, Running, to).db, id);
    }
  }

  lemma CrashMid(db: Db, pc: EventPc)
    requires DbOk(db) && RoutesOk(db) && EventOk(db, pc) && ClaimHolds(db, InEvent(pc))
    requires pc.CrashFail? || pc.CrashRestart?
    ensures pc.CrashFail? ==> DoCas(db, pc.id, pc.sb.state, Failed).db == db
    ensures pc.CrashRestart? ==> RoutesOk(DoCas(db, pc.id, Restarting, Starting).db)
  {
    CasAside(db, pc.id, Restarting, Starting);
  }

  lemma EventEdge(sb: Row, to: State)
    requires NextState(sb.state, EvStarted) == Some(to) || NextState(sb.state, EvContainerExited) == Some(to)
    ensures if sb.state == Running then to == Restarting
            else to != Restarting && sb.state != Destroying && sb.state != Destroyed
  {
  }

  lemma EventCasMid(db: Db, pc: EventPc)
    requires DbOk(db) && RoutesOk(db) && EventOk(db, pc) && pc.EventCas? && AppOf(db, pc.id, pc.sb.app)
    ensures var o := DoCas(db, pc.id, pc.sb.state, pc.to);
            if o.reply.GotRow? && pc.to == Restarting then Leaving(o.db, pc.sb.app) else RoutesOk(o.db)
  {
    EventEdge(pc.sb, pc.to);
    if pc.sb.state == Running {
      CasLeaving(db, pc.id, pc.to, pc.sb.app);
    } else {
      CasAside(db, pc.id, pc.sb.state, pc.to);
    }
  }

  lemma CrashStepMid(db: Db, pc: EventPc, ch: Choice)
    requires Alone(db, InEvent(pc)) && !ch.fails && (pc.CrashIncrement? || pc.CrashFail? || pc.CrashRestart?)
    ensures var o := Do(db, EventCall(pc), ch); MidNext(o.db, EventResume(pc, o.reply))
  {
    if pc.CrashIncrement? {
      ResetMid(db, pc.id);
    } else {
      CrashMid(db, pc);
    }
  }

  lemma EventReadMid(db: Db, pc: EventPc, ch: Choice)
    requires Alone(db, InEvent(pc)) && !ch.fails && pc.EventRead?
    ensures var o := Do(db, EventCall(pc), ch); MidNext(o.db, EventResume(pc, o.reply))
  {
  }

  lemma EventUnrouteMid(db: Db, pc: EventPc, ch: Choice)
    requires Alone(db, InEvent(pc)) && !ch.fails && pc.EventUnroute?
    ensures var o := Do(db, EventCall(pc), ch); MidNext(o.db, EventResume(pc, o.reply))
  {
    UnroutedOk(db, pc.sb.app);
  }

  lemma EventMid(db: Db, pc: EventPc, ch: Choice)
    requires Alone(db, InEvent(pc)) && !ch.fails
    ensures var o := Do(db, EventCall(pc), ch); MidNext(o.db, EventResume(pc, o.reply))
  {
    match pc {
      case EventRead(_, _) => EventReadMid(db, pc, ch);
      case EventCas(_, _, _) => EventCasMid(db, pc);
      case EventUnroute(_, _) => EventUnrouteMid(db, pc, ch);
      case _ => CrashStepMid(db, pc, ch);
    }
  }

  lemma DestroyEdge(sb: Row, to: State)
    requires NextState(sb.state, EvDestroyRequest) == Some(to)
    ensures if sb.state == Running then to == Destroying else sb.state != Destroying && sb.state != Destroyed
  {
  }

  lemma RequestCasMid(db: Db, pc: RequestPc)
    requires DbOk(db) && RoutesOk(db) && RequestOk(pc) && (pc.DestroyCas? || pc.WakeCas?)
    ensures RoutesOk(DoCas(db, pc.id, pc.sb.state, if pc.DestroyCas? then pc.to else Starting).db)
  {
    if pc.DestroyCas? {
      DestroyEdge(pc.sb, pc.to);
    }
    if pc.sb.state == Running {
      CasDestroying(db, pc.id);
    } else {
      CasAside(db, pc.id, pc.sb.state, if pc.DestroyCas? then pc.to else Starting);
    }
  }

  lemma RequestMid(db: Db, pc: RequestPc, ch: Choice)
    requires Alone(db, InRequest(pc)) && !ch.fails
    ensures var o := Do(db, RequestCall(pc), ch); MidNext(o.db, RequestResume(pc, o.reply))
  {
    if pc.DestroyCas? || pc.WakeCas? {
      RequestCasMid(db, pc);
    }
  }

  lemma MoveCasMid(db: Db, pc: LoopPc, ch: Choice)
    requires Alone(db, InLoop(pc)) && !ch.fails && pc.MoveCas?
    ensures var o := Do(db, LoopCall(pc), ch); MidNext(o.db, LoopResume(pc, o.reply))
  {
    CasLeaving(db, pc.id, Pending, pc.sb.app);
  }

  lemma MoveUnrouteMid(db: Db, pc: LoopPc, ch: Choice)
    requires Alone(db, InLoop(pc)) && !ch.fails && pc.MoveUnroute?
    ensures var o := Do(db, LoopCall(pc), ch); MidNext(o.db, LoopResume(pc, o.reply))
  {
    UnroutedOk(db, pc.sb.app);
  }

  lemma MoveMid(db: Db, pc: LoopPc, ch: Choice)
    requires Alone(db, InLoop(pc)) && !ch.fails && (pc.MoveReset? || pc.MovePlace? || pc.MoveFail?)
    ensures var o := Do(db, LoopCall(pc), ch); MidNext(o.db, LoopResume(pc, o.reply))
  {
    match pc {
      case MoveReset(id, _) => ResetMid(db, id);
      case MovePlace(_, _) =>
      case MoveFail(id) => CasAside(db, id, Pending, Failed);
    }
  }

  lemma LoopMid(db: Db, pc: LoopPc, ch: Choice)
    requires Alone(db, InLoop(pc)) && !ch.fails
    ensures var o := Do(db, LoopCall(pc), ch); MidNext(o.db, LoopResume(pc, o.reply))
  {
    match pc {
      case ReapCas(id, sb) => CasLeaving(db, id, Stopped, sb.app);
      case ReapUnroute(_, app) => UnroutedOk(db, app);
      case MoveCas(_, _) => MoveCasMid(db, pc, ch);
      case MoveUnroute(_, _) => MoveUnrouteMid(db, pc, ch);
      case _ => MoveMid(db, pc, ch);
    }
  }

  lemma AssignMid(db: Db, id: SandboxId, target: NodeId)
    requires DbOk(db) && RoutesOk(db)
    ensures RoutesOk(DoAssign(db, id, target).db)
  {
    if id in db.rows && db.rows[id].state == Pending {
      RowChangeRoutes(db, DoAssign(db, id, target).db, id);
    }
  }

  lemma CreateCmdMid(db: Db, c: CmdId, kind: CmdKind, id: SandboxId, target: Option<NodeId>, delay: nat,
                     entered: nat, goal: State, but: Option<string>)
    requires RoutesBut(db, but)
    ensures RoutesBut(DoCreate(db, c, kind, id, target, delay, entered, goal).db, but)
  {
    SameRoutes(db, DoCreate(db, c, kind, id, target, delay, entered, goal).db, but);
  }

  lemma IssueMid(db: Db, pc: Pc, ch: Choice)
    requires Alone(db, pc) && !ch.fails && pc.Issue?
    ensures var o := Do(db, CallOf(pc), ch); MidNext(o.db, Resume(pc, o.reply))
  {
    CreateCmdMid(db, ch.cmd, pc.kind, pc.id, pc.node, pc.delay, pc.entered, pc.goal, pc.unroute);
  }

  /** The calls whose failure can leave the index behind the rows: route updates, and the acknowledgement's second
      look at the row. */
  predicate Matters(pc: Pc) {
    CallOf(pc).AddRoute? || CallOf(pc).RemoveRoute? || (pc.InAck? && pc.ack.AckRefetch?)
  }

  lemma FailedAckMid(db: Db, pc: AckPc)
    requires Alone(db, InAck(pc)) && !Matters(InAck(pc))
    ensures MidNext(db, Resume(InAck(pc), Err))
  {
    if pc.AckRoute? { assert RowOk(db.rows[pc.id]); }
  }

  lemma FailedMid(db: Db, pc: Pc)
    requires Alone(db, pc) && !Matters(pc)
    ensures MidNext(db, Resume(pc, Err))
  {
    if pc.InAck? { FailedAckMid(db, pc.ack); }
  }

  lemma MidStep(db: Db, pc: Pc, ch: Choice)
    requires Alone(db, pc) && (Matters(pc) ==> !ch.fails)
    ensures var o := Do(db, CallOf(pc), ch); MidNext(o.db, Resume(pc, o.reply))
  {
    if ch.fails {
      FailedMid(db, pc);
    } else {
      match pc {
        case InCreate(create) => CreateMid(db, create, ch);
        case InAck(ack) => AckMid(db, ack, ch);
        case InEvent(event) => EventMid(db, event, ch);
        case InRequest(request) => RequestMid(db, request, ch);
        case InLoop(loop) => LoopMid(db, loop, ch);
        case Assign(id, target) => AssignMid(db, id, target);
        case Issue(_, _, _, _, _, _, _) => IssueMid(db, pc, ch);
      }
    }
  }

  // ---------------------------------------------------------------- a confirmed row keeps its route

  /** Row id was running at version v with a route, and has kept it unless the row has moved on. */
  ghost predicate Kept(db: Db, id: SandboxId, v: nat) {
    id in db.rows ==>
      || v < db.rows[id].version || db.rows[id].state == Destroyed
      || (db.rows[id].version == v && db.rows[id].state == Running && db.rows[id].app in db.routes)
  }

  lemma OnlyRemovalRemoves(db: Db, call: Call, ch: Choice, app: string)
    requires app in db.routes && call != RemoveRoute(app)
    ensures app in Do(db, call, ch).db.routes
  {
  }

  lemma RouteStays(db: Db, pc: Pc, ch: Choice, app: string)
    requires Mid(db, pc) && app in db.routes && app in db.apps && db.apps[app] in db.rows
    requires db.rows[db.apps[app]].state == Running
    ensures app in Do(db, CallOf(pc), ch).db.routes
  {
    if CallOf(pc).RemoveRoute? { LeavingIsNotRunning(db, pc); }
    OnlyRemovalRemoves(db, CallOf(pc), ch, app);
  }

  lemma LeavingIsNotRunning(db: Db, pc: Pc)
    requires Mid(db, pc) && CallOf(pc).RemoveRoute?
    ensures Leaving(db, CallOf(pc).app)
  {
  }

  lemma KeptStep(db: Db, pc: Pc, ch: Choice, id: SandboxId, v: nat)
    requires Alone(db, pc) && id in db.born && Kept(db, id, v)
    requires Grows(db, Do(db, CallOf(pc), ch).db)
    ensures Kept(Do(db, CallOf(pc), ch).db, id, v)
  {
    var db' := Do(db, CallOf(pc), ch).db;
    if id in db'.rows {
      assert RowGrows(db.rows[id], db'.rows[id]);
      if db.rows[id].version == v && db.rows[id].state == Running {
        RouteStays(db, pc, ch, db.rows[id].app);
      }
    }
  }

  /** The acknowledgement of a start is on its way to adding the route. */
  ghost predicate Due(db: Db, pc: AckPc, id: SandboxId) {
    && pc.id == id
    && match pc
       case AckRead(_, _, kind, status, info) => kind == StartCmd && status == AckSuccess && info.port != 0
       case AckCas(_, _, _, event, _, info) => event == EvStarted && info.port != 0
       case AckRefresh(_, _, _, _, _) => false
       case AckPersist(_, _, _, info) => info.port != 0
       case AckRefetch(_, _, _) => id in db.rows && db.rows[id].port.Some?
       case AckRoute(_, _, sb) => id in db.rows && db.rows[id] == sb && sb.port.Some?
       case AckUnroute(_, _, _) => false
       case _ => id in db.rows ==> db.rows[id].app in db.routes
  }

  ghost predicate Paid(db: Db, id: SandboxId) {
    id in db.rows && db.rows[id].state == Running ==> db.rows[id].app in db.routes
  }

  lemma DueRead(db: Db, pc: AckPc, ch: Choice, id: SandboxId)
    requires Due(db, pc, id) && !ch.fails && pc.AckRead?
    ensures var o := Do(db, AckCall(pc), ch); var next := AckResume(pc, o.reply);
            if next.None? then Paid(o.db, id) else Due(o.db, next.value, id)
  {
  }

  lemma DueCas(db: Db, pc: AckPc, ch: Choice, id: SandboxId)
    requires Due(db, pc, id) && MidAck(db, pc) && !ch.fails && pc.AckCas?
    ensures var o := Do(db, AckCall(pc), ch); var next := AckResume(pc, o.reply);
            next.Some? && Due(o.db, next.value, id)
  {
  }

  lemma DueInfo(db: Db, pc: AckPc, ch: Choice, id: SandboxId)
    requires Due(db, pc, id) && MidAck(db, pc) && DbOk(db) && !ch.fails && (pc.AckPersist? || pc.AckRefetch?)
    ensures var o := Do(db, AckCall(pc), ch); var next := AckResume(pc, o.reply);
            next.Some? && Due(o.db, next.value, id)
  {
    assert RowOk(db.rows[id]);
  }

  lemma DueRoute(db: Db, pc: AckPc, ch: Choice, id: SandboxId)
    requires Due(db, pc, id) && MidAck(db, pc) && DbOk(db) && !ch.fails && pc.AckRoute?
    ensures var o := Do(db, AckCall(pc), ch); var next := AckResume(pc, o.reply);
            next.Some? && Due(o.db, next.value, id)
  {
    assert RowOk(db.rows[id]);
  }

  /** The reset and the acknowledgement itself may fail. */
  lemma DueLast(db: Db, pc: AckPc, ch: Choice, id: SandboxId)
    requires Due(db, pc, id) && (pc.AckReset? || pc.AckFinish?)
    ensures var o := Do(db, AckCall(pc), ch); var next := AckResume(pc, o.reply);
            if next.None? then Paid(o.db, id) else Due(o.db, next.value, id)
  {
  }

  lemma DueRest(db: Db, pc: AckPc, ch: Choice, id: SandboxId)
    requires Due(db, pc, id) && MidAck(db, pc) && DbOk(db) && !pc.AckRead? && !pc.AckCas?
    requires ch.fails ==> pc.AckReset? || pc.AckFinish?
    ensures var o := Do(db, AckCall(pc), ch); var next := AckResume(pc, o.reply);
            if next.None? then Paid(o.db, id) else Due(o.db, next.value, id)
  {
    if pc.AckPersist? || pc.AckRefetch? {
      DueInfo(db, pc, ch, id);
    } else if pc.AckRoute? {
      DueRoute(db, pc, ch, id);
    } else {
      DueLast(db, pc, ch, id);
    }
  }
}
