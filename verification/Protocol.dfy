/**
 The lifecycle protocol. A handler is a step machine: Pc is its program counter together with its
 local variables, CallOf the store or route call it is about to issue, and Resume what it does with
 the reply. Do is the atomic meaning of one call. Sys puts any number of handlers side by side.
 */
module Protocol {
  import opened Wrappers
  import opened Models
  import opened Scheduler

  type SandboxId = nat
  type CmdId = nat
  type ThreadId = nat

  // ---------------------------------------------------------------- tables

  /** Who made a state change: a lifecycle handler, or one of the two sweeps that mark rows destroyed. */
  datatype Author = ByHandler | ByFreshness | ByReconciler

  datatype Change = Change(from: State, to: State, author: Author)

  /** A row of sandboxes. trail and restarts are bookkeeping: the changes of the row since it was
      inserted, and the delays of the restart commands issued since failure_count was last reset. */
  datatype Row = Row(app: string, memoryMB: int, node: Option<NodeId>, container: Option<string>,
                     port: Option<int>, state: State, version: nat, failures: nat,
                     trail: seq<Change>, restarts: seq<nat>)
  {
    /** state_version counts every change but the reconciler's, whose UPDATE does not touch it. */
    function Move(to: State, author: Author): Row {
      this.(state := to,
            version := if author == ByReconciler then version else version + 1,
            trail := trail + [Change(state, to, author)])
    }
  }

  datatype CmdKind = StartCmd | StopCmd | RestartCmd

  datatype CmdStatus = Queued | Dispatched | Completed | Errored

  /** A row of commands. entered and goal are bookkeeping: the state and state_version the sandbox row
      had just been given by the handler that issued the command. */
  datatype Cmd = Cmd(kind: CmdKind, node: NodeId, sandbox: SandboxId, status: CmdStatus,
                     delay: nat, timeout: nat, entered: nat, goal: State)
  {
    predicate Unacked() { status == Queued || status == Dispatched }
  }

  /** A proxy route: the sandbox id header and the upstream, a port on a node. */
  datatype Route = Route(sandbox: SandboxId, node: NodeId, port: int)

  /** The database and the route index. apps is the unique index on app_name; born holds every id
      ever inserted; lost holds the rows whose command was never issued or was badly acknowledged. */
  datatype Db = Db(rows: map<SandboxId, Row>, apps: map<string, SandboxId>, cmds: map<CmdId, Cmd>,
                   routes: map<string, Route>, nodes: seq<Node>,
                   born: set<SandboxId>, lost: set<SandboxId>)

  const EMPTY_DB := Db(map[], map[], map[], map[], [], {}, {})

  function HealthyNodes(nodes: seq<Node>): seq<Node> {
    if nodes == [] then []
    else if nodes[0].status == Healthy then [nodes[0]] + HealthyNodes(nodes[1..])
    else HealthyNodes(nodes[1..])
  }

  /** UPDATE nodes SET status = 'unhealthy' WHERE id. */
  function Mark(nodes: seq<Node>, id: NodeId): (r: seq<Node>)
    ensures |r| == |nodes|
  {
    if nodes == [] then []
    else [if nodes[0].id == id then nodes[0].(status := Unhealthy) else nodes[0]] + Mark(nodes[1..], id)
  }

  // ---------------------------------------------------------------- calls

  datatype AckStatus = AckSuccess | AckFailure | AckOther

  datatype Call =
    | GetByApp(app: string)
    | Get(id: SandboxId)
    | Delete(id: SandboxId)
    | Insert(id: SandboxId, app: string, memoryMB: int)
    | ListHealthy
    | Cas(id: SandboxId, from: State, to: State)
    | AssignTo(id: SandboxId, node: NodeId)
    | Increment(id: SandboxId)
    | ResetFailures(id: SandboxId)
    | SetRuntime(id: SandboxId, container: Option<string>, port: Option<int>)
    | Create(kind: CmdKind, id: SandboxId, target: Option<NodeId>, delay: nat, entered: nat, goal: State)
    | Finish(cmd: CmdId, status: AckStatus)
    | AddRoute(app: string, route: Route)
    | RemoveRoute(app: string)

  datatype Reply = Err | NoRows | Ok | GotRow(id: SandboxId, row: Row) | GotNodes(nodes: seq<Node>)

  datatype Outcome = Outcome(db: Db, reply: Reply)

  /** What the environment decides about one call: the fresh command id, and whether the call fails. */
  datatype Choice = Choice(cmd: CmdId, fails: bool)

  /** A state the row must not be left in without a command that will move it on. */
  predicate Critical(state: State) { state == Starting || state == Destroying }

  /** An acknowledgement that completes a command without moving the row it was issued for. */
  predicate BadAck(kind: CmdKind, status: AckStatus) {
    (kind == StartCmd && status == AckOther) || (kind == StopCmd && status != AckSuccess)
  }

  function PutRow(db: Db, id: SandboxId, row: Row): Db { db.(rows := db.rows[id := row]) }

  function DoGetByApp(db: Db, app: string): Outcome {
    if app in db.apps && db.apps[app] in db.rows
    then Outcome(db, GotRow(db.apps[app], db.rows[db.apps[app]])) else Outcome(db, NoRows)
  }

  function DoGet(db: Db, id: SandboxId): Outcome {
    Outcome(db, if id in db.rows then GotRow(id, db.rows[id]) else NoRows)
  }

  /** commands.sandbox_id references sandboxes(id), so a row with commands cannot be deleted. */
  function DoDelete(db: Db, id: SandboxId): Outcome {
    if exists c | c in db.cmds :: db.cmds[c].sandbox == id then Outcome(db, Err)
    else if id !in db.rows then Outcome(db, Ok)
    else Outcome(db.(rows := db.rows - {id}, apps := db.apps - {db.rows[id].app}), Ok)
  }

  /** app_name is unique, and a generated id has never been used before. */
  function DoInsert(db: Db, id: SandboxId, app: string, memoryMB: int): Outcome {
    if app in db.apps || id in db.born || id in db.rows then Outcome(db, Err)
    else
      var row := Row(app, memoryMB, None, None, None, Pending, 0, 0, [], []);
      Outcome(db.(rows := db.rows[id := row], apps := db.apps[app := id], born := db.born + {id}),
              GotRow(id, row))
  }

  function DoCas(db: Db, id: SandboxId, from: State, to: State): Outcome {
    if id in db.rows && db.rows[id].state == from then
      var row := db.rows[id].Move(to, ByHandler);
      Outcome(PutRow(db, id, row), GotRow(id, row))
    else Outcome(db, NoRows)
  }

  function DoAssign(db: Db, id: SandboxId, node: NodeId): Outcome {
    if id in db.rows && db.rows[id].state == Pending then
      var row := db.rows[id].Move(Starting, ByHandler).(node := Some(node), container := None, port := None);
      Outcome(PutRow(db, id, row), GotRow(id, row))
    else Outcome(db, NoRows)
  }

  function DoIncrement(db: Db, id: SandboxId): Outcome {
    if id in db.rows then
      var row := db.rows[id].(failures := db.rows[id].failures + 1);
      Outcome(PutRow(db, id, row), GotRow(id, row))
    else Outcome(db, NoRows)
  }

  function DoReset(db: Db, id: SandboxId): Outcome {
    if id in db.rows then Outcome(PutRow(db, id, db.rows[id].(failures := 0, restarts := [])), Ok)
    else Outcome(db, Ok)
  }

  function DoSetRuntime(db: Db, id: SandboxId, container: Option<string>, port: Option<int>): Outcome {
    if id in db.rows then Outcome(PutRow(db, id, db.rows[id].(container := container, port := port)), Ok)
    else Outcome(db, Ok)
  }

  /** sandbox_id must exist, node_id is not null, and the command id is a primary key. */
  function DoCreate(db: Db, c: CmdId, kind: CmdKind, id: SandboxId, target: Option<NodeId>, delay: nat,
                    entered: nat, goal: State): Outcome {
    if id !in db.rows || target.None? || c in db.cmds then Outcome(db, Err)
    else
      var cmd := Cmd(kind, target.value, id, Queued, delay, 60 + delay, entered, goal);
      var row := db.rows[id];
      var row' := if delay > 0 then row.(restarts := row.restarts + [delay]) else row;
      Outcome(PutRow(db, id, row').(cmds := db.cmds[c := cmd]), Ok)
  }

  function DoFinish(db: Db, c: CmdId, status: AckStatus): Outcome {
    if c !in db.cmds then Outcome(db, Ok)
    else
      var cmd := db.cmds[c].(status := if status == AckFailure then Errored else Completed);
      var lost := if BadAck(cmd.kind, status) then db.lost + {cmd.sandbox} else db.lost;
      Outcome(db.(cmds := db.cmds[c := cmd], lost := lost), Ok)
  }

  /** The atomic effect and the reply of one call. */
  function Do(db: Db, call: Call, ch: Choice): Outcome {
    if ch.fails then Outcome(db, Err)
    else match call
      case GetByApp(app) => DoGetByApp(db, app)
      case Get(id) => DoGet(db, id)
      case Delete(id) => DoDelete(db, id)
      case Insert(id, app, memoryMB) => DoInsert(db, id, app, memoryMB)
      case ListHealthy => Outcome(db, GotNodes(HealthyNodes(db.nodes)))
      case Cas(id, from, to) => DoCas(db, id, from, to)
      case AssignTo(id, node) => DoAssign(db, id, node)
      case Increment(id) => DoIncrement(db, id)
      case ResetFailures(id) => DoReset(db, id)
      case SetRuntime(id, container, port) => DoSetRuntime(db, id, container, port)
      case Create(kind, id, target, delay, entered, goal) =>
        DoCreate(db, ch.cmd, kind, id, target, delay, entered, goal)
      case Finish(c, status) => DoFinish(db, c, status)
      case AddRoute(app, route) => Outcome(db.(routes := db.routes[app := route]), Ok)
      case RemoveRoute(app) => Outcome(db.(routes := db.routes - {app}), Ok)
  }

  // ---------------------------------------------------------------- handlers

  /** container_id and host_port of an acknowledgement; an empty id or a zero port is missing. */
  datatype Runtime = Runtime(container: string, port: int)

  /** CreateSandbox, up to the placement. */
  datatype CreatePc =
    | CreateLookup(app: string, memoryMB: int, id: SandboxId)
    | CreateDelete(app: string, memoryMB: int, id: SandboxId, prior: SandboxId)
    | CreateInsert(app: string, memoryMB: int, id: SandboxId)
    | CreatePlace(id: SandboxId, need: int)

  /** HandleAck; sb is its local variable sandbox. */
  datatype AckPc =
    | AckRead(cmd: CmdId, id: SandboxId, kind: CmdKind, status: AckStatus, info: Runtime)
    | AckCas(cmd: CmdId, id: SandboxId, sb: Row, event: Event, to: State, info: Runtime)
    | AckRefresh(cmd: CmdId, id: SandboxId, event: Event, to: State, info: Runtime)
    | AckPersist(cmd: CmdId, id: SandboxId, sb: Row, info: Runtime)
    | AckRefetch(cmd: CmdId, id: SandboxId, sb: Row)
    | AckRoute(cmd: CmdId, id: SandboxId, sb: Row)
    | AckReset(cmd: CmdId, id: SandboxId)
    | AckUnroute(cmd: CmdId, id: SandboxId, app: string)
    | AckFinish(cmd: CmdId, id: SandboxId, status: AckStatus)

  /** HandleEvent, and HandleCrash called with the row HandleEvent read. */
  datatype EventPc =
    | EventRead(id: SandboxId, event: Event)
    | EventCas(id: SandboxId, sb: Row, to: State)
    | EventUnroute(id: SandboxId, sb: Row)
    | CrashIncrement(id: SandboxId, sb: Row)
    | CrashFail(id: SandboxId, sb: Row)
    | CrashRestart(id: SandboxId, sb: Row, count: nat)

  /** DestroySandbox, WakeSandbox, RestartSandbox. */
  datatype RequestPc =
    | DestroyRead(id: SandboxId)
    | DestroyCas(id: SandboxId, sb: Row, to: State)
    | WakeRead(id: SandboxId)
    | WakeCas(id: SandboxId, sb: Row)
    | RestartRead(id: SandboxId)

  /** One listed row of the idle reaper's and of the rescheduler's loop. */
  datatype LoopPc =
    | ReapCas(id: SandboxId, sb: Row)
    | ReapUnroute(id: SandboxId, app: string)
    | MoveCas(id: SandboxId, sb: Row)
    | MoveUnroute(id: SandboxId, sb: Row)
    | MoveReset(id: SandboxId, sb: Row)
    | MovePlace(id: SandboxId, sb: Row)
    | MoveFail(id: SandboxId)

  /** Assign is shared by CreateSandbox and the rescheduler, Issue is every handler's CreateCommand;
      a reaped sandbox's route is removed after it. */
  datatype Pc =
    | InCreate(create: CreatePc)
    | InAck(ack: AckPc)
    | InEvent(event: EventPc)
    | InRequest(request: RequestPc)
    | InLoop(loop: LoopPc)
    | Assign(id: SandboxId, target: NodeId)
    | Issue(kind: CmdKind, id: SandboxId, node: Option<NodeId>, delay: nat, entered: nat, goal: State,
            unroute: Option<string>)

  const MAX_RESTART_ATTEMPTS := 3
  const BASE_RESTART_DELAY := 5

  /** baseDelay * 2^(count-1) seconds. */
  function RestartDelay(count: nat): nat
    requires count >= 1
  {
    if count == 1 then BASE_RESTART_DELAY else 2 * RestartDelay(count - 1)
  }

  // CreateSandbox

  function CreateCall(pc: CreatePc): Call {
    match pc
    case CreateLookup(app, _, _) => GetByApp(app)
    case CreateDelete(_, _, _, prior) => Delete(prior)
    case CreateInsert(app, memoryMB, id) => Insert(id, app, memoryMB)
    case CreatePlace(_, _) => ListHealthy
  }

  function CreateResume(pc: CreatePc, reply: Reply): Option<Pc> {
    match pc
    case CreateLookup(app, memoryMB, id) =>
      if reply.GotRow? then
        if reply.row.state == Destroyed || reply.row.state == Failed
        then Some(InCreate(CreateDelete(app, memoryMB, id, reply.id))) else None
      else if reply.NoRows? then Some(InCreate(CreateInsert(app, memoryMB, id))) else None
    case CreateDelete(app, memoryMB, id, _) =>
      if reply.Ok? then Some(InCreate(CreateInsert(app, memoryMB, id))) else None
    case CreateInsert(_, memoryMB, id) =>
      if reply.GotRow? then Some(InCreate(CreatePlace(id, if memoryMB == 0 then 512 else memoryMB))) else None
    case CreatePlace(id, need) =>
      if reply.GotNodes? && Place(reply.nodes, need).Some?
      then Some(Assign(id, Place(reply.nodes, need).value)) else None
  }

  // HandleAck

  /** The state machine event an acknowledgement maps to, given the state the row was read in. */
  function AckEvent(kind: CmdKind, status: AckStatus, state: State): Option<Event> {
    match (kind, status)
    case (StartCmd, AckSuccess) => Some(EvStarted)
    case (StartCmd, AckFailure) => Some(EvStartFailed)
    case (StopCmd, AckSuccess) => if state == Destroying then Some(EvDestroyed) else None
    case _ => None
  }

  /** The state an acknowledgement event asks for. */
  function Target(event: Event): State {
    match event
    case EvStarted => Running
    case EvStartFailed => Failed
    case _ => Destroyed
  }

  /** The part of HandleAck after the row is known to be at the target state. */
  function Settled(cmd: CmdId, id: SandboxId, sb: Row, event: Event, info: Runtime): AckPc {
    match event
    case EvStarted =>
      if info.container == "" && info.port == 0 then AckRefetch(cmd, id, sb) else AckPersist(cmd, id, sb, info)
    case EvStartFailed => AckFinish(cmd, id, AckFailure)
    case _ => AckUnroute(cmd, id, sb.app)
  }

  /** What follows the route upsert: reset the failure count when there is one, then acknowledge. */
  function AfterRoute(cmd: CmdId, id: SandboxId, sb: Row): AckPc {
    if sb.failures > 0 then AckReset(cmd, id) else AckFinish(cmd, id, AckSuccess)
  }

  function AckCall(pc: AckPc): Call {
    match pc
    case AckRead(_, id, _, _, _) => Get(id)
    case AckCas(_, id, sb, _, to, _) => Cas(id, sb.state, to)
    case AckRefresh(_, id, _, _, _) => Get(id)
    case AckPersist(_, id, _, info) =>
      SetRuntime(id, if info.container == "" then None else Some(info.container),
                 if info.port == 0 then None else Some(info.port))
    case AckRefetch(_, id, _) => Get(id)
    case AckRoute(_, id, sb) =>
      if sb.node.Some? && sb.port.Some? then AddRoute(sb.app, Route(id, sb.node.value, sb.port.value))
      else Get(id)  // nothing to add: the handler only warns
    case AckReset(_, id) => ResetFailures(id)
    case AckUnroute(_, _, app) => RemoveRoute(app)
    case AckFinish(cmd, _, status) => Finish(cmd, status)
  }

  function AckResume(pc: AckPc, reply: Reply): Option<AckPc> {
    match pc
    case AckRead(cmd, id, kind, status, info) =>
      if !reply.GotRow? then None
      else
        var sb := reply.row;
        var event := AckEvent(kind, status, sb.state);
        if event.None? then Some(AckFinish(cmd, id, status))
        else if NextState(sb.state, event.value).Some?
        then Some(AckCas(cmd, id, sb, event.value, NextState(sb.state, event.value).value, info))
        else if sb.state == Target(event.value) then Some(Settled(cmd, id, sb, event.value, info))
        else None
    case AckCas(cmd, id, sb, event, to, info) =>
      if reply.GotRow? then Some(Settled(cmd, id, sb, event, info))
      else if reply.NoRows? then Some(AckRefresh(cmd, id, event, to, info)) else None
    case AckRefresh(cmd, id, event, to, info) =>
      if reply.GotRow? && (reply.row.state == to || reply.row.state == Target(event))
      then Some(Settled(cmd, id, reply.row, event, info)) else None
    case AckPersist(cmd, id, sb, _) => Some(AckRefetch(cmd, id, sb))
    case AckRefetch(cmd, id, sb) => Some(AckRoute(cmd, id, if reply.GotRow? then reply.row else sb))
    case AckRoute(cmd, id, sb) => Some(AfterRoute(cmd, id, sb))
    case AckReset(cmd, id) => Some(AckFinish(cmd, id, AckSuccess))
    case AckUnroute(cmd, id, _) => Some(AckFinish(cmd, id, AckSuccess))
    case AckFinish(_, _, _) => None
  }

  // HandleEvent and HandleCrash

  function EventCall(pc: EventPc): Call {
    match pc
    case EventRead(id, _) => Get(id)
    case EventCas(id, sb, to) => Cas(id, sb.state, to)
    case EventUnroute(_, sb) => RemoveRoute(sb.app)
    case CrashIncrement(id, _) => Increment(id)
    case CrashFail(id, sb) => Cas(id, sb.state, Failed)
    case CrashRestart(id, _, _) => Cas(id, Restarting, Starting)
  }

  function EventResume(pc: EventPc, reply: Reply): Option<Pc> {
    match pc
    case EventRead(id, event) =>
      if reply.GotRow? && NextState(reply.row.state, event).Some?
      then Some(InEvent(EventCas(id, reply.row, NextState(reply.row.state, event).value))) else None
    case EventCas(id, sb, to) =>
      if reply.GotRow? && to == Restarting then Some(InEvent(EventUnroute(id, sb))) else None
    case EventUnroute(id, sb) => Some(InEvent(CrashIncrement(id, sb)))
    case CrashIncrement(id, sb) =>
      if !reply.GotRow? then None
      else if reply.row.failures > MAX_RESTART_ATTEMPTS then Some(InEvent(CrashFail(id, sb)))
      else Some(InEvent(CrashRestart(id, sb, reply.row.failures)))
    case CrashFail(_, _) => None
    case CrashRestart(id, sb, count) =>
      if reply.GotRow?
      then Some(Issue(StartCmd, id, sb.node, if count >= 1 then RestartDelay(count) else 0,
                      reply.row.version, Starting, None))
      else None
  }

  // DestroySandbox, WakeSandbox, RestartSandbox

  function RequestCall(pc: RequestPc): Call {
    match pc
    case DestroyRead(id) => Get(id)
    case DestroyCas(id, sb, to) => Cas(id, sb.state, to)
    case WakeRead(id) => Get(id)
    case WakeCas(id, sb) => Cas(id, sb.state, Starting)
    case RestartRead(id) => Get(id)
  }

  function RequestResume(pc: RequestPc, reply: Reply): Option<Pc> {
    match pc
    case DestroyRead(id) =>
      if reply.GotRow? && NextState(reply.row.state, EvDestroyRequest).Some?
      then Some(InRequest(DestroyCas(id, reply.row, NextState(reply.row.state, EvDestroyRequest).value))) else None
    case DestroyCas(id, sb, to) =>
      if reply.GotRow? then Some(Issue(StopCmd, id, sb.node, 0, reply.row.version, to, None)) else None
    case WakeRead(id) =>
      if reply.GotRow? && reply.row.state == Stopped then Some(InRequest(WakeCas(id, reply.row))) else None
    case WakeCas(id, sb) =>
      if reply.GotRow? then Some(Issue(StartCmd, id, sb.node, 0, reply.row.version, Starting, None)) else None
    case RestartRead(id) =>
      if reply.GotRow? && reply.row.state == Running
      then Some(Issue(RestartCmd, id, reply.row.node, 0, reply.row.version, Running, None)) else None
  }

  // the idle reaper and the rescheduler, one row each

  function LoopCall(pc: LoopPc): Call {
    match pc
    case ReapCas(id, _) => Cas(id, Running, Stopped)
    case ReapUnroute(_, app) => RemoveRoute(app)
    case MoveCas(id, _) => Cas(id, Running, Pending)
    case MoveUnroute(_, sb) => RemoveRoute(sb.app)
    case MoveReset(id, _) => ResetFailures(id)
    case MovePlace(_, _) => ListHealthy
    case MoveFail(id) => Cas(id, Pending, Failed)
  }

  function LoopResume(pc: LoopPc, reply: Reply): Option<Pc> {
    match pc
    case ReapCas(id, sb) =>
      if reply.GotRow? then Some(Issue(StopCmd, id, sb.node, 0, reply.row.version, Stopped, Some(sb.app))) else None
    case ReapUnroute(_, _) => None
    case MoveCas(id, sb) => if reply.GotRow? then Some(InLoop(MoveUnroute(id, sb))) else None
    case MoveUnroute(id, sb) => Some(InLoop(MoveReset(id, sb)))
    case MoveReset(id, sb) => Some(InLoop(MovePlace(id, sb)))
    case MovePlace(id, sb) =>
      if !reply.GotNodes? then None
      else
        var target := Place(reply.nodes, if sb.memoryMB > 0 then sb.memoryMB else 512);
        if target.Some? then Some(Assign(id, target.value)) else Some(InLoop(MoveFail(id)))
    case MoveFail(_) => None
  }

  /** The call handler pc is about to issue. */
  function CallOf(pc: Pc): Call {
    match pc
    case InCreate(create) => CreateCall(create)
    case InAck(ack) => AckCall(ack)
    case InEvent(event) => EventCall(event)
    case InRequest(request) => RequestCall(request)
    case InLoop(loop) => LoopCall(loop)
    case Assign(id, target) => AssignTo(id, target)
    case Issue(kind, id, node, delay, entered, goal, _) => Create(kind, id, node, delay, entered, goal)
  }

  /** How a handler continues with the reply to its call; None when it returns. */
  function Resume(pc: Pc, reply: Reply): Option<Pc> {
    match pc
    case InCreate(create) => CreateResume(create, reply)
    case InAck(ack) =>
      var next := AckResume(ack, reply);
      if next.Some? then Some(InAck(next.value)) else None
    case InEvent(event) => EventResume(event, reply)
    case InRequest(request) => RequestResume(request, reply)
    case InLoop(loop) => LoopResume(loop, reply)
    case Assign(id, target) =>
      if reply.GotRow? then Some(Issue(StartCmd, id, Some(target), 0, reply.row.version, Starting, None)) else None
    case Issue(_, id, _, _, _, _, unroute) =>
      if unroute.Some? then Some(InLoop(ReapUnroute(id, unroute.value))) else None
  }

  // ---------------------------------------------------------------- interleaving

  /** The states the two sweeping UPDATEs select. */
  predicate Sweepable(state: State) {
    state == Pending || state == Starting || state == Running || state == Restarting
  }

  datatype Sys = Sys(db: Db, threads: map<ThreadId, Pc>)

  datatype Action =
    | Spawn(t: ThreadId, pc: Pc)         // a request arrives, or a ticker lists a row
    | Run(t: ThreadId, ch: Choice)       // handler t issues its next call
    | Sweep(id: SandboxId, author: Author) // MarkSandboxDestroyed or MarkSandboxAgentLost
    | Dispatch(cmd: CmdId)               // an agent polls the command
    | SetNodes(nodes: seq<Node>)         // heartbeats, drains and registrations

  /** Where a handler may begin: the request handlers anywhere, the two list loops on a running row. */
  predicate Entry(db: Db, pc: Pc) {
    match pc
    case InCreate(create) => create.CreateLookup?
    case InAck(ack) =>
      && ack.AckRead? && ack.cmd in db.cmds
      && db.cmds[ack.cmd].sandbox == ack.id && db.cmds[ack.cmd].kind == ack.kind
    case InEvent(event) => event.EventRead? && (event.event == EvStarted || event.event == EvContainerExited)
    case InRequest(request) => request.DestroyRead? || request.WakeRead? || request.RestartRead?
    case InLoop(loop) =>
      && (loop.ReapCas? || loop.MoveCas?)
      && loop.id in db.rows && db.rows[loop.id] == loop.sb && loop.sb.state == Running
    case _ => false
  }

  predicate Enabled(s: Sys, a: Action) {
    match a
    case Spawn(t, pc) => t !in s.threads && Entry(s.db, pc)
    case Run(t, _) => t in s.threads
    case Sweep(id, author) =>
      && id in s.db.rows && author != ByHandler
      && Sweepable(s.db.rows[id].state)
    case Dispatch(cmd) => cmd in s.db.cmds && s.db.cmds[cmd].status == Queued
    case SetNodes(_) => true
  }

  /** Row id still waits in the critical state it was given at version entered. */
  predicate Waits(db: Db, id: SandboxId, entered: nat, goal: State) {
    Critical(goal) && id in db.rows && db.rows[id].version == entered && db.rows[id].state == goal
  }

  /** The call of handler pc went wrong although the row still waits for its command. */
  predicate Drops(db: Db, pc: Pc, reply: Reply) {
    pc.Issue? && reply.Err? && Waits(db, pc.id, pc.entered, pc.goal)
  }

  /** The database after handler pc's call. */
  function Called(db: Db, pc: Pc, ch: Choice): Outcome {
    var o := Do(db, CallOf(pc), ch);
    if Drops(db, pc, o.reply) then o.(db := o.db.(lost := o.db.lost + {pc.id})) else o
  }

  function Step(s: Sys, a: Action): Sys
    requires Enabled(s, a)
  {
    match a
    case Spawn(t, pc) => s.(threads := s.threads[t := pc])
    case Run(t, ch) =>
      var o := Called(s.db, s.threads[t], ch);
      var next := Resume(s.threads[t], o.reply);
      Sys(o.db, if next.Some? then s.threads[t := next.value] else s.threads - {t})
    case Sweep(id, author) =>
      s.(db := PutRow(s.db, id, s.db.rows[id].Move(Destroyed, author)))
    case Dispatch(cmd) =>
      s.(db := s.db.(cmds := s.db.cmds[cmd := s.db.cmds[cmd].(status := Dispatched)]))
    case SetNodes(nodes) => s.(db := s.db.(nodes := nodes))
  }

  const INIT := Sys(EMPTY_DB, map[])

  /** Every action of the run is enabled when its turn comes. */
  predicate IsRun(s: Sys, run: seq<Action>)
    decreases |run|
  {
    run == [] || (Enabled(s, run[0]) && IsRun(Step(s, run[0]), run[1..]))
  }

  function After(s: Sys, run: seq<Action>): Sys
    requires IsRun(s, run)
    decreases |run|
  {
    if run == [] then s else After(Step(s, run[0]), run[1..])
  }
}
