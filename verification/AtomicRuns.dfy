/** Whole runs in which every handler runs from its entry to its return before the next one begins. */
module AtomicRuns {
  import opened Wrappers
  import opened Models
  import opened Scheduler
  import opened Protocol
  import opened ProtocolInvariant
  import opened ProtocolSteps
  import opened ProtocolRuns
  import opened Atomic
  import opened AtomicRoutes

  datatype Turn =
    | Handle(pc: Pc, script: nat -> Choice)
    | Poll(cmd: CmdId)
    | Nodes(nodes: seq<Node>)
    | Swept(id: SandboxId, author: Author)

  /** The database, and the rows whose start acknowledgement was processed since they entered running. */
  datatype Quiet = Quiet(db: Db, confirmed: set<SandboxId>)

  const QUIET := Quiet(EMPTY_DB, {})

  predicate TurnEnabled(q: Quiet, turn: Turn) {
    match turn
    case Handle(pc, _) => Entry(q.db, pc)
    case Poll(cmd) => cmd in q.db.cmds && q.db.cmds[cmd].status == Queued
    case Nodes(_) => true
    case Swept(id, author) => id in q.db.rows && author != ByHandler && Sweepable(q.db.rows[id].state)
  }

  /** Handler pc is the success acknowledgement, with a host port, of a start of sandbox id. */
  predicate StartAckOf(pc: Pc, id: SandboxId) {
    pc.InAck? && pc.ack.AckRead? && pc.ack.id == id && pc.ack.kind == StartCmd && pc.ack.status == AckSuccess
    && pc.ack.info.port != 0
  }

  /** No call of the handler fails, but for the failure-count reset and the acknowledgement itself. */
  predicate Processed(db: Db, pc: Pc, script: nat -> Choice, clock: nat)
    decreases Rank(pc)
  {
    var o := Called(db, pc, script(clock));
    var next := Resume(pc, o.reply);
    RankDecreases(pc, o.reply);
    && (script(clock).fails ==> pc.InAck? && (pc.ack.AckReset? || pc.ack.AckFinish?))
    && (next.Some? ==> Processed(o.db, next.value, script, clock + 1))
  }

  function Confirm(q: Quiet, pc: Pc, script: nat -> Choice, db: Db): set<SandboxId> {
    set id | id in db.rows && db.rows[id].state == Running &&
             ((StartAckOf(pc, id) && Processed(q.db, pc, script, 0)) ||
              (id in q.confirmed && id in q.db.rows && q.db.rows[id].version == db.rows[id].version))
  }

  function Take(q: Quiet, turn: Turn): Quiet {
    match turn
    case Handle(pc, script) =>
      var db := Drive(q.db, pc, script, 0).db;
      Quiet(db, Confirm(q, pc, script, db))
    case Poll(cmd) =>
      if cmd in q.db.cmds
      then q.(db := q.db.(cmds := q.db.cmds[cmd := q.db.cmds[cmd].(status := Dispatched)])) else q
    case Nodes(nodes) => q.(db := q.db.(nodes := nodes))
    case Swept(id, author) =>
      if id in q.db.rows
      then Quiet(PutRow(q.db, id, q.db.rows[id].Move(Destroyed, author)), q.confirmed - {id}) else q
  }

  predicate IsQuietRun(q: Quiet, run: seq<Turn>)
    decreases |run|
  {
    run == [] || (TurnEnabled(q, run[0]) && IsQuietRun(Take(q, run[0]), run[1..]))
  }

  function AfterTurns(q: Quiet, run: seq<Turn>): Quiet
    decreases |run|
  {
    if run == [] then q else AfterTurns(Take(q, run[0]), run[1..])
  }

  lemma TurnKeeps(q: Quiet, turn: Turn)
    requires Inv(Sys(q.db, map[])) && TurnEnabled(q, turn)
    ensures Inv(Sys(Take(q, turn).db, map[])) && Grows(q.db, Take(q, turn).db)
  {
    match turn {
      case Handle(pc, script) => DriveKeeps(q.db, pc, script, 0);
      case Poll(cmd) => StepKeeps(Sys(q.db, map[]), Dispatch(cmd));
      case Nodes(nodes) => StepKeeps(Sys(q.db, map[]), SetNodes(nodes));
      case Swept(id, author) => StepKeeps(Sys(q.db, map[]), Sweep(id, author));
    }
  }

  // ---------------------------------------------------------------- one handler and the routes

  ghost predicate NoFailure(script: nat -> Choice) { forall k :: !script(k).fails }

  /** None of the handler's calls that matter to the index fails; any other may. */
  predicate Steady(db: Db, pc: Pc, script: nat -> Choice, clock: nat)
    decreases Rank(pc)
  {
    var o := Called(db, pc, script(clock));
    var next := Resume(pc, o.reply);
    RankDecreases(pc, o.reply);
    && (Matters(pc) ==> !script(clock).fails)
    && (next.Some? ==> Steady(o.db, next.value, script, clock + 1))
  }

  lemma {:induction false} NoFailureIsSteady(db: Db, pc: Pc, script: nat -> Choice, clock: nat)
    requires NoFailure(script)
    ensures Steady(db, pc, script, clock)
    decreases Rank(pc)
  {
    var o := Called(db, pc, script(clock));
    RankDecreases(pc, o.reply);
    if Resume(pc, o.reply).Some? {
      NoFailureIsSteady(o.db, Resume(pc, o.reply).value, script, clock + 1);
    }
  }

  lemma LostIsNoMatter(db: Db, lost: set<SandboxId>, pc: Pc)
    requires Mid(db, pc)
    ensures Mid(db.(lost := lost), pc)
  {
    LostRoutes(db, lost);
  }

  lemma LostRoutes(db: Db, lost: set<SandboxId>)
    ensures forall but :: RoutesBut(db, but) ==> RoutesBut(db.(lost := lost), but)
  {
    forall but | RoutesBut(db, but) ensures RoutesBut(db.(lost := lost), but) {
      SameRoutes(db, db.(lost := lost), but);
    }
  }

  lemma NextClaimHolds(db: Db, pc: Pc, ch: Choice)
    requires PcOk(db, pc) && ClaimHolds(db, pc)
    ensures var o := Called(db, pc, ch); var next := Resume(pc, o.reply);
            next.Some? ==> ClaimHolds(o.db, next.value)
  {
    ClaimArises(db, pc, ch);
  }

  lemma AloneNext(db: Db, pc: Pc, ch: Choice)
    requires DbOk(db) && PcOk(db, pc) && ClaimHolds(db, pc)
    ensures var o := Called(db, pc, ch); var next := Resume(pc, o.reply);
            && DbOk(o.db) && Grows(db, o.db)
            && (next.Some? ==> PcOk(o.db, next.value) && ClaimHolds(o.db, next.value))
  {
    var mid := Do(db, CallOf(pc), ch).db;
    var o := Called(db, pc, ch);
    CallKeeps(db, pc, ch);
    PcCallFits(db, pc);
    DoKeeps(db, CallOf(pc), ch);
    NextPcOk(db, pc, ch);
    NextClaimHolds(db, pc, ch);
    if Resume(pc, o.reply).Some? {
      LosingKeeps(mid, o.db.lost);
      PcOkStable(mid, o.db, Resume(pc, o.reply).value);
    }
  }

  lemma AloneStep(db: Db, pc: Pc, ch: Choice)
    requires Alone(db, pc) && (Matters(pc) ==> !ch.fails)
    ensures var o := Called(db, pc, ch); var next := Resume(pc, o.reply);
            && DbOk(o.db) && Grows(db, o.db)
            && (if next.None? then RoutesOk(o.db) else Alone(o.db, next.value))
  {
    var mid := Do(db, CallOf(pc), ch);
    var o := Called(db, pc, ch);
    var next := Resume(pc, o.reply);
    AloneNext(db, pc, ch);
    MidStep(db, pc, ch);
    if next.Some? {
      LostIsNoMatter(mid.db, o.db.lost, next.value);
    } else {
      LostRoutes(mid.db, o.db.lost);
    }
  }

  lemma {:induction false} DriveAlone(db: Db, pc: Pc, script: nat -> Choice, clock: nat)
    requires Alone(db, pc) && Steady(db, pc, script, clock)
    ensures RoutesOk(Drive(db, pc, script, clock).db)
    decreases Rank(pc)
  {
    var o := Called(db, pc, script(clock));
    AloneStep(db, pc, script(clock));
    RankDecreases(pc, o.reply);
    if Resume(pc, o.reply).Some? {
      DriveAlone(o.db, Resume(pc, o.reply).value, script, clock + 1);
    }
  }

  lemma {:induction false} DriveKeepsRoute(db: Db, pc: Pc, script: nat -> Choice, clock: nat, id: SandboxId, v: nat)
    requires Alone(db, pc) && Steady(db, pc, script, clock) && id in db.born && Kept(db, id, v)
    ensures Kept(Drive(db, pc, script, clock).db, id, v)
    decreases Rank(pc)
  {
    var ch := script(clock);
    var o := Called(db, pc, ch);
    AloneStep(db, pc, ch);
    PcCallFits(db, pc);
    DoKeeps(db, CallOf(pc), ch);
    KeptStep(db, pc, ch, id, v);
    RankDecreases(pc, o.reply);
    if Resume(pc, o.reply).Some? {
      DriveKeepsRoute(o.db, Resume(pc, o.reply).value, script, clock + 1, id, v);
    }
  }

  lemma DueStep(db: Db, pc: AckPc, ch: Choice, id: SandboxId)
    requires Due(db, pc, id) && Alone(db, InAck(pc)) && (ch.fails ==> pc.AckReset? || pc.AckFinish?)
    ensures var o := Called(db, InAck(pc), ch); var next := Resume(InAck(pc), o.reply);
            if next.None? then Paid(o.db, id) else next.value.InAck? && Due(o.db, next.value.ack, id)
  {
    if pc.AckRead? {
      DueRead(db, pc, ch, id);
    } else if pc.AckCas? {
      DueCas(db, pc, ch, id);
    } else {
      DueRest(db, pc, ch, id);
    }
  }

  lemma {:induction false} DriveAddsRoute(db: Db, pc: Pc, script: nat -> Choice, clock: nat, id: SandboxId)
    requires pc.InAck? && Due(db, pc.ack, id) && Alone(db, pc) && Processed(db, pc, script, clock)
    ensures Paid(Drive(db, pc, script, clock).db, id)
    decreases Rank(pc)
  {
    var ch := script(clock);
    var o := Called(db, pc, ch);
    DueStep(db, pc.ack, ch, id);
    AloneStep(db, pc, ch);
    RankDecreases(pc, o.reply);
    if Resume(pc, o.reply).Some? {
      DriveAddsRoute(o.db, Resume(pc, o.reply).value, script, clock + 1, id);
    }
  }

  // ---------------------------------------------------------------- whole runs and the routes

  /** None of the turn's calls that matter fails, and a start acknowledgement that names a container names its port,
      unless the row is not running or has no route. */
  predicate Served(q: Quiet, turn: Turn) {
    turn.Handle? ==>
      && Steady(q.db, turn.pc, turn.script, 0)
      && (turn.pc.InAck? && turn.pc.ack.AckRead? ==> AckServed(q.db, turn.pc.ack))
  }

  predicate AckServed(db: Db, pc: AckPc)
    requires pc.AckRead?
  {
    pc.kind == StartCmd && pc.status == AckSuccess ==> PortCarried(pc.info) || !RunningRouted(db, pc.id)
  }

  predicate IsServedRun(q: Quiet, run: seq<Turn>)
    decreases |run|
  {
    run == [] || (TurnEnabled(q, run[0]) && Served(q, run[0]) && IsServedRun(Take(q, run[0]), run[1..]))
  }

  /** The route index agrees with the rows. */
  ghost predicate IndexAgrees(q: Quiet) {
    && RoutesOk(q.db)
    && forall id | id in q.confirmed ::
         id in q.db.rows && q.db.rows[id].state == Running && q.db.rows[id].app in q.db.routes
  }

  lemma EntryIsAlone(q: Quiet, pc: Pc)
    requires Inv(Sys(q.db, map[])) && RoutesOk(q.db) && Entry(q.db, pc)
    requires pc.InAck? && pc.ack.AckRead? ==> AckServed(q.db, pc.ack)
    ensures Alone(q.db, pc)
  {
    StepKeeps(Sys(q.db, map[]), Spawn(0, pc));
    assert Step(Sys(q.db, map[]), Spawn(0, pc)).threads[0] == pc;
  }

  lemma HandleKeepsIndex(q: Quiet, turn: Turn)
    requires Inv(Sys(q.db, map[])) && TurnEnabled(q, turn) && Served(q, turn) && turn.Handle? && IndexAgrees(q)
    ensures IndexAgrees(Take(q, turn))
  {
    var q' := Take(q, turn);
    EntryIsAlone(q, turn.pc);
    DriveAlone(q.db, turn.pc, turn.script, 0);
    TurnKeeps(q, turn);
    forall id | id in q'.confirmed ensures q'.db.rows[id].app in q'.db.routes {
      if StartAckOf(turn.pc, id) && Processed(q.db, turn.pc, turn.script, 0) {
        DriveAddsRoute(q.db, turn.pc, turn.script, 0, id);
      } else {
        DriveKeepsRoute(q.db, turn.pc, turn.script, 0, id, q.db.rows[id].version);
      }
    }
  }

  lemma SweepKeepsRoutes(db: Db, id: SandboxId, author: Author)
    requires IndexOk(db.rows, db.apps) && RoutesOk(db) && id in db.rows && author != ByHandler
    ensures RoutesOk(PutRow(db, id, db.rows[id].Move(Destroyed, author)))
  {
    RowChangeRoutes(db, PutRow(db, id, db.rows[id].Move(Destroyed, author)), id);
  }

  lemma TurnKeepsIndex(q: Quiet, turn: Turn)
    requires Inv(Sys(q.db, map[])) && TurnEnabled(q, turn) && Served(q, turn) && IndexAgrees(q)
    ensures IndexAgrees(Take(q, turn))
  {
    match turn {
      case Handle(_, _) => HandleKeepsIndex(q, turn);
      case Swept(id, author) => SweepKeepsRoutes(q.db, id, author);
      case _ => SameRoutes(q.db, Take(q, turn).db, None);
    }
  }

  lemma {:induction false} IndexAgreesFrom(q: Quiet, run: seq<Turn>)
    requires Inv(Sys(q.db, map[])) && IsServedRun(q, run) && IndexAgrees(q)
    ensures IndexAgrees(AfterTurns(q, run))
    decreases |run|
  {
    if run != [] {
      TurnKeeps(q, run[0]);
      TurnKeepsIndex(q, run[0]);
      IndexAgreesFrom(Take(q, run[0]), run[1..]);
    }
  }

  /** After any run of handlers one at a time, with sweeps between them, in which no route update and no second look
      fails: every route names a row that is running, destroying or was swept, its sandbox id, its node and its current
      port; and every running row whose start acknowledgement with a port was processed since it entered running has a
      route. */
  lemma RouteIndexAgrees(run: seq<Turn>)
    requires IsServedRun(QUIET, run)
    ensures IndexAgrees(AfterTurns(QUIET, run))
  {
    IndexAgreesFrom(QUIET, run);
  }

  // ---------------------------------------------------------------- what the sweeps do to it

  /** No route is left on a swept row. */
  predicate Strict(db: Db) {
    forall app | app in db.routes && db.routes[app].sandbox in db.rows ::
      var state := db.rows[db.routes[app].sandbox].state; state == Running || state == Destroying
  }

  /** A sweep leaves a route on a destroyed row exactly when the row had one. */
  lemma SweepBreaksIndexIff(db: Db, id: SandboxId, author: Author)
    requires IndexOk(db.rows, db.apps) && RoutesOk(db) && Strict(db)
    requires id in db.rows && author != ByHandler && Sweepable(db.rows[id].state)
    ensures Strict(PutRow(db, id, db.rows[id].Move(Destroyed, author))) <==> db.rows[id].app !in db.routes
  {
    var app := db.rows[id].app;
    forall x | x in db.routes ensures db.routes[x].sandbox == id <==> x == app {
      assert RouteFits(db, x);
    }
  }

  ghost predicate NoneSwept(db: Db) { forall id | id in db.rows :: !AtomicRoutes.Swept(db.rows[id]) }

  lemma CallSweepsNothing(db: Db, call: Call, ch: Choice)
    requires NoneSwept(db)
    ensures NoneSwept(Do(db, call, ch).db)
  {
  }

  lemma {:induction false} DriveSweepsNothing(db: Db, pc: Pc, script: nat -> Choice, clock: nat)
    requires NoneSwept(db)
    ensures NoneSwept(Drive(db, pc, script, clock).db)
    decreases Rank(pc)
  {
    var o := Called(db, pc, script(clock));
    CallSweepsNothing(db, CallOf(pc), script(clock));
    RankDecreases(pc, o.reply);
    if Resume(pc, o.reply).Some? {
      DriveSweepsNothing(o.db, Resume(pc, o.reply).value, script, clock + 1);
    }
  }

  lemma {:induction false} UnsweptFrom(q: Quiet, run: seq<Turn>)
    requires NoneSwept(q.db) && forall turn | turn in run :: !turn.Swept?
    ensures NoneSwept(AfterTurns(q, run).db)
    decreases |run|
  {
    if run != [] {
      assert run[0] in run;
      if run[0].Handle? {
        DriveSweepsNothing(q.db, run[0].pc, run[0].script, 0);
      }
      UnsweptFrom(Take(q, run[0]), run[1..]);
    }
  }

  /** Without sweeps no route outlives its row's running and destroying. */
  lemma UnsweptIndexIsStrict(run: seq<Turn>)
    requires IsServedRun(QUIET, run) && forall turn | turn in run :: !turn.Swept?
    ensures Strict(AfterTurns(QUIET, run).db)
  {
    RouteIndexAgrees(run);
    UnsweptFrom(QUIET, run);
    var db := AfterTurns(QUIET, run).db;
    forall app | app in db.routes ensures Routable(db.rows[db.routes[app].sandbox]) {
      assert RouteFits(db, app);
    }
  }
}
