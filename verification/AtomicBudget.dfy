/** With handlers run one at a time: the restart budget, and where start commands are sent. */
module AtomicBudget {
  import opened Wrappers
  import opened Models
  import opened Scheduler
  import opened Protocol
  import opened ProtocolInvariant
  import opened ProtocolSteps
  import opened ProtocolRuns
  import opened ProtocolTheorems
  import opened Atomic
  import opened AtomicRuns
  import EventOutcome

  function Sum(s: seq<nat>): nat { if s == [] then 0 else Sum(s[..|s|-1]) + s[|s|-1] }

  /** 5, 15 and 35 seconds after one, two and three restarts. */
  function Backoff(n: nat): nat
  {
    if n == 0 then 0 else Backoff(n - 1) + RestartDelay(n)
  }

  function Spendable(failures: nat): nat {
    if failures < MAX_RESTART_ATTEMPTS then failures else MAX_RESTART_ATTEMPTS
  }

  /** At most n restart commands since the last reset, waiting no longer in all than n restarts may. */
  predicate Within(row: Row, n: nat) { |row.restarts| <= n && Sum(row.restarts) <= Backoff(n) }

  predicate RowBudget(row: Row) { Within(row, Spendable(row.failures)) }

  /** The row is still in the starting or destroying it entered at this version. */
  predicate At(row: Row, entered: nat, goal: State) { Critical(goal) && row.version == entered && row.state == goal }

  /** A command for the current stay in starting or destroying goes to the row's node, and a command's timeout exceeds
      its delay by a minute. */
  predicate CmdPlaced(db: Db, cmd: Cmd) {
    && cmd.timeout == 60 + cmd.delay
    && (cmd.sandbox in db.rows && At(db.rows[cmd.sandbox], cmd.entered, cmd.goal) ==>
          db.rows[cmd.sandbox].node == Some(cmd.node))
  }

  ghost predicate BudgetOk(db: Db) {
    && (forall id | id in db.rows :: RowBudget(db.rows[id]))
    && (forall c | c in db.cmds :: CmdPlaced(db, db.cmds[c]))
  }

  predicate SameNode(db: Db, id: SandboxId, sb: Row) { id in db.rows ==> db.rows[id].node == sb.node }

  /** What handler pc, running alone, still knows about its row. */
  predicate Local(db: Db, pc: Pc) {
    match pc
    case InEvent(event) =>
      (match event
       case EventRead(_, _) => true
       case CrashRestart(id, sb, count) =>
         && SameNode(db, id, sb) && 1 <= count <= MAX_RESTART_ATTEMPTS
         && (id in db.rows ==> db.rows[id].failures == count && Within(db.rows[id], count - 1))
       case _ => SameNode(db, event.id, event.sb))
    case InRequest(request) => request.WakeCas? || request.DestroyCas? ==> SameNode(db, request.id, request.sb)
    case Issue(kind, id, node, delay, entered, goal, _) =>
      && (id in db.rows && At(db.rows[id], entered, goal) ==> db.rows[id].node == node)
      && (delay > 0 && id in db.rows ==>
            && 1 <= db.rows[id].failures <= MAX_RESTART_ATTEMPTS && delay == RestartDelay(db.rows[id].failures)
            && Within(db.rows[id], db.rows[id].failures - 1))
    case _ => true
  }

  lemma BudgetGrows(row: Row, n: nat)
    requires Within(row, n)
    ensures Within(row, n + 1)
  {
  }

  lemma RestartFits(row: Row, n: nat)
    requires n >= 1 && Within(row, n - 1)
    ensures Within(row.(restarts := row.restarts + [RestartDelay(n)]), n)
  {
    assert (row.restarts + [RestartDelay(n)])[..|row.restarts|] == row.restarts;
  }

  /** Changing one row, without bringing an old version back. */
  lemma RowChangeBudget(db: Db, id: SandboxId, row: Row)
    requires BudgetOk(db) && id in db.rows && RowBudget(row)
    requires forall c | c in db.cmds && db.cmds[c].sandbox == id && At(row, db.cmds[c].entered, db.cmds[c].goal) ::
               At(db.rows[id], db.cmds[c].entered, db.cmds[c].goal) && row.node == db.rows[id].node
    ensures BudgetOk(PutRow(db, id, row))
  {
    var b := PutRow(db, id, row);
    forall c | c in b.cmds ensures CmdPlaced(b, b.cmds[c]) { assert CmdPlaced(db, db.cmds[c]); }
  }

  /** A move gives the row a version no command has been issued for yet. */
  lemma MoveBudget(db: Db, id: SandboxId, row: Row)
    requires DbOk(db) && BudgetOk(db) && id in db.rows && db.rows[id].version < row.version
    requires row.failures == db.rows[id].failures && row.restarts == db.rows[id].restarts
    ensures BudgetOk(PutRow(db, id, row))
  {
    assert RowBudget(db.rows[id]);
    forall c | c in db.cmds && db.cmds[c].sandbox == id ensures db.cmds[c].entered < row.version {
      assert CmdOk(db.rows, db.born, db.lost, db.cmds[c]);
    }
    RowChangeBudget(db, id, row);
  }

  lemma CasBudget(db: Db, id: SandboxId, from: State, to: State)
    requires DbOk(db) && BudgetOk(db)
    ensures BudgetOk(DoCas(db, id, from, to).db)
  {
    if id in db.rows && db.rows[id].state == from {
      MoveBudget(db, id, db.rows[id].Move(to, ByHandler));
    }
  }

  lemma AssignBudget(db: Db, id: SandboxId, node: NodeId)
    requires DbOk(db) && BudgetOk(db)
    ensures BudgetOk(DoAssign(db, id, node).db)
  {
    if id in db.rows && db.rows[id].state == Pending {
      MoveBudget(db, id, DoAssign(db, id, node).reply.row);
    }
  }

  lemma PatchBudget(db: Db, id: SandboxId, row: Row)
    requires BudgetOk(db) && id in db.rows && RowBudget(row)
    requires row.version == db.rows[id].version && row.state == db.rows[id].state && row.node == db.rows[id].node
    ensures BudgetOk(PutRow(db, id, row))
  {
    RowChangeBudget(db, id, row);
  }

  lemma IncrementBudget(db: Db, id: SandboxId)
    requires BudgetOk(db)
    ensures BudgetOk(DoIncrement(db, id).db)
    ensures id in db.rows ==> Within(DoIncrement(db, id).db.rows[id], Spendable(db.rows[id].failures))
  {
    if id in db.rows {
      var row := db.rows[id].(failures := db.rows[id].failures + 1);
      BudgetGrows(row, Spendable(db.rows[id].failures));
      PatchBudget(db, id, row);
    }
  }

  lemma DeleteBudget(db: Db, id: SandboxId)
    requires BudgetOk(db)
    ensures BudgetOk(DoDelete(db, id).db)
  {
    var b := DoDelete(db, id).db;
    forall c | c in b.cmds ensures CmdPlaced(b, b.cmds[c]) { assert CmdPlaced(db, db.cmds[c]); }
  }

  lemma InsertBudget(db: Db, id: SandboxId, app: string, memoryMB: int)
    requires BudgetOk(db)
    ensures BudgetOk(DoInsert(db, id, app, memoryMB).db)
  {
    var b := DoInsert(db, id, app, memoryMB).db;
    forall c | c in b.cmds ensures CmdPlaced(b, b.cmds[c]) { assert CmdPlaced(db, db.cmds[c]); }
  }

  lemma PutCmdBudget(db: Db, c: CmdId, cmd: Cmd)
    requires BudgetOk(db) && CmdPlaced(db, cmd)
    ensures BudgetOk(db.(cmds := db.cmds[c := cmd]))
  {
    var b := db.(cmds := db.cmds[c := cmd]);
    forall d | d in b.cmds ensures CmdPlaced(b, b.cmds[d]) { assert d != c ==> CmdPlaced(db, db.cmds[d]); }
  }

  /** The restart a command is issued for, put on the row's record. */
  function Recorded(row: Row, delay: nat): Row {
    if delay > 0 then row.(restarts := row.restarts + [delay]) else row
  }

  lemma RecordedBudget(db: Db, id: SandboxId, delay: nat)
    requires BudgetOk(db) && id in db.rows
    requires var row := db.rows[id];
             delay > 0 ==> 1 <= row.failures <= MAX_RESTART_ATTEMPTS && delay == RestartDelay(row.failures)
                           && Within(row, row.failures - 1)
    ensures BudgetOk(PutRow(db, id, Recorded(db.rows[id], delay)))
  {
    var row := db.rows[id];
    assert RowBudget(row);
    if delay > 0 { RestartFits(row, row.failures); }
    PatchBudget(db, id, Recorded(row, delay));
  }

  lemma NewCmdBudget(db: Db, c: CmdId, cmd: Cmd)
    requires BudgetOk(db) && cmd.sandbox in db.rows && cmd.timeout == 60 + cmd.delay
    requires At(db.rows[cmd.sandbox], cmd.entered, cmd.goal)
             ==> db.rows[cmd.sandbox].node == Some(cmd.node)
    ensures BudgetOk(db.(cmds := db.cmds[c := cmd]))
  {
    PutCmdBudget(db, c, cmd);
  }

  lemma CreatedAre(db: Db, c: CmdId, kind: CmdKind, id: SandboxId, target: NodeId, delay: nat, entered: nat,
                   goal: State)
    requires id in db.rows && c !in db.cmds
    ensures DoCreate(db, c, kind, id, Some(target), delay, entered, goal).db
            == PutRow(db, id, Recorded(db.rows[id], delay))
               .(cmds := db.cmds[c := Cmd(kind, target, id, Queued, delay, 60 + delay, entered, goal)])
  {
  }

  lemma CreateBudget(db: Db, c: CmdId, kind: CmdKind, id: SandboxId, target: Option<NodeId>, delay: nat,
                     entered: nat, goal: State)
    requires BudgetOk(db) && Local(db, Issue(kind, id, target, delay, entered, goal, None))
    ensures BudgetOk(DoCreate(db, c, kind, id, target, delay, entered, goal).db)
  {
    if id in db.rows && target.Some? && c !in db.cmds {
      RecordedBudget(db, id, delay);
      var mid := PutRow(db, id, Recorded(db.rows[id], delay));
      NewCmdBudget(mid, c, Cmd(kind, target.value, id, Queued, delay, 60 + delay, entered, goal));
      CreatedAre(db, c, kind, id, target.value, delay, entered, goal);
    }
  }

  lemma FinishBudget(db: Db, c: CmdId, status: AckStatus)
    requires BudgetOk(db)
    ensures BudgetOk(DoFinish(db, c, status).db)
  {
    var b := DoFinish(db, c, status).db;
    forall d | d in b.cmds ensures CmdPlaced(b, b.cmds[d]) { assert CmdPlaced(db, db.cmds[d]); }
  }

  lemma SettingsBudget(db: Db, call: Call, ch: Choice)
    requires BudgetOk(db) && (call.ResetFailures? || call.SetRuntime?)
    ensures BudgetOk(Do(db, call, ch).db)
  {
    var id := call.id;
    if !ch.fails && id in db.rows {
      assert RowBudget(db.rows[id]);
      PatchBudget(db, id, Do(db, call, ch).db.rows[id]);
    }
  }

  lemma OtherBudget(a: Db, b: Db)
    requires BudgetOk(a) && b.rows == a.rows && b.cmds == a.cmds
    ensures BudgetOk(b)
  {
    forall c | c in b.cmds ensures CmdPlaced(b, b.cmds[c]) { assert CmdPlaced(a, a.cmds[c]); }
  }

  lemma DoBudget(db: Db, call: Call, ch: Choice)
    requires DbOk(db) && BudgetOk(db)
    requires call.Create?
             ==> Local(db, Issue(call.kind, call.id, call.target, call.delay, call.entered, call.goal, None))
    ensures BudgetOk(Do(db, call, ch).db)
  {
    if !ch.fails {
      match call {
        case Cas(id, from, to) => CasBudget(db, id, from, to);
        case AssignTo(id, node) => AssignBudget(db, id, node);
        case Increment(id) => IncrementBudget(db, id);
        case ResetFailures(_) => SettingsBudget(db, call, ch);
        case SetRuntime(_, _, _) => SettingsBudget(db, call, ch);
        case Create(kind, id, target, delay, entered, goal) =>
          CreateBudget(db, ch.cmd, kind, id, target, delay, entered, goal);
        case Finish(c, status) => FinishBudget(db, c, status);
        case Delete(id) => DeleteBudget(db, id);
        case Insert(id, app, memoryMB) => InsertBudget(db, id, app, memoryMB);
        case _ => OtherBudget(db, Do(db, call, ch).db);
      }
    }
  }

  // ---------------------------------------------------------------- the handlers

  lemma CrashLocal(db: Db, pc: EventPc, ch: Choice)
    requires BudgetOk(db) && Local(db, InEvent(pc)) && EventOk(db, pc)
    requires pc.CrashIncrement? || pc.CrashRestart?
    ensures var o := Do(db, EventCall(pc), ch); var next := EventResume(pc, o.reply);
            next.Some? ==> Local(o.db, next.value)
  {
    if pc.CrashIncrement? {
      IncrementBudget(db, pc.id);
    }
  }

  lemma EventLocal(db: Db, pc: EventPc, ch: Choice)
    requires BudgetOk(db) && Local(db, InEvent(pc)) && EventOk(db, pc)
    ensures var o := Do(db, EventCall(pc), ch); var next := EventResume(pc, o.reply);
            next.Some? ==> Local(o.db, next.value)
  {
    if pc.CrashIncrement? || pc.CrashRestart? { CrashLocal(db, pc, ch); }
  }

  lemma RequestLocal(db: Db, pc: RequestPc, ch: Choice)
    requires Local(db, InRequest(pc)) && RequestOk(pc)
    ensures var o := Do(db, RequestCall(pc), ch); var next := RequestResume(pc, o.reply);
            next.Some? ==> Local(o.db, next.value)
  {
  }

  lemma NextLocal(db: Db, pc: Pc, ch: Choice)
    requires BudgetOk(db) && Local(db, pc) && PcOk(db, pc)
    ensures var o := Called(db, pc, ch); var next := Resume(pc, o.reply);
            next.Some? ==> Local(o.db, next.value)
  {
    match pc {
      case InEvent(event) => EventLocal(db, event, ch);
      case InRequest(request) => RequestLocal(db, request, ch);
      case _ =>
    }
  }

  lemma CallBudget(db: Db, pc: Pc, ch: Choice)
    requires DbOk(db) && BudgetOk(db) && Local(db, pc)
    ensures BudgetOk(Called(db, pc, ch).db)
  {
    DoBudget(db, CallOf(pc), ch);
    OtherBudget(Do(db, CallOf(pc), ch).db, Called(db, pc, ch).db);
  }

  lemma {:induction false} DriveBudget(db: Db, pc: Pc, script: nat -> Choice, clock: nat)
    requires DbOk(db) && PcOk(db, pc) && ClaimHolds(db, pc) && BudgetOk(db) && Local(db, pc)
    ensures BudgetOk(Drive(db, pc, script, clock).db)
    decreases Rank(pc)
  {
    var ch := script(clock);
    var o := Called(db, pc, ch);
    CallBudget(db, pc, ch);
    NextLocal(db, pc, ch);
    RankDecreases(pc, o.reply);
    if Resume(pc, o.reply).Some? {
      AloneNext(db, pc, ch);
      DriveBudget(o.db, Resume(pc, o.reply).value, script, clock + 1);
    }
  }

  // ---------------------------------------------------------------- whole runs

  lemma TurnBudget(q: Quiet, turn: Turn)
    requires Inv(Sys(q.db, map[])) && TurnEnabled(q, turn) && BudgetOk(q.db)
    ensures BudgetOk(Take(q, turn).db)
  {
    match turn {
      case Handle(pc, script) =>
        StepKeeps(Sys(q.db, map[]), Spawn(0, pc));
        assert Step(Sys(q.db, map[]), Spawn(0, pc)).threads[0] == pc;
        DriveBudget(q.db, pc, script, 0);
      case Poll(cmd) =>
        assert CmdPlaced(q.db, q.db.cmds[cmd]);
        PutCmdBudget(q.db, cmd, q.db.cmds[cmd].(status := Dispatched));
      case Nodes(_) => OtherBudget(q.db, Take(q, turn).db);
      case Swept(id, author) =>
        assert RowBudget(q.db.rows[id]);
        RowChangeBudget(q.db, id, q.db.rows[id].Move(Destroyed, author));
    }
  }

  lemma {:induction false} BudgetFrom(q: Quiet, run: seq<Turn>)
    requires Inv(Sys(q.db, map[])) && IsQuietRun(q, run) && BudgetOk(q.db)
    ensures BudgetOk(AfterTurns(q, run).db)
    decreases |run|
  {
    if run != [] {
      TurnKeeps(q, run[0]);
      TurnBudget(q, run[0]);
      BudgetFrom(Take(q, run[0]), run[1..]);
    }
  }

  /** After any run of handlers one at a time, with sweeps between them, whichever calls fail: since its failure_count
      was last reset a row has had at most three restart commands, and no more than its failure_count, waiting at most
      35 seconds in all; a command's timeout exceeds its delay by 60 seconds; and a command for the row's current stay
      in starting or destroying goes to the row's node. */
  lemma RestartsAreBudgeted(run: seq<Turn>)
    requires IsQuietRun(QUIET, run)
    ensures var db := AfterTurns(QUIET, run).db;
            && (forall id | id in db.rows :: |db.rows[id].restarts| <= 3
                  && |db.rows[id].restarts| <= db.rows[id].failures && Sum(db.rows[id].restarts) <= 35)
            && (forall c | c in db.cmds :: db.cmds[c].timeout == db.cmds[c].delay + 60)
            && (forall c | c in db.cmds && db.cmds[c].sandbox in db.rows
                  && At(db.rows[db.cmds[c].sandbox], db.cmds[c].entered, db.cmds[c].goal) ::
                    db.rows[db.cmds[c].sandbox].node == Some(db.cmds[c].node))
  {
    BudgetFrom(QUIET, run);
    InvAfterTurns(QUIET, run);
    var db := AfterTurns(QUIET, run).db;
    forall id | id in db.rows ensures |db.rows[id].restarts| <= 3
      && |db.rows[id].restarts| <= db.rows[id].failures && Sum(db.rows[id].restarts) <= 35
    {
      assert RowBudget(db.rows[id]);
      BackoffIsAtMost35(Spendable(db.rows[id].failures));
    }
  }

  lemma BackoffIsAtMost35(n: nat)
    requires n <= MAX_RESTART_ATTEMPTS
    ensures Backoff(n) <= 35
  {
    assert Backoff(1) == 5 && Backoff(2) == 15;
    assert RestartDelay(3) == 2 * RestartDelay(2);
    assert Backoff(3) == Backoff(2) + RestartDelay(3);
  }

  lemma {:induction false} InvAfterTurns(q: Quiet, run: seq<Turn>)
    requires Inv(Sys(q.db, map[])) && IsQuietRun(q, run)
    ensures Inv(Sys(AfterTurns(q, run).db, map[]))
    decreases |run|
  {
    if run != [] {
      TurnKeeps(q, run[0]);
      InvAfterTurns(Take(q, run[0]), run[1..]);
    }
  }

  // ---------------------------------------------------------------- the command a starting row waits for

  /** Whichever calls fail: a row in starting whose command was not lost has an unacknowledged start command, issued
      since it got there, on its own node. */
  lemma StartingRowHasItsCommand(run: seq<Turn>, id: SandboxId)
    requires IsQuietRun(QUIET, run)
    requires id in AfterTurns(QUIET, run).db.rows && AfterTurns(QUIET, run).db.rows[id].state == Starting
    requires id !in AfterTurns(QUIET, run).db.lost
    ensures var db := AfterTurns(QUIET, run).db;
            exists c | c in db.cmds ::
              && db.cmds[c].kind == StartCmd && Awaits(db.cmds[c], id, db.rows[id])
              && db.rows[id].node == Some(db.cmds[c].node)
  {
    InvAfterTurns(QUIET, run);
    RestartsAreBudgeted(run);
    var db := AfterTurns(QUIET, run).db;
    assert Covered(Sys(db, map[]), id);
    var c :| c in db.cmds && Awaits(db.cmds[c], id, db.rows[id]);
    assert CmdOk(db.rows, db.born, db.lost, db.cmds[c]);
  }

  /** Whichever calls fail: a row in destroying whose command was not lost has an unacknowledged stop command, issued
      since it got there, on its own node. */
  lemma DestroyingRowHasItsCommand(run: seq<Turn>, id: SandboxId)
    requires IsQuietRun(QUIET, run)
    requires id in AfterTurns(QUIET, run).db.rows && AfterTurns(QUIET, run).db.rows[id].state == Destroying
    requires id !in AfterTurns(QUIET, run).db.lost
    ensures var db := AfterTurns(QUIET, run).db;
            exists c | c in db.cmds ::
              && db.cmds[c].kind == StopCmd && Awaits(db.cmds[c], id, db.rows[id])
              && db.rows[id].node == Some(db.cmds[c].node)
  {
    InvAfterTurns(QUIET, run);
    RestartsAreBudgeted(run);
    var db := AfterTurns(QUIET, run).db;
    assert Covered(Sys(db, map[]), id);
    var c :| c in db.cmds && Awaits(db.cmds[c], id, db.rows[id]);
    assert CmdOk(db.rows, db.born, db.lost, db.cmds[c]);
  }

  /** Every command the handler issues is created. */
  predicate Issued(db: Db, pc: Pc, script: nat -> Choice, clock: nat)
    decreases Rank(pc)
  {
    var o := Called(db, pc, script(clock));
    var next := Resume(pc, o.reply);
    RankDecreases(pc, o.reply);
    && (pc.Issue? ==> !script(clock).fails && script(clock).cmd !in db.cmds)
    && (next.Some? ==> Issued(o.db, next.value, script, clock + 1))
  }

  /** The turn loses no command: it creates those it issues, and acknowledges starts with success or failure and stops
      with success. */
  predicate LosesNone(q: Quiet, turn: Turn) {
    turn.Handle? ==>
      && Issued(q.db, turn.pc, turn.script, 0)
      && (turn.pc.InAck? && turn.pc.ack.AckRead? ==> !BadAck(turn.pc.ack.kind, turn.pc.ack.status))
  }

  predicate IsFullRun(q: Quiet, run: seq<Turn>)
    decreases |run|
  {
    run == [] || (TurnEnabled(q, run[0]) && LosesNone(q, run[0]) && IsFullRun(Take(q, run[0]), run[1..]))
  }

  lemma CallLosesNothing(db: Db, pc: Pc, ch: Choice)
    requires PcOk(db, pc) && (pc.InAck? ==> CleanAck(db, pc.ack))
    requires pc.Issue? ==> !ch.fails && ch.cmd !in db.cmds
    ensures Called(db, pc, ch).db.lost == db.lost
  {
    if pc.Issue? {
      CleanIssueLosesNothing(db, pc, ch);
    } else if pc.InAck? {
      CleanAckLosesNothing(db, pc.ack, ch);
    } else {
      OthersLoseNothing(db, pc, ch);
    }
  }

  lemma {:induction false} DriveLosesNothing(db: Db, pc: Pc, script: nat -> Choice, clock: nat)
    requires DbOk(db) && PcOk(db, pc) && ClaimHolds(db, pc) && Issued(db, pc, script, clock)
    requires pc.InAck? ==> CleanAck(db, pc.ack)
    ensures Drive(db, pc, script, clock).db.lost == db.lost
    decreases Rank(pc)
  {
    var ch := script(clock);
    var o := Called(db, pc, ch);
    var next := Resume(pc, o.reply);
    CallLosesNothing(db, pc, ch);
    RankDecreases(pc, o.reply);
    AloneNext(db, pc, ch);
    if next.Some? {
      CallKeeps(db, pc, ch);
      if next.value.InAck? {
        OnlyAcksLeadToAcks(pc, o.reply);
        CleanAckNext(db, pc.ack, o.reply);
        CleanAckStable(db, o.db, next.value.ack);
      }
      DriveLosesNothing(o.db, next.value, script, clock + 1);
    }
  }

  lemma {:induction false} FullRunLosesNothing(q: Quiet, run: seq<Turn>)
    requires Inv(Sys(q.db, map[])) && q.db.lost == {} && IsFullRun(q, run)
    ensures IsQuietRun(q, run) && AfterTurns(q, run).db.lost == {}
    decreases |run|
  {
    if run != [] {
      TurnKeeps(q, run[0]);
      if run[0].Handle? {
        StepKeeps(Sys(q.db, map[]), Spawn(0, run[0].pc));
        assert Step(Sys(q.db, map[]), Spawn(0, run[0].pc)).threads[0] == run[0].pc;
        DriveLosesNothing(q.db, run[0].pc, run[0].script, 0);
      }
      FullRunLosesNothing(Take(q, run[0]), run[1..]);
    }
  }

  /** No orphaned start, handlers one at a time: when no command is lost, every row in starting has an unacknowledged
      start command on its own node. */
  lemma NoOrphanedStart(run: seq<Turn>, id: SandboxId)
    requires IsFullRun(QUIET, run)
    requires id in AfterTurns(QUIET, run).db.rows && AfterTurns(QUIET, run).db.rows[id].state == Starting
    ensures var db := AfterTurns(QUIET, run).db;
            exists c | c in db.cmds ::
              && db.cmds[c].kind == StartCmd && Awaits(db.cmds[c], id, db.rows[id])
              && db.rows[id].node == Some(db.cmds[c].node)
  {
    FullRunLosesNothing(QUIET, run);
    StartingRowHasItsCommand(run, id);
  }

  /** No orphaned destroy: nor is any row in destroying without an unacknowledged stop command on its own node. */
  lemma NoOrphanedDestroy(run: seq<Turn>, id: SandboxId)
    requires IsFullRun(QUIET, run)
    requires id in AfterTurns(QUIET, run).db.rows && AfterTurns(QUIET, run).db.rows[id].state == Destroying
    ensures var db := AfterTurns(QUIET, run).db;
            exists c | c in db.cmds ::
              && db.cmds[c].kind == StopCmd && Awaits(db.cmds[c], id, db.rows[id])
              && db.rows[id].node == Some(db.cmds[c].node)
  {
    FullRunLosesNothing(QUIET, run);
    DestroyingRowHasItsCommand(run, id);
  }

  // ---------------------------------------------------------------- exhaustion

  /** HandleCrash on a row with a spent budget moves it to failed exactly when it was handed the state the
      row is still in; otherwise the row keeps its state. Either way no command is issued. */
  lemma SpentCrashFailsIffRowIsCurrent(db: Db, id: SandboxId, sb: Row, script: nat -> Choice, clock: nat)
    requires id in db.rows && db.rows[id].failures >= 3 && db.rows[id].state != Failed
    requires NoFailure(script)
    ensures var db' := Drive(db, InEvent(CrashIncrement(id, sb)), script, clock).db;
            && id in db'.rows && db'.cmds == db.cmds
            && (db'.rows[id].state == Failed <==> db.rows[id].state == sb.state)
            && (db.rows[id].state != sb.state ==>
                  db'.rows[id].state == db.rows[id].state && db'.rows[id].version == db.rows[id].version)
  {
    var pc := InEvent(CrashIncrement(id, sb));
    DriveOnce(db, pc, script, clock);
    var o := Called(db, pc, script(clock));
    assert !script(clock).fails && !script(clock + 1).fails;
    DriveOnce(o.db, InEvent(CrashFail(id, sb)), script, clock + 1);
  }

  /** Through the event handler, which hands over the row as it was before moving it to restarting, a
      crash with a spent budget therefore leaves the row in restarting, with its route gone and without
      any command that could start it again. */
  lemma SpentBudgetStaysRestarting(db: Db, id: SandboxId, script: nat -> Choice)
    requires id in db.rows && db.rows[id].state == Running && db.rows[id].failures >= 3
    requires NoFailure(script)
    ensures var db' := Drive(db, InEvent(EventRead(id, EvContainerExited)), script, 0).db;
            && id in db'.rows && db'.rows[id].state == Restarting
            && db'.rows[id].version == db.rows[id].version + 1
            && db'.rows[id].failures == db.rows[id].failures + 1
            && db'.cmds == db.cmds && db'.routes == db.routes - {db.rows[id].app}
  {
    EventOutcome.EventOutcome(db, id, EvContainerExited, script, 0);
  }

  /** A restarting row ignores every further container event. */
  lemma RestartingIgnoresEvents(db: Db, id: SandboxId, event: Event, script: nat -> Choice)
    requires id in db.rows && db.rows[id].state == Restarting
    requires event == EvContainerExited || event == EvStarted
    ensures Drive(db, InEvent(EventRead(id, event)), script, 0).db == db
  {
    EventOutcome.EventOutcome(db, id, event, script, 0);
  }
}
