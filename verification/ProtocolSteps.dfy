/** One step of one handler keeps the invariant. */
module ProtocolSteps {
  import opened Wrappers
  import opened Models
  import opened Protocol
  import opened ProtocolInvariant

  /** The row a handler has claimed is still where it left it. */
  predicate ClaimHolds(db: Db, pc: Pc) {
    Claim(pc).Some? && Claim(pc).value in db.rows ==> Claimable(db.rows[Claim(pc).value].state)
  }

  /** A compare-and-swap that hits makes an allowed change. */
  predicate CasFits(db: Db, id: SandboxId, from: State, to: State) {
    id in db.rows && db.rows[id].state == from ==>
      && from != Destroyed && Allowed(Change(from, to, ByHandler))
      && (db.rows[id].node.None? ==> to == Pending || to == Destroyed)
  }

  /** What a call must satisfy to keep the tables consistent. */
  predicate CallFits(db: Db, call: Call) {
    match call
    case Cas(id, from, to) => CasFits(db, id, from, to)
    case Create(kind, id, _, _, entered, goal) =>
      KindFits(kind, goal) && (id in db.rows ==> Stamped(db.rows[id], entered, goal))
    case Finish(c, status) => c in db.cmds ==> Settles(db, c) || BadAck(db.cmds[c].kind, status)
    case _ => true
  }

  lemma PatchingKeeps(db: Db, call: Call, ch: Choice)
    requires DbOk(db) && (call.Increment? || call.ResetFailures? || call.SetRuntime?)
    ensures var db' := Do(db, call, ch).db; Grows(db, db') && DbOk(db')
  {
    var id := call.id;
    if !ch.fails && id in db.rows {
      PatchKeeps(db, id, Do(db, call, ch).db.rows[id]);
    }
  }

  lemma DoKeeps(db: Db, call: Call, ch: Choice)
    requires DbOk(db) && CallFits(db, call)
    ensures var db' := Do(db, call, ch).db; Grows(db, db') && DbOk(db')
  {
    if call.Increment? || call.ResetFailures? || call.SetRuntime? {
      PatchingKeeps(db, call, ch);
    } else if !ch.fails {
      match call {
        case Cas(id, from, to) => CasKeeps(db, id, from, to);
        case AssignTo(id, node) => AssignKeeps(db, id, node);
        case Create(kind, id, target, delay, entered, goal) =>
          CreateKeeps(db, ch.cmd, kind, id, target, delay, entered, goal);
        case Finish(c, status) => FinishKeeps(db, c, status);
        case Delete(id) => DeleteKeeps(db, id);
        case Insert(id, app, memoryMB) => InsertKeeps(db, id, app, memoryMB);
        case _ =>
      }
    }
  }

  lemma RowFacts(db: Db, id: SandboxId)
    requires DbOk(db) && id in db.rows
    ensures db.rows[id].node.None? ==> db.rows[id].state == Pending || db.rows[id].state == Destroyed
  {
    assert RowOk(db.rows[id]);
  }

  lemma EdgesOf(s: State, e: Event)
    ensures NextState(s, e).Some? ==> IsEdge(s, NextState(s, e).value) && s != Destroyed
  {
  }

  lemma AckCallFits(db: Db, pc: AckPc)
    requires DbOk(db) && AckOk(db, pc)
    ensures CallFits(db, AckCall(pc))
  {
    if pc.AckCas? {
      if pc.id in db.rows { RowFacts(db, pc.id); }
      EdgesOf(pc.sb.state, pc.event);
    }
  }

  /** In particular the compare-and-swap from the stale running row of an exhausted crash cannot hit. */
  lemma EventCallFits(db: Db, pc: EventPc)
    requires DbOk(db) && EventOk(db, pc) && ClaimHolds(db, InEvent(pc))
    ensures CallFits(db, EventCall(pc))
  {
    if pc.id in db.rows { RowFacts(db, pc.id); }
  }

  lemma RequestCallFits(db: Db, pc: RequestPc)
    requires DbOk(db) && RequestOk(pc)
    ensures CallFits(db, RequestCall(pc))
  {
    if pc.id in db.rows { RowFacts(db, pc.id); }
    if pc.DestroyCas? { EdgesOf(pc.sb.state, EvDestroyRequest); }
  }

  lemma LoopCallFits(db: Db, pc: LoopPc)
    requires DbOk(db) && LoopOk(db, pc)
    ensures CallFits(db, LoopCall(pc))
  {
    if pc.id in db.rows { RowFacts(db, pc.id); }
  }

  /** What each handler knows is enough for its next call. */
  lemma PcCallFits(db: Db, pc: Pc)
    requires DbOk(db) && PcOk(db, pc) && ClaimHolds(db, pc)
    ensures CallFits(db, CallOf(pc))
  {
    match pc {
      case InAck(ack) => AckCallFits(db, ack);
      case InEvent(event) => EventCallFits(db, event);
      case InRequest(request) => RequestCallFits(db, request);
      case InLoop(loop) => LoopCallFits(db, loop);
      case _ =>
    }
  }

  lemma CallKeeps(db: Db, pc: Pc, ch: Choice)
    requires DbOk(db) && PcOk(db, pc) && ClaimHolds(db, pc)
    ensures var db' := Called(db, pc, ch).db; Grows(db, db') && DbOk(db')
  {
    PcCallFits(db, pc);
    var o := Do(db, CallOf(pc), ch);
    DoKeeps(db, CallOf(pc), ch);
    if Drops(db, pc, o.reply) {
      LosingKeeps(o.db, o.db.lost + {pc.id});
      GrowsTransitive(db, o.db, o.db.(lost := o.db.lost + {pc.id}));
    }
  }

  // ---------------------------------------------------------------- the continuation

  /** What a reply says about the table it comes from. */
  predicate Truthful(db: Db, call: Call, reply: Reply) {
    && (reply.GotRow? ==> reply.id in db.rows && db.rows[reply.id] == reply.row)
    && (reply.GotRow? ==>
          match call
          case Get(id) => reply.id == id
          case Cas(id, _, to) => reply.id == id && reply.row.state == to
          case AssignTo(id, node) => reply.id == id && reply.row.state == Starting
          case Increment(id) => reply.id == id && reply.row.failures >= 1
          case _ => true)
  }

  lemma ReplyIsTruthful(db: Db, call: Call, ch: Choice)
    ensures Truthful(Do(db, call, ch).db, call, Do(db, call, ch).reply)
  {
  }

  lemma StampNow(db: Db, id: SandboxId)
    requires DbOk(db) && id in db.rows
    ensures id in db.born && Stamped(db.rows[id], db.rows[id].version, db.rows[id].state)
    ensures db.rows[id].node.None? ==> db.rows[id].state == Pending || db.rows[id].state == Destroyed
  {
    assert RowOk(db.rows[id]);
  }

  predicate NextOk(db: Db, next: Option<Pc>) { next.Some? ==> PcOk(db, next.value) }

  /** After its compare-and-swap, hit or missed, an acknowledgement's row has left the state the
      command was issued for. */
  lemma AckCasSettles(db: Db, pc: AckPc)
    requires DbOk(db) && AckOk(db, pc) && pc.AckCas?
    ensures Settles(DoCas(db, pc.id, pc.sb.state, pc.to).db, pc.cmd)
  {
    assert CmdOk(db.rows, db.born, db.lost, db.cmds[pc.cmd]);
  }

  lemma AckSettled(db: Db, c: CmdId, id: SandboxId, sb: Row, event: Event, info: Runtime)
    requires CmdIs(db, c, id) && Settles(db, c) && AckMeans(event, Target(event))
    ensures AckOk(db, Settled(c, id, sb, event, info))
  {
  }

  /** The row is at the target already: its command can wait for nothing any more. */
  lemma AckReadSettles(db: Db, pc: AckPc, event: Event)
    requires DbOk(db) && AckOk(db, pc) && pc.AckRead? && pc.id in db.rows
    requires AckEvent(pc.kind, pc.status, db.rows[pc.id].state) == Some(event)
    requires NextState(db.rows[pc.id].state, event).None? && db.rows[pc.id].state == Target(event)
    ensures AckOk(db, Settled(pc.cmd, pc.id, db.rows[pc.id], event, pc.info))
  {
    assert CmdOk(db.rows, db.born, db.lost, db.cmds[pc.cmd]);
    assert Settles(db, pc.cmd);
    AckSettled(db, pc.cmd, pc.id, db.rows[pc.id], event, pc.info);
  }

  /** A command is settled, or its row is still where it waits. */
  lemma SettlesOrWaits(db: Db, c: CmdId)
    requires DbOk(db) && c in db.cmds && db.cmds[c].sandbox in db.rows
    ensures Settles(db, c) || db.rows[db.cmds[c].sandbox].state == db.cmds[c].goal
  {
    assert CmdOk(db.rows, db.born, db.lost, db.cmds[c]);
  }

  lemma AckEventMeans(kind: CmdKind, status: AckStatus, state: State, event: Event, to: State)
    requires AckEvent(kind, status, state) == Some(event) && NextState(state, event) == Some(to)
    ensures AckMeans(event, to)
  {
  }

  lemma AckReadMoves(db: Db, pc: AckPc, event: Event, to: State)
    requires DbOk(db) && AckOk(db, pc) && pc.AckRead? && pc.id in db.rows
    requires AckEvent(pc.kind, pc.status, db.rows[pc.id].state) == Some(event)
    requires NextState(db.rows[pc.id].state, event) == Some(to)
    ensures AckOk(db, AckCas(pc.cmd, pc.id, db.rows[pc.id], event, to, pc.info))
  {
    SettlesOrWaits(db, pc.cmd);
    AckEventMeans(pc.kind, pc.status, db.rows[pc.id].state, event, to);
  }

  lemma AckReadNext(db: Db, pc: AckPc)
    requires DbOk(db) && AckOk(db, pc) && pc.AckRead? && pc.id in db.rows
    ensures var next := AckResume(pc, GotRow(pc.id, db.rows[pc.id])); next.Some? ==> AckOk(db, next.value)
  {
    var sb := db.rows[pc.id];
    var event := AckEvent(pc.kind, pc.status, sb.state);
    if event.None? {
      assert CmdOk(db.rows, db.born, db.lost, db.cmds[pc.cmd]);
    } else if NextState(sb.state, event.value).Some? {
      AckReadMoves(db, pc, event.value, NextState(sb.state, event.value).value);
    } else if sb.state == Target(event.value) {
      AckReadSettles(db, pc, event.value);
    }
  }

  /** HandleAck: once the command is settled, the handler only carries that fact along. */
  lemma AckNext(db: Db, pc: AckPc, reply: Reply)
    requires AckOk(db, pc) && !pc.AckRead? && !pc.AckCas?
    ensures var next := AckResume(pc, reply); next.Some? ==> AckOk(db, next.value)
  {
    if pc.AckRefresh? && reply.GotRow? {
      AckSettled(db, pc.cmd, pc.id, reply.row, pc.event, pc.info);
    }
  }

  lemma CrashNext(db: Db, pc: EventPc, reply: Reply)
    requires DbOk(db) && EventOk(db, pc) && Truthful(db, EventCall(pc), reply)
    requires pc.CrashIncrement? || pc.CrashFail? || pc.CrashRestart?
    ensures NextOk(db, EventResume(pc, reply))
  {
    if reply.GotRow? { StampNow(db, reply.id); }
  }

  lemma EventReadNext(db: Db, pc: EventPc, reply: Reply)
    requires DbOk(db) && EventOk(db, pc) && Truthful(db, EventCall(pc), reply) && pc.EventRead?
    ensures NextOk(db, EventResume(pc, reply))
  {
  }

  lemma EventNext(db: Db, pc: EventPc, reply: Reply)
    requires DbOk(db) && EventOk(db, pc) && Truthful(db, EventCall(pc), reply)
    ensures NextOk(db, EventResume(pc, reply))
  {
    if pc.CrashIncrement? || pc.CrashFail? || pc.CrashRestart? {
      CrashNext(db, pc, reply);
    } else if pc.EventRead? {
      EventReadNext(db, pc, reply);
    }
  }

  lemma DestroyReadNext(db: Db, pc: RequestPc, reply: Reply)
    requires DbOk(db) && RequestOk(pc) && Truthful(db, RequestCall(pc), reply) && pc.DestroyRead?
    ensures NextOk(db, RequestResume(pc, reply))
  {
    if reply.GotRow? { StampNow(db, reply.id); }
  }

  lemma DestroyCasNext(db: Db, pc: RequestPc, reply: Reply)
    requires DbOk(db) && RequestOk(pc) && Truthful(db, RequestCall(pc), reply) && pc.DestroyCas?
    ensures NextOk(db, RequestResume(pc, reply))
  {
    if reply.GotRow? { StampNow(db, reply.id); }
  }

  lemma WakeCasNext(db: Db, pc: RequestPc, reply: Reply)
    requires DbOk(db) && RequestOk(pc) && Truthful(db, RequestCall(pc), reply) && pc.WakeCas?
    ensures NextOk(db, RequestResume(pc, reply))
  {
    if reply.GotRow? { StampNow(db, reply.id); }
  }

  lemma RequestNext(db: Db, pc: RequestPc, reply: Reply)
    requires DbOk(db) && RequestOk(pc) && Truthful(db, RequestCall(pc), reply)
    ensures NextOk(db, RequestResume(pc, reply))
  {
    if pc.DestroyRead? {
      DestroyReadNext(db, pc, reply);
    } else if pc.DestroyCas? {
      DestroyCasNext(db, pc, reply);
    } else if pc.WakeCas? {
      WakeCasNext(db, pc, reply);
    } else if reply.GotRow? {
      StampNow(db, reply.id);
    }
  }

  lemma LoopNext(db: Db, pc: LoopPc, reply: Reply)
    requires DbOk(db) && LoopOk(db, pc) && Truthful(db, LoopCall(pc), reply)
    ensures NextOk(db, LoopResume(pc, reply))
  {
    if reply.GotRow? { StampNow(db, reply.id); }
  }

  lemma AckCasNext(db: Db, pc: AckPc, ch: Choice)
    requires DbOk(db) && AckOk(db, pc) && pc.AckCas?
    ensures var o := Do(db, AckCall(pc), ch);
            var next := AckResume(pc, o.reply); next.Some? ==> AckOk(o.db, next.value)
  {
    var o := Do(db, AckCall(pc), ch);
    if !ch.fails {
      AckCasSettles(db, pc);
      if o.reply.GotRow? { AckSettled(o.db, pc.cmd, pc.id, pc.sb, pc.event, pc.info); }
    }
  }

  lemma AckStep(db: Db, pc: AckPc, ch: Choice)
    requires DbOk(db) && AckOk(db, pc)
    requires var db' := Do(db, AckCall(pc), ch).db; Grows(db, db')
    ensures var o := Do(db, AckCall(pc), ch);
            var next := AckResume(pc, o.reply); next.Some? ==> AckOk(o.db, next.value)
  {
    var o := Do(db, AckCall(pc), ch);
    if pc.AckRead? {
      if o.reply.GotRow? { AckReadNext(db, pc); }
    } else if pc.AckCas? {
      AckCasNext(db, pc, ch);
    } else {
      AckOkStable(db, o.db, pc);
      AckNext(o.db, pc, o.reply);
    }
  }

  lemma AssignNext(db: Db, pc: Pc, reply: Reply)
    requires DbOk(db) && pc.Assign? && Truthful(db, CallOf(pc), reply)
    ensures NextOk(db, Resume(pc, reply))
  {
    if reply.GotRow? { StampNow(db, pc.id); }
  }

  lemma OtherNext(db: Db, pc: Pc, reply: Reply)
    requires DbOk(db) && PcOk(db, pc) && Truthful(db, CallOf(pc), reply) && !pc.InAck?
    ensures NextOk(db, Resume(pc, reply))
  {
    match pc {
      case InEvent(event) => EventNext(db, event, reply);
      case InRequest(request) => RequestNext(db, request, reply);
      case InLoop(loop) => LoopNext(db, loop, reply);
      case Assign(_, _) => AssignNext(db, pc, reply);
      case _ =>
    }
  }

  /** Whatever the reply, the handler again knows what it needs. */
  lemma NextPcOk(db: Db, pc: Pc, ch: Choice)
    requires DbOk(db) && PcOk(db, pc)
    requires var db' := Do(db, CallOf(pc), ch).db; Grows(db, db') && DbOk(db')
    ensures var o := Do(db, CallOf(pc), ch); NextOk(o.db, Resume(pc, o.reply))
  {
    var o := Do(db, CallOf(pc), ch);
    if pc.InAck? {
      AckStep(db, pc.ack, ch);
    } else {
      PcOkStable(db, o.db, pc);
      ReplyIsTruthful(db, CallOf(pc), ch);
      OtherNext(o.db, pc, o.reply);
    }
  }
}
