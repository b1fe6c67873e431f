/** Start acknowledgements racing with each other and with container_started events. */
module Race {
  import opened Wrappers
  import opened Models
  import opened Protocol

  /** A success acknowledgement of a start_sandbox command of sandbox id, not yet begun. */
  predicate StartAck(db: Db, id: SandboxId, pc: Pc) {
    && pc.InAck? && pc.ack.AckRead? && pc.ack.id == id && pc.ack.kind == StartCmd && pc.ack.status == AckSuccess
    && pc.ack.cmd in db.cmds
  }

  predicate StartedEvent(id: SandboxId, pc: Pc) { pc == InEvent(EventRead(id, EvStarted)) }

  /** Nothing but such handlers, on a row in starting. */
  ghost predicate Starters(s: Sys, id: SandboxId) {
    && id in s.db.rows && s.db.rows[id].state == Starting
    && s.threads != map[]
    && forall t | t in s.threads :: StartAck(s.db, id, s.threads[t]) || StartedEvent(id, s.threads[t])
  }

  /** Only handlers run, and no call fails. */
  predicate Undisturbed(run: seq<Action>) { forall a | a in run :: a.Run? && !a.ch.fails }

  predicate Carries(info: Runtime) { info.container != "" || info.port != 0 }

  /** The row's container id and port are those of this acknowledgement. */
  predicate Persisted(info: Runtime, row: Row) {
    && row.container == (if info.container == "" then None else Some(info.container))
    && row.port == (if info.port == 0 then None else Some(info.port))
  }

  ghost predicate FromAnAck(start: Sys, row: Row) {
    exists t :: t in start.threads && start.threads[t].InAck? && start.threads[t].ack.AckRead?
                && Carries(start.threads[t].ack.info) && Persisted(start.threads[t].ack.info, row)
  }

  /** Where handler t, an acknowledgement of command c with info, may be once it has begun. */
  predicate Acking(pc: AckPc, c: CmdId, id: SandboxId, info: Runtime, row: Row) {
    && pc.cmd == c && pc.id == id
    && match pc
       case AckRead(_, _, kind, status, i) => kind == StartCmd && status == AckSuccess && i == info
       case AckCas(_, _, sb, event, to, i) => sb.state == Starting && event == EvStarted && to == Running && i == info
       case AckRefresh(_, _, event, to, i) => event == EvStarted && to == Running && i == info && row.state == Running
       case AckPersist(_, _, _, i) => i == info && Carries(i) && row.state == Running
       case AckUnroute(_, _, _) => false
       case AckRoute(_, _, sb) => row.state == Running && (sb.failures == 0 ==> row.failures == 0)
       case AckFinish(_, _, status) => status == AckSuccess && row.state == Running && row.failures == 0
       case _ => row.state == Running
  }

  /** The acknowledgement has written its container id and port, if it carries any. */
  predicate PastPersist(pc: AckPc) {
    pc.AckRefetch? || pc.AckRoute? || pc.AckReset? || pc.AckFinish?
  }

  predicate Eventing(pc: EventPc, id: SandboxId) {
    || pc == EventRead(id, EvStarted)
    || (pc.EventCas? && pc.id == id && pc.sb.state == Starting && pc.to == Running)
  }

  /** One handler of the race: still on its way, or done with its command completed. */
  ghost predicate Racer(start: Sys, s: Sys, id: SandboxId, t: ThreadId)
    requires t in start.threads && id in s.db.rows
  {
    var row := s.db.rows[id];
    if start.threads[t].InAck? && start.threads[t].ack.AckRead? then
      var ack := start.threads[t].ack;
      && ack.cmd in s.db.cmds
      && (if t in s.threads
          then s.threads[t].InAck? && Acking(s.threads[t].ack, ack.cmd, id, ack.info, row)
          else s.db.cmds[ack.cmd].status == Completed && row.state == Running && row.failures == 0)
      && ((Carries(ack.info) && (t in s.threads ==> s.threads[t].InAck? && PastPersist(s.threads[t].ack)))
          ==> FromAnAck(start, row))
    else if t in s.threads then s.threads[t].InEvent? && Eventing(s.threads[t].event, id)
    else row.state == Running
  }

  predicate Acks(s: Sys, t: ThreadId) { t in s.threads && s.threads[t].InAck? && s.threads[t].ack.AckRead? }

  ghost predicate RaceOk(start: Sys, s: Sys, id: SandboxId) {
    && id in start.db.rows && id in s.db.rows
    && s.threads.Keys <= start.threads.Keys
    && (var first, row := start.db.rows[id], s.db.rows[id];
        && (row.state == Starting || row.state == Running)
        && row.version == (if row.state == Starting then first.version else first.version + 1)
        && row.node == first.node && row.app == first.app
        && (row.failures == first.failures || (row.failures == 0 && exists t :: t in start.threads && Acks(start, t)))
        && ((row.container == first.container && row.port == first.port) || FromAnAck(start, row)))
    && forall t | t in start.threads :: Racer(start, s, id, t)
  }

  lemma RaceBegins(s: Sys, id: SandboxId)
    requires Starters(s, id)
    ensures RaceOk(s, s, id)
  {
  }

  predicate StillCompleted(a: Db, b: Db, c: CmdId)
    requires c in a.cmds
  {
    c in b.cmds && (a.cmds[c].status == Completed ==> b.cmds[c].status == Completed)
  }

  /** What one call of a racing handler does to the row: it stays, or moves from starting to running,
      or takes over the container id and port of the acknowledgement. */
  lemma AckCallEffect(db: Db, pc: AckPc, ch: Choice, c: CmdId, id: SandboxId, info: Runtime)
    requires !ch.fails && id in db.rows && c in db.cmds && Acking(pc, c, id, info, db.rows[id])
    requires db.rows[id].state == Starting || db.rows[id].state == Running
    ensures var o := Called(db, InAck(pc), ch);
            && id in o.db.rows && o.db.rows[id].node == db.rows[id].node && o.db.rows[id].app == db.rows[id].app
            && (if pc.AckCas? && db.rows[id].state == Starting
                then o.db.rows[id].state == Running && o.db.rows[id].version == db.rows[id].version + 1
                else o.db.rows[id].state == db.rows[id].state && o.db.rows[id].version == db.rows[id].version)
            && o.db.rows[id].failures == (if pc.AckReset? then 0 else db.rows[id].failures)
            && (if pc.AckPersist? then Persisted(info, o.db.rows[id])
                else o.db.rows[id].container == db.rows[id].container && o.db.rows[id].port == db.rows[id].port)
            && c in o.db.cmds
            && (forall d | d in db.cmds :: StillCompleted(db, o.db, d))
            && (pc.AckFinish? ==> o.db.cmds[c].status == Completed)
  {
  }

  lemma AckContinues(db: Db, pc: AckPc, ch: Choice, c: CmdId, id: SandboxId, info: Runtime)
    requires !ch.fails && id in db.rows && c in db.cmds && Acking(pc, c, id, info, db.rows[id])
    requires db.rows[id].state == Starting || db.rows[id].state == Running
    ensures var o := Called(db, InAck(pc), ch);
            var next := AckResume(pc, o.reply);
            && id in o.db.rows
            && (if pc.AckFinish? then next.None?
                else next.Some? && Acking(next.value, c, id, info, o.db.rows[id]))
            && (next.Some? && PastPersist(next.value) && Carries(info) ==> PastPersist(pc) || pc.AckPersist?)
  {
    AckCallEffect(db, pc, ch, c, id, info);
  }

  lemma EventCallEffect(db: Db, pc: EventPc, ch: Choice, id: SandboxId)
    requires !ch.fails && id in db.rows && Eventing(pc, id)
    requires db.rows[id].state == Starting || db.rows[id].state == Running
    ensures var o := Called(db, InEvent(pc), ch);
            var next := Resume(InEvent(pc), o.reply);
            && id in o.db.rows && o.db.cmds == db.cmds
            && o.db.rows[id].node == db.rows[id].node && o.db.rows[id].app == db.rows[id].app
            && o.db.rows[id].container == db.rows[id].container && o.db.rows[id].port == db.rows[id].port
            && o.db.rows[id].failures == db.rows[id].failures
            && (if pc.EventCas? && db.rows[id].state == Starting
                then o.db.rows[id].state == Running && o.db.rows[id].version == db.rows[id].version + 1
                else o.db.rows[id].state == db.rows[id].state && o.db.rows[id].version == db.rows[id].version)
            && (if next.Some? then next.value.InEvent? && Eventing(next.value.event, id)
                else o.db.rows[id].state == Running)
  {
  }

  /** How one call may change what the other racers see. */
  ghost predicate Eases(start: Sys, a: Sys, b: Sys, id: SandboxId)
    requires id in a.db.rows
  {
    && id in b.db.rows
    && (a.db.rows[id].state == Running ==> b.db.rows[id].state == Running)
    && (a.db.rows[id].failures == 0 ==> b.db.rows[id].failures == 0)
    && (forall d | d in a.db.cmds :: StillCompleted(a.db, b.db, d))
    && (FromAnAck(start, a.db.rows[id]) ==> FromAnAck(start, b.db.rows[id]))
  }

  lemma OtherRacer(start: Sys, a: Sys, b: Sys, id: SandboxId, u: ThreadId)
    requires u in start.threads && id in a.db.rows && Racer(start, a, id, u) && Eases(start, a, b, id)
    requires u in a.threads <==> u in b.threads
    requires u in a.threads ==> a.threads[u] == b.threads[u]
    ensures Racer(start, b, id, u)
  {
  }

  lemma OthersRace(start: Sys, s: Sys, id: SandboxId, t: ThreadId, ch: Choice)
    requires RaceOk(start, s, id) && t in s.threads && Eases(start, s, Step(s, Run(t, ch)), id)
    ensures forall u | u in start.threads && u != t :: Racer(start, Step(s, Run(t, ch)), id, u)
  {
    forall u | u in start.threads && u != t ensures Racer(start, Step(s, Run(t, ch)), id, u) {
      assert Racer(start, s, id, u);
      OtherRacer(start, s, Step(s, Run(t, ch)), id, u);
    }
  }

  lemma SameRuntime(start: Sys, a: Row, b: Row)
    requires a.container == b.container && a.port == b.port && FromAnAck(start, a)
    ensures FromAnAck(start, b)
  {
    var u :| u in start.threads && start.threads[u].InAck? && start.threads[u].ack.AckRead?
             && Carries(start.threads[u].ack.info) && Persisted(start.threads[u].ack.info, a);
    assert Persisted(start.threads[u].ack.info, b);
  }

  lemma AckEases(start: Sys, s: Sys, id: SandboxId, t: ThreadId, ch: Choice)
    requires RaceOk(start, s, id) && t in s.threads && !ch.fails && s.threads[t].InAck?
    ensures Eases(start, s, Step(s, Run(t, ch)), id)
    ensures s.threads[t].ack.AckPersist? ==> FromAnAck(start, Step(s, Run(t, ch)).db.rows[id])
  {
    var s' := Step(s, Run(t, ch));
    assert Racer(start, s, id, t);
    var ack := start.threads[t].ack;
    AckCallEffect(s.db, s.threads[t].ack, ch, ack.cmd, id, ack.info);
    if s.threads[t].ack.AckPersist? {
      assert Persisted(ack.info, s'.db.rows[id]);
    } else if FromAnAck(start, s.db.rows[id]) {
      SameRuntime(start, s.db.rows[id], s'.db.rows[id]);
    }
  }

  lemma OwnAckRacer(start: Sys, s: Sys, id: SandboxId, t: ThreadId, ch: Choice)
    requires RaceOk(start, s, id) && t in s.threads && !ch.fails && s.threads[t].InAck?
    requires Eases(start, s, Step(s, Run(t, ch)), id)
    requires s.threads[t].ack.AckPersist? ==> FromAnAck(start, Step(s, Run(t, ch)).db.rows[id])
    ensures Racer(start, Step(s, Run(t, ch)), id, t)
  {
    assert Racer(start, s, id, t);
    var ack := start.threads[t].ack;
    AckCallEffect(s.db, s.threads[t].ack, ch, ack.cmd, id, ack.info);
    AckContinues(s.db, s.threads[t].ack, ch, ack.cmd, id, ack.info);
  }

  lemma AckRacer(start: Sys, s: Sys, id: SandboxId, t: ThreadId, ch: Choice)
    requires RaceOk(start, s, id) && t in s.threads && !ch.fails && s.threads[t].InAck?
    ensures RaceOk(start, Step(s, Run(t, ch)), id)
  {
    assert Racer(start, s, id, t);
    AckEases(start, s, id, t, ch);
    OwnAckRacer(start, s, id, t, ch);
    OthersRace(start, s, id, t, ch);
    var ack := start.threads[t].ack;
    AckCallEffect(s.db, s.threads[t].ack, ch, ack.cmd, id, ack.info);
  }

  lemma EventEases(start: Sys, s: Sys, id: SandboxId, t: ThreadId, ch: Choice)
    requires RaceOk(start, s, id) && t in s.threads && !ch.fails && s.threads[t].InEvent?
    ensures Eases(start, s, Step(s, Run(t, ch)), id) && Racer(start, Step(s, Run(t, ch)), id, t)
  {
    assert Racer(start, s, id, t);
    EventCallEffect(s.db, s.threads[t].event, ch, id);
    if FromAnAck(start, s.db.rows[id]) {
      SameRuntime(start, s.db.rows[id], Step(s, Run(t, ch)).db.rows[id]);
    }
  }

  lemma EventRacer(start: Sys, s: Sys, id: SandboxId, t: ThreadId, ch: Choice)
    requires RaceOk(start, s, id) && t in s.threads && !ch.fails && s.threads[t].InEvent?
    ensures RaceOk(start, Step(s, Run(t, ch)), id)
  {
    assert Racer(start, s, id, t);
    EventEases(start, s, id, t, ch);
    OthersRace(start, s, id, t, ch);
    EventCallEffect(s.db, s.threads[t].event, ch, id);
  }

  lemma {:induction false} RaceGoesOn(start: Sys, s: Sys, id: SandboxId, run: seq<Action>)
    requires RaceOk(start, s, id) && IsRun(s, run) && Undisturbed(run)
    ensures RaceOk(start, After(s, run), id)
    decreases |run|
  {
    if run != [] {
      assert run[0] in run && run[0].t in start.threads;
      assert Racer(start, s, id, run[0].t);
      if s.threads[run[0].t].InAck? {
        AckRacer(start, s, id, run[0].t, run[0].ch);
      } else {
        EventRacer(start, s, id, run[0].t, run[0].ch);
      }
      RaceGoesOn(start, Step(s, run[0]), id, run[1..]);
    }
  }

  /** Confluence: whatever the interleaving, once all of them have returned the row is running one
      version later, every acknowledgement succeeded and completed its command, any of them has opened a new
      restart budget, and container id and port are those of one of the acknowledgements that carry any, or
      unchanged when none does. */
  lemma StartersAgree(start: Sys, id: SandboxId, run: seq<Action>)
    requires Starters(start, id) && IsRun(start, run) && Undisturbed(run)
    requires After(start, run).threads == map[]
    ensures var end := After(start, run);
            && id in end.db.rows
            && var first, row := start.db.rows[id], end.db.rows[id];
            && row.state == Running && row.version == first.version + 1 && row.node == first.node
            && (forall t | t in start.threads && start.threads[t].InAck? ::
                  start.threads[t].ack.cmd in end.db.cmds
                  && end.db.cmds[start.threads[t].ack.cmd].status == Completed)
            && row.failures == (if exists t :: t in start.threads && Acks(start, t) then 0 else first.failures)
            && (if exists t :: t in start.threads && start.threads[t].InAck? && start.threads[t].ack.AckRead?
                               && Carries(start.threads[t].ack.info)
                then FromAnAck(start, row)
                else row.container == first.container && row.port == first.port)
  {
    RaceBegins(start, id);
    RaceGoesOn(start, start, id, run);
    var end := After(start, run);
    var t :| t in start.threads;
    assert Racer(start, end, id, t);
    forall t | t in start.threads && start.threads[t].InAck?
      ensures start.threads[t].ack.cmd in end.db.cmds
              && end.db.cmds[start.threads[t].ack.cmd].status == Completed
    {
      assert Racer(start, end, id, t);
    }
    if t :| t in start.threads && Acks(start, t) {
      assert Racer(start, end, id, t);
    }
    if t :| t in start.threads && start.threads[t].InAck? && start.threads[t].ack.AckRead?
            && Carries(start.threads[t].ack.info)
    {
      assert Racer(start, end, id, t);
    }
  }
}
