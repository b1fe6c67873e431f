/** What one acknowledgement, handled alone and without failing calls, does in the end. */
module AckOutcome {
  import opened Wrappers
  import opened Models
  import opened Protocol
  import opened ProtocolInvariant
  import opened Atomic
  import opened AtomicRuns
  import opened AtomicRoutes

  /** The part of HandleAck after the row is at its target state. */
  predicate Closing(pc: AckPc) { !pc.AckRead? && !pc.AckCas? && !pc.AckRefresh? }

  lemma ClosingStep(db: Db, pc: AckPc, ch: Choice, id: SandboxId)
    requires Closing(pc) && id in db.rows && pc.cmd in db.cmds && !ch.fails
    ensures var o := Called(db, InAck(pc), ch); var next := AckResume(pc, o.reply);
            && Resume(InAck(pc), o.reply) == (if next.Some? then Some(InAck(next.value)) else None)
            && id in o.db.rows && o.db.rows[id].state == db.rows[id].state
            && o.db.rows[id].version == db.rows[id].version
            && pc.cmd in o.db.cmds
            && (if next.None? then !o.db.cmds[pc.cmd].Unacked() else Closing(next.value) && next.value.cmd == pc.cmd)
  {
  }

  /** It moves no row, and always acknowledges the command. */
  lemma {:induction false} ClosingAcks(db: Db, pc: AckPc, script: nat -> Choice, clock: nat, id: SandboxId)
    requires Closing(pc) && id in db.rows && pc.cmd in db.cmds && NoFailure(script)
    ensures var db' := Drive(db, InAck(pc), script, clock).db;
            && id in db'.rows && db'.rows[id].state == db.rows[id].state && db'.rows[id].version == db.rows[id].version
            && pc.cmd in db'.cmds && !db'.cmds[pc.cmd].Unacked()
    decreases Rank(InAck(pc))
  {
    var o := Called(db, InAck(pc), script(clock));
    ClosingStep(db, pc, script(clock), id);
    RankDecreases(InAck(pc), o.reply);
    var next := AckResume(pc, o.reply);
    if next.Some? {
      ClosingAcks(o.db, next.value, script, clock + 1, id);
    }
  }

  lemma CasHits(db: Db, pc: AckPc, ch: Choice)
    requires pc.AckCas? && !ch.fails && pc.id in db.rows && db.rows[pc.id] == pc.sb && pc.cmd in db.cmds
    ensures var o := Called(db, InAck(pc), ch);
            && Resume(InAck(pc), o.reply) == Some(InAck(Settled(pc.cmd, pc.id, pc.sb, pc.event, pc.info)))
            && pc.id in o.db.rows && o.db.rows[pc.id].state == pc.to
            && o.db.rows[pc.id].version == pc.sb.version + 1 && pc.cmd in o.db.cmds
  {
  }

  /** Acknowledging the command a row in starting or destroying awaits always settles the command, and
      leaves the row behind exactly when the acknowledgement is bad: a start acknowledged with neither
      success nor failure, or a stop acknowledged with anything but success. */
  lemma AckOrphansIffBad(db: Db, c: CmdId, id: SandboxId, status: AckStatus, info: Runtime, script: nat -> Choice)
    requires id in db.rows && Critical(db.rows[id].state)
    requires c in db.cmds && Awaits(db.cmds[c], id, db.rows[id]) && KindFits(db.cmds[c].kind, db.cmds[c].goal)
    requires NoFailure(script)
    ensures var db' := Drive(db, InAck(AckRead(c, id, db.cmds[c].kind, status, info)), script, 0).db;
            && id in db'.rows && c in db'.cmds && !db'.cmds[c].Unacked()
            && (db'.rows[id].state == db.rows[id].state <==> BadAck(db.cmds[c].kind, status))
            && (db'.rows[id].version == db.rows[id].version <==> BadAck(db.cmds[c].kind, status))
  {
    var sb := db.rows[id];
    var kind := db.cmds[c].kind;
    var pc := AckRead(c, id, kind, status, info);
    assert !script(0).fails && !script(1).fails;
    var event := AckEvent(kind, status, sb.state);
    DriveOnce(db, InAck(pc), script, 0);
    if event.None? {
      ClosingAcks(db, AckFinish(c, id, status), script, 1, id);
    } else {
      var to := NextState(sb.state, event.value).value;
      var cas := AckCas(c, id, sb, event.value, to, info);
      DriveOnce(db, InAck(cas), script, 1);
      CasHits(db, cas, script(1));
      var db1 := Called(db, InAck(cas), script(1)).db;
      ClosingAcks(db1, Settled(c, id, sb, event.value, info), script, 2, id);
    }
  }

  // ---------------------------------------------------------------- a container without its port

  /** Row id is running without a port while its app still has a route. */
  predicate Stale(db: Db, id: SandboxId) {
    && id in db.rows && db.rows[id].state == Running && db.rows[id].port.None?
    && db.rows[id].app in db.routes && db.routes[db.rows[id].app].sandbox == id
  }

  predicate StaleAck(db: Db, pc: AckPc, id: SandboxId)
    requires id in db.rows
  {
    pc.id == id
    && (pc.AckRefetch? || (pc.AckRoute? && pc.sb == db.rows[id]) || pc.AckReset? || pc.AckFinish?)
  }

  lemma StaleStep(db: Db, pc: AckPc, ch: Choice, id: SandboxId)
    requires Stale(db, id) && !ch.fails && StaleAck(db, pc, id)
    ensures var o := Called(db, InAck(pc), ch); var next := AckResume(pc, o.reply);
            && Resume(InAck(pc), o.reply) == (if next.Some? then Some(InAck(next.value)) else None)
            && Stale(o.db, id)
            && (next.Some? ==> StaleAck(o.db, next.value, id))
  {
  }

  lemma {:induction false} StaleStays(db: Db, pc: AckPc, script: nat -> Choice, clock: nat, id: SandboxId)
    requires Stale(db, id) && NoFailure(script) && StaleAck(db, pc, id)
    ensures Stale(Drive(db, InAck(pc), script, clock).db, id)
    decreases Rank(InAck(pc))
  {
    var o := Called(db, InAck(pc), script(clock));
    StaleStep(db, pc, script(clock), id);
    RankDecreases(InAck(pc), o.reply);
    var next := AckResume(pc, o.reply);
    if next.Some? {
      StaleStays(o.db, next.value, script, clock + 1, id);
    }
  }

  lemma PortlessAckLeavesStaleRoute(db: Db, c: CmdId, id: SandboxId, info: Runtime, script: nat -> Choice)
    requires RunningRouted(db, id) && db.routes[db.rows[id].app].sandbox == id
    requires !PortCarried(info) && NoFailure(script)
    ensures !RoutesOk(Drive(db, InAck(AckRead(c, id, StartCmd, AckSuccess, info)), script, 0).db)
  {
    var sb := db.rows[id];
    assert !script(0).fails && !script(1).fails;
    DriveOnce(db, InAck(AckRead(c, id, StartCmd, AckSuccess, info)), script, 0);
    DriveOnce(db, InAck(AckPersist(c, id, sb, info)), script, 1);
    var db1 := Called(db, InAck(AckPersist(c, id, sb, info)), script(1)).db;
    StaleStays(db1, AckRefetch(c, id, sb), script, 2, id);
    var db' := Drive(db, InAck(AckRead(c, id, StartCmd, AckSuccess, info)), script, 0).db;
    assert !RouteFits(db', db'.rows[id].app);
  }

  /** A start-success acknowledgement handled without failing calls leaves the index right exactly when it names the
      port of any container it names, or the row is not running, or the row's app has no route. Otherwise it clears the
      row's port and leaves the route where it was. */
  lemma StartAckKeepsIndexIff(db: Db, c: CmdId, id: SandboxId, info: Runtime, script: nat -> Choice)
    requires DbOk(db) && RoutesOk(db) && NoFailure(script)
    requires c in db.cmds && db.cmds[c].sandbox == id && db.cmds[c].kind == StartCmd
    ensures RoutesOk(Drive(db, InAck(AckRead(c, id, StartCmd, AckSuccess, info)), script, 0).db)
            <==> PortCarried(info) || !RunningRouted(db, id)
  {
    var pc := InAck(AckRead(c, id, StartCmd, AckSuccess, info));
    if PortCarried(info) || !RunningRouted(db, id) {
      NoFailureIsSteady(db, pc, script, 0);
      DriveAlone(db, pc, script, 0);
    } else {
      assert RouteFits(db, db.rows[id].app);
      PortlessAckLeavesStaleRoute(db, c, id, info, script);
    }
  }
}
