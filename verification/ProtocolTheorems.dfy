/** What holds over whole runs of the lifecycle protocol. */
module ProtocolTheorems {
  import opened Wrappers
  import opened Models
  import opened Protocol
  import opened ProtocolInvariant
  import opened ProtocolRuns

  // ---------------------------------------------------------------- whole runs

  lemma {:induction false} RunFromOk(s: Sys, run: seq<Action>)
    requires Inv(s) && IsRun(s, run)
    ensures Inv(After(s, run)) && Grows(s.db, After(s, run).db)
    decreases |run|
  {
    if run != [] {
      StepKeeps(s, run[0]);
      RunFromOk(Step(s, run[0]), run[1..]);
      GrowsTransitive(s.db, Step(s, run[0]).db, After(s, run).db);
    }
  }

  /** Every reachable state, under every interleaving and every failing call, satisfies the invariant. */
  lemma ReachableIsOk(run: seq<Action>)
    requires IsRun(INIT, run)
    ensures Inv(After(INIT, run))
  {
    RunFromOk(INIT, run);
  }

  /** Between any two moments of a run: a row never leaves destroyed, its version never decreases, the
      changes on record stay there, and two looks at one version see one state unless the row was swept. */
  lemma RowsOnlyGrow(run: seq<Action>, more: seq<Action>, id: SandboxId)
    requires IsRun(INIT, run) && IsRun(After(INIT, run), more)
    requires id in After(INIT, run).db.rows && id in After(After(INIT, run), more).db.rows
    ensures var a := After(INIT, run).db.rows[id];
            var b := After(After(INIT, run), more).db.rows[id];
            && (a.state == Destroyed ==> b.state == Destroyed)
            && a.version <= b.version && a.trail <= b.trail
            && (a.version == b.version ==> b.state == a.state || b.state == Destroyed)
  {
    ReachableIsOk(run);
    RunFromOk(After(INIT, run), more);
    assert id in After(INIT, run).db.born;
  }

  lemma {:induction false} LeadsIsAChain(trail: seq<Change>, state: State)
    requires Leads(trail, state)
    ensures forall i | 0 <= i < |trail| :: Allowed(trail[i])
    ensures forall i | 0 < i < |trail| :: trail[i].from == trail[i-1].to
    ensures trail != [] ==> trail[0].from == Pending && trail[|trail|-1].to == state
    ensures trail == [] ==> state == Pending
    decreases |trail|
  {
    if trail != [] {
      var init := trail[..|trail|-1];
      LeadsIsAChain(init, trail[|trail|-1].from);
      assert forall i | 0 <= i < |init| :: trail[i] == init[i];
    }
  }

  /** A chain from pending to the row's state, each handler's change an edge of the table or
      pending -> failed, nothing ever leaving destroyed, restarting -> failed never taken, and
      state_version the number of changes (one less when the reconciler swept the row). */
  ghost predicate LegalHistory(row: Row) {
    && (forall c | c in row.trail && c.author == ByHandler ::
          (exists e: Event :: NextState(c.from, e) == Some(c.to)) || (c.from == Pending && c.to == Failed))
    && (forall c | c in row.trail && c.author != ByHandler :: Sweepable(c.from) && c.to == Destroyed)
    && (forall c | c in row.trail :: c.from != Destroyed && !(c.from == Restarting && c.to == Failed))
    && (forall i | 0 < i < |row.trail| :: row.trail[i].from == row.trail[i-1].to)
    && (if row.trail == [] then row.state == Pending
        else row.trail[0].from == Pending && row.trail[|row.trail|-1].to == row.state)
    && row.version == if row.trail != [] && row.trail[|row.trail|-1].author == ByReconciler
                      then |row.trail| - 1 else |row.trail|
  }

  lemma GoodTrailIsLegal(row: Row)
    requires GoodTrail(row)
    ensures LegalHistory(row)
  {
    LeadsIsAChain(row.trail, row.state);
    forall c | c in row.trail && c.author == ByHandler
      ensures (exists e: Event :: NextState(c.from, e) == Some(c.to)) || (c.from == Pending && c.to == Failed)
    {
      IsEdgeIsTheTable(c.from, c.to);
    }
  }

  /** Every reachable row has a legal history. */
  lemma HistoryIsLegal(run: seq<Action>, id: SandboxId)
    requires IsRun(INIT, run) && id in After(INIT, run).db.rows
    ensures LegalHistory(After(INIT, run).db.rows[id])
  {
    ReachableIsOk(run);
    var row := After(INIT, run).db.rows[id];
    assert RowOk(row);
    GoodTrailIsLegal(row);
  }

  /** An exhausted crash never reaches failed: its compare-and-swap expects the running state the event
      handler had read before moving the row to restarting, and nobody can have brought that state back. */
  lemma ExhaustedCrashNeverFails(run: seq<Action>, t: ThreadId, ch: Choice)
    requires IsRun(INIT, run)
    requires t in After(INIT, run).threads && After(INIT, run).threads[t].InEvent?
    requires After(INIT, run).threads[t].event.CrashFail?
    ensures Step(After(INIT, run), Run(t, ch)).db == After(INIT, run).db
  {
    ReachableIsOk(run);
    assert PcOk(After(INIT, run).db, After(INIT, run).threads[t]);
    ClaimsHold(After(INIT, run), t);
  }

  // ---------------------------------------------------------------- runs that issue every command

  /** No CreateCommand fails, and agents acknowledge starts with success or failure and stops with success. */
  ghost predicate Clean(s: Sys, a: Action) {
    match a
    case Run(t, ch) => t in s.threads && s.threads[t].Issue? ==> !ch.fails && ch.cmd !in s.db.cmds
    case Spawn(_, pc) => pc.InAck? && pc.ack.AckRead? ==> !BadAck(pc.ack.kind, pc.ack.status)
    case _ => true
  }

  ghost predicate CleanRun(s: Sys, run: seq<Action>)
    requires IsRun(s, run)
    decreases |run|
  {
    run == [] || (Clean(s, run[0]) && CleanRun(Step(s, run[0]), run[1..]))
  }

  predicate CleanAck(db: Db, pc: AckPc) {
    pc.cmd in db.cmds &&
    match pc
    case AckRead(c, _, kind, status, _) => !BadAck(kind, status) && db.cmds[c].kind == kind
    case AckCas(c, _, _, event, _, _) => event == EvStartFailed ==> db.cmds[c].kind == StartCmd
    case AckRefresh(c, _, event, _, _) => event == EvStartFailed ==> db.cmds[c].kind == StartCmd
    case AckFinish(c, _, status) => !BadAck(db.cmds[c].kind, status)
    case _ => true
  }

  ghost predicate CleanSys(s: Sys) {
    s.db.lost == {} && forall t | t in s.threads && s.threads[t].InAck? :: CleanAck(s.db, s.threads[t].ack)
  }

  lemma CleanAckNext(db: Db, pc: AckPc, reply: Reply)
    requires CleanAck(db, pc)
    ensures var next := AckResume(pc, reply); next.Some? ==> CleanAck(db, next.value)
  {
  }

  lemma CleanAckStable(a: Db, b: Db, pc: AckPc)
    requires Grows(a, b) && CleanAck(a, pc)
    ensures CleanAck(b, pc)
  {
  }

  lemma OnlyAcksLeadToAcks(pc: Pc, reply: Reply)
    requires Resume(pc, reply).Some? && Resume(pc, reply).value.InAck?
    ensures pc.InAck? && AckResume(pc.ack, reply) == Some(Resume(pc, reply).value.ack)
  {
  }

  lemma CleanIssueLosesNothing(db: Db, pc: Pc, ch: Choice)
    requires PcOk(db, pc) && pc.Issue? && !ch.fails && ch.cmd !in db.cmds
    ensures Called(db, pc, ch).db.lost == db.lost
  {
  }

  lemma CleanAckLosesNothing(db: Db, pc: AckPc, ch: Choice)
    requires CleanAck(db, pc)
    ensures Called(db, InAck(pc), ch).db.lost == db.lost
  {
  }

  lemma OthersLoseNothing(db: Db, pc: Pc, ch: Choice)
    requires !pc.Issue? && !pc.InAck?
    ensures Called(db, pc, ch).db.lost == db.lost
  {
  }

  lemma NothingIsLost(s: Sys, t: ThreadId, ch: Choice)
    requires Inv(s) && CleanSys(s) && t in s.threads && Clean(s, Run(t, ch))
    ensures Step(s, Run(t, ch)).db.lost == {}
  {
    var pc := s.threads[t];
    if pc.Issue? {
      CleanIssueLosesNothing(s.db, pc, ch);
    } else if pc.InAck? {
      CleanAckLosesNothing(s.db, pc.ack, ch);
    } else {
      OthersLoseNothing(s.db, pc, ch);
    }
  }

  lemma CleanStep(s: Sys, a: Action)
    requires Inv(s) && CleanSys(s) && Enabled(s, a) && Clean(s, a)
    ensures CleanSys(Step(s, a))
  {
    var s' := Step(s, a);
    StepKeeps(s, a);
    if a.Run? { NothingIsLost(s, a.t, a.ch); }
    forall u | u in s'.threads && s'.threads[u].InAck? ensures CleanAck(s'.db, s'.threads[u].ack) {
      if a.Run? && a.t == u {
        var reply := Called(s.db, s.threads[u], a.ch).reply;
        OnlyAcksLeadToAcks(s.threads[u], reply);
        CleanAckNext(s.db, s.threads[u].ack, reply);
        CleanAckStable(s.db, s'.db, s'.threads[u].ack);
      } else if !(a.Spawn? && a.t == u) {
        CleanAckStable(s.db, s'.db, s.threads[u].ack);
      }
    }
  }

  lemma {:induction false} CleanRunLosesNothing(s: Sys, run: seq<Action>)
    requires Inv(s) && CleanSys(s) && IsRun(s, run) && CleanRun(s, run)
    ensures Inv(After(s, run)) && After(s, run).db.lost == {}
    decreases |run|
  {
    if run != [] {
      StepKeeps(s, run[0]);
      CleanStep(s, run[0]);
      CleanRunLosesNothing(Step(s, run[0]), run[1..]);
    }
  }

  /** No orphaned start and no orphaned destroy, in every interleaving: a row in starting has an
      unacknowledged start_sandbox command issued since it entered that state, or a handler that is about
      to issue one; a row in destroying likewise with stop_sandbox. */
  lemma NoOrphansInCleanRuns(run: seq<Action>, id: SandboxId)
    requires IsRun(INIT, run) && CleanRun(INIT, run)
    requires id in After(INIT, run).db.rows && Critical(After(INIT, run).db.rows[id].state)
    ensures var s := After(INIT, run);
            var row := s.db.rows[id];
            var kind := if row.state == Starting then StartCmd else StopCmd;
            || (exists c :: c in s.db.cmds && s.db.cmds[c].kind == kind && Awaits(s.db.cmds[c], id, row))
            || (exists t :: t in s.threads && s.threads[t].Issue? && s.threads[t].kind == kind
                  && AboutToIssue(s.threads[t], id, row))
  {
    CleanRunLosesNothing(INIT, run);
    var s := After(INIT, run);
    assert Covered(s, id);
    if c :| c in s.db.cmds && Awaits(s.db.cmds[c], id, s.db.rows[id]) {
      assert CmdOk(s.db.rows, s.db.born, s.db.lost, s.db.cmds[c]);
    } else {
      var t :| t in s.threads && AboutToIssue(s.threads[t], id, s.db.rows[id]);
      assert PcOk(s.db, s.threads[t]);
    }
  }
}
