/** Every action keeps the invariant. */
module ProtocolRuns {
  import opened Wrappers
  import opened Models
  import opened Scheduler
  import opened Protocol
  import opened ProtocolInvariant
  import opened ProtocolSteps

  // ---------------------------------------------------------------- what one call changes

  /** Row id has kept its state and its version. */
  predicate Unmoved(a: Db, b: Db, id: SandboxId) {
    id in a.rows && id in b.rows && b.rows[id].state == a.rows[id].state && b.rows[id].version == a.rows[id].version
  }

  /** Only a compare-and-swap or an assignment that hits moves a row. */
  lemma OnlyHitsMove(db: Db, call: Call, ch: Choice, id: SandboxId)
    ensures var o := Do(db, call, ch);
            id in o.db.rows ==>
              || Unmoved(db, o.db, id)
              || (call.Insert? && call.id == id && o.db.rows[id].state == Pending && id !in db.rows)
              || (call.Cas? && call.id == id && o.reply.GotRow? && id in db.rows && db.rows[id].state == call.from
                  && o.db.rows[id] == db.rows[id].Move(call.to, ByHandler))
              || (call.AssignTo? && call.id == id && o.reply.GotRow? && id in db.rows && db.rows[id].state == Pending
                  && o.db.rows[id].state == Starting)
  {
  }

  // ---------------------------------------------------------------- claims

  /** The compare-and-swap of a handler that has not claimed the row leaves a claimable row claimable. */
  lemma CasKeepsClaim(db: Db, pc: Pc)
    requires PcOk(db, pc) && CallOf(pc).Cas? && Claimable(CallOf(pc).from) && Claim(pc) != Some(CallOf(pc).id)
    ensures Claimable(CallOf(pc).to)
  {
  }

  lemma OtherClaimStays(db: Db, pc: Pc, ch: Choice, id: SandboxId)
    requires DbOk(db) && PcOk(db, pc) && Claim(pc) != Some(id)
    requires id in db.born && (id in db.rows ==> Claimable(db.rows[id].state))
    ensures var db' := Called(db, pc, ch).db; id in db'.rows ==> Claimable(db'.rows[id].state)
  {
    OnlyHitsMove(db, CallOf(pc), ch, id);
    if CallOf(pc).Cas? && Claimable(CallOf(pc).from) && CallOf(pc).id == id { CasKeepsClaim(db, pc); }
  }

  /** A handler comes to claim a row only by moving it from running to restarting itself. */
  lemma ClaimArises(db: Db, pc: Pc, ch: Choice)
    requires PcOk(db, pc)
    ensures var o := Called(db, pc, ch);
            var next := Resume(pc, o.reply);
            next.Some? && Claim(next.value).Some? ==>
              var id := Claim(next.value).value;
              || (Claim(pc) == Some(id) && (id in o.db.rows ==> Unmoved(db, o.db, id)))
              || (Claim(pc).None? && id in db.rows && db.rows[id].state == Running
                  && id in o.db.rows && o.db.rows[id].state == Restarting)
  {
    var o := Called(db, pc, ch);
    if pc.InEvent? {
      ClaimArisesInEvent(db, pc.event, ch);
      OnlyHitsMove(db, CallOf(pc), ch, pc.event.id);
    }
  }

  lemma ClaimArisesInEvent(db: Db, pc: EventPc, ch: Choice)
    requires EventOk(db, pc)
    ensures var next := EventResume(pc, Do(db, EventCall(pc), ch).reply);
            next.Some? && Claim(next.value).Some? ==>
              && Claim(next.value) == Some(pc.id)
              && (pc.EventUnroute? || pc.CrashIncrement? ||
                  (pc.EventCas? && pc.to == Restarting && pc.sb.state == Running
                   && Do(db, EventCall(pc), ch).reply.GotRow?))
  {
  }

  // ---------------------------------------------------------------- orphans

  /** A handler that moves a row into a critical state goes on to issue the command for it. */
  lemma CriticalEntry(db: Db, pc: Pc, ch: Choice, id: SandboxId)
    requires PcOk(db, pc)
    requires var db' := Called(db, pc, ch).db;
             id in db'.rows && Critical(db'.rows[id].state) && !Unmoved(db, db', id)
    ensures var o := Called(db, pc, ch);
            Resume(pc, o.reply).Some? && AboutToIssue(Resume(pc, o.reply).value, id, o.db.rows[id])
  {
    OnlyHitsMove(db, CallOf(pc), ch, id);
    if CallOf(pc).Cas? { CriticalCas(db, pc, ch); }
  }

  lemma CriticalCas(db: Db, pc: Pc, ch: Choice)
    requires PcOk(db, pc) && CallOf(pc).Cas? && Critical(CallOf(pc).to)
    requires Called(db, pc, ch).reply.GotRow?
    ensures var o := Called(db, pc, ch); var call := CallOf(pc);
            call.id in o.db.rows && Resume(pc, o.reply).Some?
            && AboutToIssue(Resume(pc, o.reply).value, call.id, o.db.rows[call.id])
  {
    ReplyIsTruthful(db, CallOf(pc), ch);
  }

  /** A command that awaits its row is only acknowledged by an acknowledgement that is on record. */
  lemma AwaitingStays(db: Db, pc: Pc, ch: Choice, id: SandboxId, c: CmdId)
    requires PcOk(db, pc) && id in db.rows && Critical(db.rows[id].state)
    requires c in db.cmds && Awaits(db.cmds[c], id, db.rows[id])
    ensures var db' := Called(db, pc, ch).db;
            id in db'.lost || (c in db'.cmds && SameOrder(db.cmds[c], db'.cmds[c]) && db'.cmds[c].Unacked())
  {
    if pc.InAck? && pc.ack.AckFinish? && pc.ack.cmd == c {
      assert !Settles(db, c);
    }
  }

  /** Issuing either succeeds, or leaves the row on record. */
  lemma IssuingCovers(db: Db, pc: Pc, ch: Choice, id: SandboxId)
    requires pc.Issue? && id in db.rows && Critical(db.rows[id].state) && AboutToIssue(pc, id, db.rows[id])
    ensures var db' := Called(db, pc, ch).db;
            id in db'.lost || (ch.cmd in db'.cmds && Awaits(db'.cmds[ch.cmd], id, db.rows[id]))
  {
  }

  /** Handler t's call does not take away what covers a row it does not move. */
  lemma CallCovers(s: Sys, t: ThreadId, ch: Choice, id: SandboxId)
    requires Inv(s) && t in s.threads && id in s.db.rows && Critical(s.db.rows[id].state) && Covered(s, id)
    ensures var db := Called(s.db, s.threads[t], ch).db;
            || id in db.lost
            || (exists c | c in db.cmds :: Awaits(db.cmds[c], id, s.db.rows[id]))
            || (exists u | u in s.threads && u != t :: AboutToIssue(s.threads[u], id, s.db.rows[id]))
  {
    var pc := s.threads[t];
    var row := s.db.rows[id];
    CallKeeps(s.db, pc, ch);
    if id !in s.db.lost {
      if c :| c in s.db.cmds && Awaits(s.db.cmds[c], id, row) {
        AwaitingStays(s.db, pc, ch, id, c);
      } else {
        var u :| u in s.threads && AboutToIssue(s.threads[u], id, row);
        if u == t {
          IssuingCovers(s.db, pc, ch, id);
        }
      }
    }
  }

  lemma CoverStays(s: Sys, t: ThreadId, ch: Choice, id: SandboxId)
    requires Inv(s) && t in s.threads
    requires var s' := Step(s, Run(t, ch)); Unmoved(s.db, s'.db, id) && Critical(s.db.rows[id].state)
    ensures Covered(Step(s, Run(t, ch)), id)
  {
    var s' := Step(s, Run(t, ch));
    var row := s.db.rows[id];
    CallCovers(s, t, ch, id);
    if u :| u in s.threads && u != t && AboutToIssue(s.threads[u], id, row) {
      assert s'.threads[u] == s.threads[u];
    }
  }

  lemma RunKeepsNoOrphans(s: Sys, t: ThreadId, ch: Choice)
    requires Inv(s) && t in s.threads
    ensures NoOrphans(Step(s, Run(t, ch)))
  {
    var s' := Step(s, Run(t, ch));
    forall id | id in s'.db.rows && Critical(s'.db.rows[id].state) ensures Covered(s', id) {
      if Unmoved(s.db, s'.db, id) {
        CoverStays(s, t, ch, id);
      } else {
        CriticalEntry(s.db, s.threads[t], ch, id);
        assert AboutToIssue(s'.threads[t], id, s'.db.rows[id]);
      }
    }
  }

  lemma ClaimsHold(s: Sys, t: ThreadId)
    requires ClaimsOk(s) && t in s.threads
    ensures ClaimHolds(s.db, s.threads[t])
  {
  }

  lemma RunKeepsClaims(s: Sys, t: ThreadId, ch: Choice)
    requires Inv(s) && t in s.threads
    ensures ClaimsOk(Step(s, Run(t, ch)))
  {
    var s' := Step(s, Run(t, ch));
    var pc := s.threads[t];
    ClaimsHold(s, t);
    ClaimArises(s.db, pc, ch);
    forall u | u in s'.threads && u != t && Claim(s'.threads[u]).Some?
      ensures var id := Claim(s'.threads[u]).value;
              && (id in s'.db.rows ==> Claimable(s'.db.rows[id].state))
              && (t in s'.threads ==> Claim(s'.threads[t]) != Some(id))
    {
      var id := Claim(s'.threads[u]).value;
      assert s.threads[u] == s'.threads[u] && PcOk(s.db, s.threads[u]);
      ClaimsHold(s, u);
      assert Claim(pc) != Some(id);
      OtherClaimStays(s.db, pc, ch, id);
    }
  }

  lemma RunKeeps(s: Sys, t: ThreadId, ch: Choice)
    requires Inv(s) && t in s.threads
    ensures Inv(Step(s, Run(t, ch))) && Grows(s.db, Step(s, Run(t, ch)).db)
  {
    var s' := Step(s, Run(t, ch));
    var pc := s.threads[t];
    ClaimsHold(s, t);
    CallKeeps(s.db, pc, ch);
    RunKeepsNoOrphans(s, t, ch);
    RunKeepsClaims(s, t, ch);
    forall u | u in s'.threads ensures PcOk(s'.db, s'.threads[u]) {
      if u == t {
        PcCallFits(s.db, pc);
        DoKeeps(s.db, CallOf(pc), ch);
        NextPcOk(s.db, pc, ch);
        var mid := Do(s.db, CallOf(pc), ch).db;
        LosingKeeps(mid, s'.db.lost);
        PcOkStable(mid, s'.db, s'.threads[t]);
      } else {
        PcOkStable(s.db, s'.db, s.threads[u]);
      }
    }
  }

  // ---------------------------------------------------------------- the other actions

  /** A handler that may begin knows nothing yet that could fail to hold. */
  lemma EntryIsOk(db: Db, pc: Pc)
    requires DbOk(db) && Entry(db, pc)
    ensures PcOk(db, pc) && Claim(pc).None?
  {
    if pc.InLoop? { StampNow(db, pc.loop.id); }
    if pc.InAck? { assert CmdOk(db.rows, db.born, db.lost, db.cmds[pc.ack.cmd]); }
  }

  lemma SpawnKeeps(s: Sys, t: ThreadId, pc: Pc)
    requires Inv(s) && Enabled(s, Spawn(t, pc))
    ensures Inv(Step(s, Spawn(t, pc)))
  {
    var s' := Step(s, Spawn(t, pc));
    EntryIsOk(s.db, pc);
    assert forall u | u in s.threads :: s'.threads[u] == s.threads[u];
    forall id | id in s'.db.rows && Critical(s'.db.rows[id].state) ensures Covered(s', id) {
      SpawnCovers(s, t, pc, id);
    }
  }

  lemma SpawnCovers(s: Sys, t: ThreadId, pc: Pc, id: SandboxId)
    requires t !in s.threads && id in s.db.rows && Covered(s, id)
    ensures Covered(s.(threads := s.threads[t := pc]), id)
  {
    var s' := s.(threads := s.threads[t := pc]);
    if u :| u in s.threads && AboutToIssue(s.threads[u], id, s.db.rows[id]) {
      assert s'.threads[u] == s.threads[u];
    }
  }

  lemma CoverCarries(a: Sys, b: Sys, id: SandboxId)
    requires id in a.db.rows && id in b.db.rows && a.db.rows[id] == b.db.rows[id] && Covered(a, id)
    requires a.threads == b.threads && a.db.lost == b.db.lost
    requires forall c | c in a.db.cmds ::
               c in b.db.cmds && SameOrder(a.db.cmds[c], b.db.cmds[c])
               && (a.db.cmds[c].Unacked() ==> b.db.cmds[c].Unacked())
    ensures Covered(b, id)
  {
    if c :| c in a.db.cmds && Awaits(a.db.cmds[c], id, a.db.rows[id]) {
      assert Awaits(b.db.cmds[c], id, b.db.rows[id]);
    }
  }

  lemma PcsCarry(a: Sys, b: Sys)
    requires Inv(a) && Grows(a.db, b.db) && a.threads == b.threads
    ensures forall u | u in b.threads :: PcOk(b.db, b.threads[u])
  {
    forall u | u in b.threads ensures PcOk(b.db, b.threads[u]) {
      PcOkStable(a.db, b.db, a.threads[u]);
    }
  }

  lemma SweepKeepsCovers(s: Sys, id: SandboxId, author: Author)
    requires Inv(s) && Enabled(s, Sweep(id, author))
    ensures NoOrphans(Step(s, Sweep(id, author))) && ClaimsOk(Step(s, Sweep(id, author)))
  {
    var s' := Step(s, Sweep(id, author));
    forall i | i in s'.db.rows && Critical(s'.db.rows[i].state) ensures Covered(s', i) {
      CoverCarries(s, s', i);
    }
  }

  lemma SweepRow(s: Sys, id: SandboxId, author: Author)
    requires Inv(s) && Enabled(s, Sweep(id, author))
    ensures var db' := Step(s, Sweep(id, author)).db; DbOk(db') && Grows(s.db, db')
  {
    var row := s.db.rows[id].Move(Destroyed, author);
    MoveOk(s.db.rows[id], Destroyed, author);
    PutRowOk(s.db, id, row);
  }

  lemma SweepKeeps(s: Sys, id: SandboxId, author: Author)
    requires Inv(s) && Enabled(s, Sweep(id, author))
    ensures Inv(Step(s, Sweep(id, author))) && Grows(s.db, Step(s, Sweep(id, author)).db)
  {
    var s' := Step(s, Sweep(id, author));
    SweepRow(s, id, author);
    PcsCarry(s, s');
    SweepKeepsCovers(s, id, author);
  }

  lemma DispatchKeeps(s: Sys, c: CmdId)
    requires Inv(s) && Enabled(s, Dispatch(c))
    ensures Inv(Step(s, Dispatch(c))) && Grows(s.db, Step(s, Dispatch(c)).db)
  {
    var s' := Step(s, Dispatch(c));
    assert CmdOk(s.db.rows, s.db.born, s.db.lost, s.db.cmds[c]);
    PutCmdOk(s.db, c, s'.db.cmds[c]);
    PcsCarry(s, s');
    forall id | id in s'.db.rows && Critical(s'.db.rows[id].state) ensures Covered(s', id) {
      CoverCarries(s, s', id);
    }
  }

  lemma SetNodesKeeps(s: Sys, nodes: seq<Node>)
    requires Inv(s)
    ensures Inv(Step(s, SetNodes(nodes)))
  {
    var s' := Step(s, SetNodes(nodes));
    PcsCarry(s, s');
    forall id | id in s'.db.rows && Critical(s'.db.rows[id].state) ensures Covered(s', id) {
      CoverCarries(s, s', id);
    }
  }

  lemma StepKeeps(s: Sys, a: Action)
    requires Inv(s) && Enabled(s, a)
    ensures Inv(Step(s, a)) && Grows(s.db, Step(s, a).db)
  {
    match a {
      case Spawn(t, pc) => SpawnKeeps(s, t, pc);
      case Run(t, ch) => RunKeeps(s, t, ch);
      case Sweep(id, author) => SweepKeeps(s, id, author);
      case Dispatch(c) => DispatchKeeps(s, c);
      case SetNodes(nodes) => SetNodesKeeps(s, nodes);
    }
  }
}
