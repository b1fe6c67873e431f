/** Handlers run one at a time: Drive takes one from its entry to its return. */
module Atomic {
  import opened Wrappers
  import opened Protocol
  import opened ProtocolInvariant
  import opened ProtocolRuns
  import opened ProtocolTheorems

  /** More than the number of calls handler pc can still make. */
  function Rank(pc: Pc): nat {
    match pc
    case InCreate(create) =>
      (match create
       case CreateLookup(_, _, _) => 10
       case CreateDelete(_, _, _, _) => 9
       case CreateInsert(_, _, _) => 8
       case CreatePlace(_, _) => 7)
    case InAck(ack) =>
      (match ack
       case AckRead(_, _, _, _, _) => 9
       case AckCas(_, _, _, _, _, _) => 8
       case AckRefresh(_, _, _, _, _) => 7
       case AckPersist(_, _, _, _) => 6
       case AckRefetch(_, _, _) => 5
       case AckRoute(_, _, _) => 4
       case AckReset(_, _) => 3
       case AckUnroute(_, _, _) => 3
       case AckFinish(_, _, _) => 2)
    case InEvent(event) =>
      (match event
       case EventRead(_, _) => 9
       case EventCas(_, _, _) => 8
       case EventUnroute(_, _) => 7
       case CrashIncrement(_, _) => 6
       case CrashFail(_, _) => 5
       case CrashRestart(_, _, _) => 5)
    case InRequest(request) => if request.DestroyRead? || request.WakeRead? || request.RestartRead? then 5 else 4
    case InLoop(loop) =>
      (match loop
       case ReapCas(_, _) => 5
       case ReapUnroute(_, _) => 1
       case MoveCas(_, _) => 10
       case MoveUnroute(_, _) => 9
       case MoveReset(_, _) => 8
       case MovePlace(_, _) => 7
       case MoveFail(_) => 1)
    case Assign(_, _) => 6
    case Issue(_, _, _, _, _, _, _) => 2
  }

  /** Every handler returns after at most ten calls, whatever the replies. */
  lemma RankDecreases(pc: Pc, reply: Reply)
    ensures Rank(pc) <= 10
    ensures Resume(pc, reply).Some? ==> Rank(Resume(pc, reply).value) < Rank(pc)
  {
  }

  datatype Driven = Driven(db: Db, clock: nat)

  /** Handler pc, alone, up to its return; script(k) is the environment's choice for the k-th call. */
  function Drive(db: Db, pc: Pc, script: nat -> Choice, clock: nat): Driven
    decreases Rank(pc)
  {
    var o := Called(db, pc, script(clock));
    var next := Resume(pc, o.reply);
    RankDecreases(pc, o.reply);
    if next.None? then Driven(o.db, clock + 1) else Drive(o.db, next.value, script, clock + 1)
  }

  lemma DriveOnce(db: Db, pc: Pc, script: nat -> Choice, clock: nat)
    ensures var o := Called(db, pc, script(clock)); var next := Resume(pc, o.reply);
            Drive(db, pc, script, clock)
            == if next.None? then Driven(o.db, clock + 1) else Drive(o.db, next.value, script, clock + 1)
  {
    RankDecreases(pc, Called(db, pc, script(clock)).reply);
  }

  /** One call leads from db and pc to db' and pc', so driving from either ends in the same place. */
  lemma DriveStep(db: Db, pc: Pc, db': Db, pc': Pc, script: nat -> Choice, clock: nat, d: Driven, d': Driven)
    requires Called(db, pc, script(clock)).db == db' && Resume(pc, Called(db, pc, script(clock)).reply) == Some(pc')
    requires d == Drive(db, pc, script, clock) && d' == Drive(db', pc', script, clock + 1)
    ensures d == d'
  {
    DriveOnce(db, pc, script, clock);
  }

  /** The handler's last call. */
  lemma DriveEnds(db: Db, pc: Pc, db': Db, script: nat -> Choice, clock: nat, d: Driven)
    requires Called(db, pc, script(clock)).db == db' && Resume(pc, Called(db, pc, script(clock)).reply).None?
    requires d == Drive(db, pc, script, clock)
    ensures d == Driven(db', clock + 1)
  {
    DriveOnce(db, pc, script, clock);
  }

  /** The actions of handler t while it is driven. */
  function RunOf(db: Db, pc: Pc, script: nat -> Choice, clock: nat, t: ThreadId): seq<Action>
    decreases Rank(pc)
  {
    var o := Called(db, pc, script(clock));
    var next := Resume(pc, o.reply);
    RankDecreases(pc, o.reply);
    [Run(t, script(clock))] + if next.None? then [] else RunOf(o.db, next.value, script, clock + 1, t)
  }

  /** Driving a handler is one of the interleavings: the one in which nobody else is scheduled. */
  lemma {:induction false} DriveIsARun(s: Sys, t: ThreadId, script: nat -> Choice, clock: nat)
    requires t in s.threads
    ensures var run := RunOf(s.db, s.threads[t], script, clock, t);
            && IsRun(s, run)
            && After(s, run) == Sys(Drive(s.db, s.threads[t], script, clock).db, s.threads - {t})
    decreases Rank(s.threads[t])
  {
    var pc := s.threads[t];
    var o := Called(s.db, pc, script(clock));
    var next := Resume(pc, o.reply);
    RankDecreases(pc, o.reply);
    var run := RunOf(s.db, pc, script, clock, t);
    var s' := Step(s, run[0]);
    if next.None? {
      assert run[1..] == [];
    } else {
      assert run[1..] == RunOf(o.db, next.value, script, clock + 1, t);
      DriveIsARun(s', t, script, clock + 1);
      assert s'.threads - {t} == s.threads - {t};
    }
  }

  /** So a handler that runs alone keeps the invariant of the interleaved protocol. */
  lemma DriveKeeps(db: Db, pc: Pc, script: nat -> Choice, clock: nat)
    requires Inv(Sys(db, map[])) && Entry(db, pc)
    ensures var db' := Drive(db, pc, script, clock).db; Inv(Sys(db', map[])) && Grows(db, db')
  {
    var s := Sys(db, map[]);
    StepKeeps(s, Spawn(0, pc));
    var s1 := Step(s, Spawn(0, pc));
    DriveIsARun(s1, 0, script, clock);
    RunFromOk(s1, RunOf(db, pc, script, clock, 0));
    assert s1.threads - {0} == map[];
  }
}
