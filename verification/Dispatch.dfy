/**
 Command dispatch: PollPendingCommands with FOR UPDATE SKIP LOCKED. A poll first locks its rows and later
 commits or rolls back, so any number of polls can be between the two.
 */
module Dispatch {
  import opened Scheduler
  import opened Protocol

  const BATCH_LIMIT := 10

  datatype Entry = Entry(node: NodeId, created: int, status: CmdStatus)

  type Queue = map<CmdId, Entry>

  /** A row the subquery sees: pending, of that node, and not locked by another poll. */
  predicate Selectable(q: Queue, node: NodeId, locked: set<CmdId>, c: CmdId) {
    c in q && q[c].node == node && q[c].status == Queued && c !in locked
  }

  /** ORDER BY created_at LIMIT 10 over the selectable rows; rows created at the same time tie. */
  ghost predicate IsBatch(q: Queue, node: NodeId, locked: set<CmdId>, batch: set<CmdId>) {
    && |batch| <= BATCH_LIMIT
    && (forall c | c in batch :: Selectable(q, node, locked, c))
    && (forall c, d | c in batch && Selectable(q, node, locked, d) && d !in batch :: q[c].created <= q[d].created)
    && (|batch| < BATCH_LIMIT ==> forall d | Selectable(q, node, locked, d) :: d in batch)
  }

  function Sent(q: Queue, batch: set<CmdId>): Queue {
    map c | c in q :: if c in batch then q[c].(status := Dispatched) else q[c]
  }

  // ---------------------------------------------------------------- the statements

  class CommandTable {
    var cmds: Queue

    constructor ()
      ensures cmds == map[]
    {
      cmds := map[];
    }

    method CreateCommand(c: CmdId, node: NodeId, now: int) returns (ok: bool)
      modifies this
      ensures ok == (c !in old(cmds))
      ensures cmds == if ok then old(cmds)[c := Entry(node, now, Queued)] else old(cmds)
    {
      ok := c !in cmds;
      if ok {
        cmds := cmds[c := Entry(node, now, Queued)];
      }
    }

    /** locked: the rows other polls hold. */
    method PollPendingCommands(node: NodeId, locked: set<CmdId>) returns (batch: set<CmdId>)
      modifies this
      ensures IsBatch(old(cmds), node, locked, batch) && |batch| <= 10
      ensures cmds == Sent(old(cmds), batch)
      ensures cmds.Keys == old(cmds).Keys
      ensures forall c | c in cmds ::
                cmds[c] == if c in batch then old(cmds)[c].(status := Dispatched) else old(cmds)[c]
    {
      batch := {};
      var rest := set c | c in cmds && Selectable(cmds, node, locked, c);
      while rest != {} && |batch| < BATCH_LIMIT
        invariant cmds == old(cmds) && |batch| <= BATCH_LIMIT
        invariant forall c :: Selectable(cmds, node, locked, c) <==> c in batch || c in rest
        invariant batch !! rest
        invariant forall c, d | c in batch && d in rest :: cmds[c].created <= cmds[d].created
        decreases rest
      {
        var oldest := Oldest(rest);
        batch := batch + {oldest};
        rest := rest - {oldest};
      }
      cmds := map c | c in cmds :: if c in batch then cmds[c].(status := Dispatched) else cmds[c];
    }

    method Oldest(rest: set<CmdId>) returns (oldest: CmdId)
      requires rest != {} && rest <= cmds.Keys
      ensures oldest in rest && forall c | c in rest :: cmds[oldest].created <= cmds[c].created
    {
      oldest :| oldest in rest;
      var todo := rest - {oldest};
      while todo != {}
        invariant oldest in rest && todo <= rest
        invariant forall c | c in rest && c !in todo :: cmds[oldest].created <= cmds[c].created
        decreases todo
      {
        var c :| c in todo;
        if cmds[c].created < cmds[oldest].created {
          oldest := c;
        }
        todo := todo - {c};
      }
    }
  }

  // ---------------------------------------------------------------- polls side by side

  type PollId = nat

  /** held: the rows each open poll has locked; batches: what the committed ones returned, in commit order. */
  datatype Table = Table(cmds: Queue, held: map<PollId, set<CmdId>>, batches: seq<set<CmdId>>)

  datatype Action =
    | Insert(c: CmdId, node: NodeId, created: int)
    | Lock(p: PollId, node: NodeId, batch: set<CmdId>)
    | Commit(p: PollId)
    | Rollback(p: PollId)
    | Ack(c: CmdId, status: AckStatus)

  ghost predicate Locked(t: Table, c: CmdId) { exists p | p in t.held :: c in t.held[p] }

  ghost function LockedRows(t: Table): set<CmdId> { set p, c | p in t.held && c in t.held[p] :: c }

  ghost predicate Enabled(t: Table, a: Action) {
    match a
    case Insert(c, _, _) => c !in t.cmds
    case Lock(p, node, batch) => p !in t.held && IsBatch(t.cmds, node, LockedRows(t), batch)
    case Commit(p) => p in t.held
    case Rollback(p) => p in t.held
    case Ack(c, _) => c in t.cmds && !Locked(t, c)  // the UPDATE waits for the row lock
  }

  ghost function Step(t: Table, a: Action): Table
    requires Enabled(t, a)
  {
    match a
    case Insert(c, node, created) => t.(cmds := t.cmds[c := Entry(node, created, Queued)])
    case Lock(p, _, batch) => t.(held := t.held[p := batch])
    case Commit(p) => Table(Sent(t.cmds, t.held[p]), t.held - {p}, t.batches + [t.held[p]])
    case Rollback(p) => t.(held := t.held - {p})
    case Ack(c, status) =>
      t.(cmds := t.cmds[c := t.cmds[c].(status := if status == AckFailure then Errored else Completed)])
  }

  ghost predicate IsRun(t: Table, run: seq<Action>)
    decreases |run|
  {
    run == [] || (Enabled(t, run[0]) && IsRun(Step(t, run[0]), run[1..]))
  }

  ghost function After(t: Table, run: seq<Action>): Table
    requires IsRun(t, run)
    decreases |run|
  {
    if run == [] then t else After(Step(t, run[0]), run[1..])
  }

  const EMPTY_TABLE := Table(map[], map[], [])

  /** Open polls hold pending rows and no two the same; committed ones returned rows that are pending no longer. */
  ghost predicate Inv(t: Table) { HeldOk(t.held, t.cmds) && BatchesOk(t.batches, t.cmds) }

  ghost predicate HeldOk(held: map<PollId, set<CmdId>>, cmds: Queue) {
    && (forall p, c | p in held && c in held[p] :: c in cmds && cmds[c].status == Queued)
    && (forall p | p in held :: |held[p]| <= BATCH_LIMIT)
    && (forall p, p', c | p in held && p' in held && c in held[p] && c in held[p'] :: p == p')
  }

  ghost predicate BatchesOk(batches: seq<set<CmdId>>, cmds: Queue) {
    && (forall i, c | 0 <= i < |batches| && c in batches[i] :: c in cmds && cmds[c].status != Queued)
    && (forall i | 0 <= i < |batches| :: |batches[i]| <= BATCH_LIMIT)
    && (forall i, j, c | 0 <= i < |batches| && 0 <= j < |batches| && c in batches[i] && c in batches[j] :: i == j)
  }

  /** Rows are never removed, and a row that has left pending never returns to it. */
  ghost predicate Advances(a: Queue, b: Queue) {
    forall c | c in a ::
      && c in b && b[c].node == a[c].node && b[c].created == a[c].created
      && (a[c].status != Queued ==> b[c].status != Queued)
  }

  lemma InsertKeeps(t: Table, c: CmdId, node: NodeId, created: int)
    requires Inv(t) && c !in t.cmds
    ensures var t' := Step(t, Action.Insert(c, node, created)); Inv(t') && Advances(t.cmds, t'.cmds)
  {
  }

  lemma LockKeeps(t: Table, p: PollId, node: NodeId, batch: set<CmdId>)
    requires Inv(t) && p !in t.held && IsBatch(t.cmds, node, LockedRows(t), batch)
    ensures Inv(Step(t, Lock(p, node, batch)))
  {
    assert forall c | c in batch :: Selectable(t.cmds, node, LockedRows(t), c);
    assert forall q, c | q in t.held && c in t.held[q] :: c in LockedRows(t);
  }

  lemma CommitKeeps(t: Table, p: PollId)
    requires Inv(t) && p in t.held
    ensures var t' := Step(t, Commit(p)); Inv(t') && Advances(t.cmds, t'.cmds)
  {
    BatchSent(t.cmds, t.batches, t.held[p]);
  }

  lemma BatchSent(cmds: Queue, batches: seq<set<CmdId>>, batch: set<CmdId>)
    requires BatchesOk(batches, cmds) && |batch| <= BATCH_LIMIT
    requires forall c | c in batch :: c in cmds && cmds[c].status == Queued
    ensures BatchesOk(batches + [batch], Sent(cmds, batch))
  {
    assert forall i, c | 0 <= i < |batches| && c in batches[i] :: c !in batch;
  }

  lemma AckKeeps(t: Table, c: CmdId, status: AckStatus)
    requires Inv(t) && c in t.cmds && !Locked(t, c)
    ensures var t' := Step(t, Ack(c, status)); Inv(t') && Advances(t.cmds, t'.cmds)
  {
    assert forall p | p in t.held :: c !in t.held[p];
  }

  lemma StepKeeps(t: Table, a: Action)
    requires Inv(t) && Enabled(t, a)
    ensures Inv(Step(t, a)) && Advances(t.cmds, Step(t, a).cmds)
  {
    match a
    case Insert(c, node, created) => InsertKeeps(t, c, node, created);
    case Lock(p, node, batch) => LockKeeps(t, p, node, batch);
    case Commit(p) => CommitKeeps(t, p);
    case Rollback(_) =>
    case Ack(c, status) => AckKeeps(t, c, status);
  }

  lemma {:induction false} RunKeeps(t: Table, run: seq<Action>)
    requires Inv(t) && IsRun(t, run)
    ensures Inv(After(t, run)) && Advances(t.cmds, After(t, run).cmds)
    decreases |run|
  {
    if run != [] {
      StepKeeps(t, run[0]);
      RunKeeps(Step(t, run[0]), run[1..]);
    }
  }

  /** However polls, inserts and acknowledgements interleave, a command is returned by at most one poll, a batch
      has at most ten commands, and a command once returned is never pending again. */
  lemma AtMostOnceDispatch(run: seq<Action>, more: seq<Action>)
    requires IsRun(EMPTY_TABLE, run) && IsRun(After(EMPTY_TABLE, run), more)
    ensures var t, t' := After(EMPTY_TABLE, run), After(After(EMPTY_TABLE, run), more);
            && (forall i, j | 0 <= i < j < |t.batches| :: t.batches[i] !! t.batches[j])
            && (forall i | 0 <= i < |t.batches| :: |t.batches[i]| <= 10)
            && (forall i, c | 0 <= i < |t.batches| && c in t.batches[i] :: c in t'.cmds && t'.cmds[c].status != Queued)
  {
    RunKeeps(EMPTY_TABLE, run);
    RunKeeps(After(EMPTY_TABLE, run), more);
  }

  /** A poll that overlaps no other takes the oldest pending commands of its node, ten or all of them. */
  lemma UncontendedTakesOldest(t: Table, p: PollId, node: NodeId, batch: set<CmdId>)
    requires t.held == map[] && Enabled(t, Lock(p, node, batch))
    ensures var pending := set c | c in t.cmds && t.cmds[c].node == node && t.cmds[c].status == Queued;
            && batch <= pending
            && |batch| == (if |pending| <= 10 then |pending| else 10)
            && forall c, d | c in batch && d in pending && d !in batch :: t.cmds[c].created <= t.cmds[d].created
  {
    var pending := set c | c in t.cmds && t.cmds[c].node == node && t.cmds[c].status == Queued;
    assert LockedRows(t) == {};
    assert forall c :: c in pending <==> Selectable(t.cmds, node, LockedRows(t), c);
    if |batch| < BATCH_LIMIT {
      assert batch == pending;
    } else {
      SubsetIsSmaller(batch, pending);
    }
  }

  lemma SubsetIsSmaller(a: set<CmdId>, b: set<CmdId>)
    requires a <= b
    ensures |a| <= |b|
  {
    assert b == a + (b - a);
  }

  /** With others in flight the only older commands it leaves behind are locked ones. */
  lemma ContendedSkipsOnlyLocked(t: Table, p: PollId, node: NodeId, batch: set<CmdId>, c: CmdId, d: CmdId)
    requires Enabled(t, Lock(p, node, batch)) && c in batch && c in t.cmds
    requires d in t.cmds && t.cmds[d].node == node && t.cmds[d].status == Queued
    requires t.cmds[d].created < t.cmds[c].created && d !in batch
    ensures Locked(t, d)
  {
    assert !Selectable(t.cmds, node, LockedRows(t), d);
  }

  // ---------------------------------------------------------------- what agents receive

  /** The commands of one batch in some order. */
  ghost predicate Orders(items: seq<CmdId>, batch: set<CmdId>) {
    && (forall i, j | 0 <= i < j < |items| :: items[i] != items[j])
    && (forall c :: c in batch <==> c in items)
  }

  /** A log of everything agents were handed in the first n batches: every batch, each in some order. */
  ghost predicate Unrolls(log: seq<CmdId>, batches: seq<set<CmdId>>, n: nat)
    requires n <= |batches|
    decreases n
  {
    if n == 0 then log == []
    else exists k | 0 <= k <= |log| :: Orders(log[k..], batches[n - 1]) && Unrolls(log[..k], batches, n - 1)
  }

  lemma LastUnrolled(log: seq<CmdId>, batches: seq<set<CmdId>>, n: nat) returns (head: seq<CmdId>, tail: seq<CmdId>)
    requires 0 < n <= |batches| && Unrolls(log, batches, n)
    ensures log == head + tail && Orders(tail, batches[n - 1]) && Unrolls(head, batches, n - 1)
  {
    var k :| 0 <= k <= |log| && Orders(log[k..], batches[n - 1]) && Unrolls(log[..k], batches, n - 1);
    head, tail := log[..k], log[k..];
  }

  lemma {:induction false} UnrolledIn(log: seq<CmdId>, batches: seq<set<CmdId>>, n: nat, c: CmdId) returns (i: nat)
    requires n <= |batches| && Unrolls(log, batches, n) && c in log
    ensures i < n && c in batches[i]
    decreases n
  {
    var head, tail := LastUnrolled(log, batches, n);
    if c in tail {
      i := n - 1;
    } else {
      i := UnrolledIn(head, batches, n - 1, c);
    }
  }

  ghost predicate NoRepeats(log: seq<CmdId>) { forall a, b | 0 <= a < b < |log| :: log[a] != log[b] }

  lemma {:induction false} UnrolledOnce(log: seq<CmdId>, batches: seq<set<CmdId>>, n: nat)
    requires n <= |batches| && Unrolls(log, batches, n)
    requires forall i, j | 0 <= i < j < |batches| :: batches[i] !! batches[j]
    ensures NoRepeats(log)
    decreases n
  {
    if n > 0 {
      var head, tail := LastUnrolled(log, batches, n);
      UnrolledOnce(head, batches, n - 1);
      forall c | c in head ensures c !in tail {
        var i := UnrolledIn(head, batches, n - 1, c);
        assert batches[i] !! batches[n - 1];
      }
      JoinedOnce(head, tail);
    }
  }

  lemma JoinedOnce(head: seq<CmdId>, tail: seq<CmdId>)
    requires NoRepeats(head) && NoRepeats(tail)
    requires forall c | c in head :: c !in tail
    ensures NoRepeats(head + tail)
  {
    var log := head + tail;
    forall a, b | 0 <= a < b < |log| ensures log[a] != log[b] {
      if a < |head| <= b {
        assert log[a] == head[a] && head[a] in head && log[b] == tail[b - |head|];
      } else if |head| <= a {
        assert log[a] == tail[a - |head|] && log[b] == tail[b - |head|];
      }
    }
  }

  /** No command reaches an agent twice. */
  lemma NoCommandIsHandedOutTwice(run: seq<Action>, log: seq<CmdId>)
    requires IsRun(EMPTY_TABLE, run)
    requires var batches := After(EMPTY_TABLE, run).batches; Unrolls(log, batches, |batches|)
    ensures NoRepeats(log)
  {
    RunKeeps(EMPTY_TABLE, run);
    var batches := After(EMPTY_TABLE, run).batches;
    UnrolledOnce(log, batches, |batches|);
  }
}
