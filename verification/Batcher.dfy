/**
 The route batcher as a monitor (control/internal/routing/batcher.go). A step is what happens between taking the mutex
 and releasing it; while flushLocked has it released, other steps happen.
 */
module Batcher {
  import opened Wrappers
  import opened Caddy
  import opened Batching

  type TimerId = nat

  const MAX_BUF := 50

  /** armed are the timers that will fire; waiting counts the callbacks that have fired and wait for the mutex.
      taken and accepted record the batches taken and the changes accepted so far, in order. */
  datatype Monitor = Monitor(pending: Batch, timer: Option<TimerId>, stopped: bool,
                             armed: set<TimerId>, waiting: nat, made: nat,
                             taken: seq<Batch>, accepted: seq<Change>)

  const NEW := Monitor(map[], None, false, {}, 0, 0, [], [])

  datatype Action =
    | Enqueue(change: Change)
    | Fire(t: TimerId)   // the runtime starts the callback, which waits for the mutex
    | Callback           // a waiting callback gets the mutex
    | Stop

  predicate Enabled(s: Monitor, a: Action) {
    match a
    case Enqueue(_) => true
    case Fire(t) => t in s.armed
    case Callback => s.waiting > 0
    case Stop => true
  }

  function StopTimer(s: Monitor): Monitor {
    if s.timer.Some? then s.(armed := s.armed - {s.timer.value}, timer := None) else s
  }

  /** The part of flushLocked before the mutex is released. */
  function Flush(s: Monitor): Monitor {
    if s.pending == map[] then s else s.(pending := map[], timer := None, taken := s.taken + [s.pending])
  }

  function StartTimer(s: Monitor): Monitor {
    if s.timer.Some? then s.(armed := s.armed + {s.timer.value})
    else s.(timer := Some(s.made), armed := s.armed + {s.made}, made := s.made + 1)
  }

  function Step(s: Monitor, a: Action): Monitor
    requires Enabled(s, a)
  {
    match a
    case Enqueue(change) =>
      if s.stopped then s
      else
        var s' := s.(pending := s.pending[Key(change) := change], accepted := s.accepted + [change]);
        if |s'.pending| >= MAX_BUF then Flush(StopTimer(s')) else StartTimer(s')
    case Fire(t) => s.(armed := s.armed - {t}, waiting := s.waiting + 1)
    case Callback =>
      var s' := s.(waiting := s.waiting - 1);
      if s.stopped then s' else Flush(s')
    case Stop =>
      if s.stopped then s else Flush(StopTimer(s.(stopped := true)))
  }

  predicate IsRun(s: Monitor, run: seq<Action>)
    decreases |run|
  {
    run == [] || (Enabled(s, run[0]) && IsRun(Step(s, run[0]), run[1..]))
  }

  function After(s: Monitor, run: seq<Action>): Monitor
    requires IsRun(s, run)
    decreases |run|
  {
    if run == [] then s else After(Step(s, run[0]), run[1..])
  }

  // ---------------------------------------------------------------- no stranded change

  /** Whenever the mutex is free. */
  ghost predicate Inv(s: Monitor) {
    && Keyed(s.pending) && (forall b | b in s.taken :: Keyed(b) && b != map[] && |b| <= MAX_BUF)
    && |s.pending| < MAX_BUF
    && (s.timer == None <==> s.pending == map[])
    && (s.pending != map[] ==> s.timer.value in s.armed || s.waiting > 0)
    && (s.stopped ==> s.pending == map[])
    && (forall t | t in s.armed :: t < s.made) && (s.timer.Some? ==> s.timer.value < s.made)
  }

  lemma EnqueueKeeps(s: Monitor, change: Change)
    requires Inv(s)
    ensures Inv(Step(s, Enqueue(change)))
  {
    if !s.stopped {
      var pending := s.pending[Key(change) := change];
      assert pending.Keys == s.pending.Keys + {Key(change)};
      assert |pending| == |pending.Keys| && |s.pending| == |s.pending.Keys|;
      assert |pending| <= |s.pending| + 1;
      assert Key(change) in pending;
      if |pending| >= MAX_BUF {
        FlushedBatches(s.taken, pending);
        assert Step(s, Enqueue(change)).pending == map[];
      } else {
        var s' := Step(s, Enqueue(change));
        assert s'.pending == pending && s'.timer.Some? && s'.timer.value in s'.armed;
      }
    }
  }

  lemma FlushedBatches(taken: seq<Batch>, pending: Batch)
    requires Keyed(pending) && pending != map[] && |pending| <= MAX_BUF
    requires forall b | b in taken :: Keyed(b) && b != map[] && |b| <= MAX_BUF
    ensures forall b | b in taken + [pending] :: Keyed(b) && b != map[] && |b| <= MAX_BUF
  {
  }

  lemma StepKeeps(s: Monitor, a: Action)
    requires Inv(s) && Enabled(s, a)
    ensures Inv(Step(s, a)) && (s.stopped ==> Step(s, a).stopped)
  {
    match a
    case Enqueue(change) => EnqueueKeeps(s, change);
    case Fire(_) =>
    case Callback => if s.pending != map[] { FlushedBatches(s.taken, s.pending); }
    case Stop => if s.pending != map[] { FlushedBatches(s.taken, s.pending); }
  }

  lemma {:induction false} RunKeeps(s: Monitor, run: seq<Action>)
    requires Inv(s) && IsRun(s, run)
    ensures Inv(After(s, run)) && (s.stopped ==> After(s, run).stopped)
    decreases |run|
  {
    if run != [] {
      StepKeeps(s, run[0]);
      RunKeeps(Step(s, run[0]), run[1..]);
    }
  }

  /** In every run: there is a timer exactly when changes are pending, fewer than maxBuf of them, and then a callback is
      outstanding that will take them all when it runs, if nobody takes them before. */
  lemma NoStrandedChange(run: seq<Action>)
    requires IsRun(NEW, run)
    ensures var s := After(NEW, run);
            && (s.timer == None <==> s.pending == map[]) && |s.pending| < 50
            && (s.pending != map[] ==>
                  && !s.stopped && (s.timer.value in s.armed || s.waiting > 0)
                  && (var due := if s.waiting > 0 then [Callback] else [Fire(s.timer.value), Callback];
                      IsRun(s, due) && After(s, due).pending == map[] && After(s, due).taken == s.taken + [s.pending]))
  {
    RunKeeps(NEW, run);
    var s := After(NEW, run);
    if s.pending != map[] {
      if s.waiting > 0 {
        assert [Callback][1..] == [];
        assert IsRun(Step(s, Callback), []);
      } else {
        var fire := Fire(s.timer.value);
        assert [fire, Callback][1..] == [Callback] && [Callback][1..] == [];
        assert IsRun(Step(Step(s, fire), Callback), []);
      }
    }
  }

  /** In every run: a change is kept under its app and, when it is the fiftieth app, takes the whole batch with it and
      stops the timer; otherwise it takes nothing and finds its timer armed afresh, the one that was running if there
      was one. After Stop it is dropped. */
  lemma EnqueueTakesAtFifty(run: seq<Action>, change: Change)
    requires IsRun(NEW, run)
    ensures var s := After(NEW, run); var s' := Step(s, Enqueue(change));
            var pending := s.pending[Key(change) := change];
            if s.stopped then s' == s
            else
              && s'.accepted == s.accepted + [change] && s'.waiting == s.waiting && !s'.stopped
              && if |pending| == 50
                 then && s'.taken == s.taken + [pending] && s'.pending == map[] && s'.timer.None?
                      && s'.armed == (if s.timer.Some? then s.armed - {s.timer.value} else s.armed)
                 else && s'.taken == s.taken && s'.pending == pending
                      && s'.timer.Some? && s'.armed == s.armed + {s'.timer.value}
                      && (s.timer.Some? ==> s'.timer == s.timer)
  {
    RunKeeps(NEW, run);
    var s := After(NEW, run);
    var pending := s.pending[Key(change) := change];
    assert pending.Keys == s.pending.Keys + {Key(change)};
    assert |pending| == |pending.Keys| && |s.pending| == |s.pending.Keys|;
    assert |pending| <= |s.pending| + 1;
  }

  /** A callback that gets the mutex takes all that is pending, unless Stop came first; Stop takes it too. */
  lemma CallbackTakesAll(run: seq<Action>, a: Action)
    requires IsRun(NEW, run) && Enabled(After(NEW, run), a) && (a.Callback? || a.Stop?)
    ensures var s := After(NEW, run); var s' := Step(s, a);
            && s'.pending == map[] && s'.accepted == s.accepted
            && s'.taken == (if s.pending == map[] then s.taken else s.taken + [s.pending])
            && s'.waiting == (if a.Callback? then s.waiting - 1 else s.waiting)
            && s'.stopped == (s.stopped || a.Stop?)
  {
    RunKeeps(NEW, run);
  }

  lemma {:induction false} StoppedStays(s: Monitor, run: seq<Action>)
    requires Inv(s) && s.stopped && IsRun(s, run)
    ensures var s' := After(s, run); s'.pending == map[] && s'.taken == s.taken && s'.accepted == s.accepted
    decreases |run|
  {
    if run != [] {
      StepKeeps(s, run[0]);
      StoppedStays(Step(s, run[0]), run[1..]);
    }
  }

  /** Once Stop has taken the batch nothing is ever pending, taken or accepted again. */
  lemma StopIsFinal(run: seq<Action>, more: seq<Action>)
    requires IsRun(NEW, run) && IsRun(Step(After(NEW, run), Stop), more)
    ensures var s := Step(After(NEW, run), Stop); var s' := After(s, more);
            s.pending == map[] && s'.pending == map[] && s'.taken == s.taken && s'.accepted == s.accepted
  {
    RunKeeps(NEW, run);
    StepKeeps(After(NEW, run), Stop);
    StoppedStays(Step(After(NEW, run), Stop), more);
  }

  // ---------------------------------------------------------------- refinement

  predicate Known(changes: seq<Change>) { forall c | c in changes :: !c.Other? }

  /** The batches in the order they were taken, then what is pending, amount to the accepted changes one by one. */
  ghost predicate Refines(s: Monitor, routes: Routes) {
    Overlay(OverlayAll(routes, s.taken), s.pending) == ApplyEach(routes, s.accepted)
  }

  lemma FlushRefines(s: Monitor, routes: Routes)
    requires Refines(s, routes)
    ensures Refines(Flush(s), routes)
  {
    if s.pending != map[] {
      assert (s.taken + [s.pending])[..|s.taken|] == s.taken;
      assert Overlay(OverlayAll(routes, s.taken + [s.pending]), map[]) == OverlayAll(routes, s.taken + [s.pending]);
    }
  }

  lemma StepRefines(s: Monitor, a: Action, routes: Routes)
    requires Inv(s) && Enabled(s, a) && Refines(s, routes) && Known(Step(s, a).accepted)
    ensures Refines(Step(s, a), routes)
  {
    match a
    case Enqueue(change) =>
      if !s.stopped {
        var s' := s.(pending := s.pending[Key(change) := change], accepted := s.accepted + [change]);
        assert change in Step(s, a).accepted;
        OverlayOneMore(OverlayAll(routes, s.taken), s.pending, change);
        assert (s.accepted + [change])[..|s.accepted|] == s.accepted;
        assert Refines(s', routes);
        FlushRefines(StopTimer(s'), routes);
      }
    case Fire(_) =>
    case Callback => FlushRefines(s.(waiting := s.waiting - 1), routes);
    case Stop => FlushRefines(StopTimer(s.(stopped := true)), routes);
  }

  lemma {:induction false} AcceptedGrows(s: Monitor, run: seq<Action>)
    requires IsRun(s, run)
    ensures s.accepted <= After(s, run).accepted
    decreases |run|
  {
    if run != [] {
      AcceptedGrows(Step(s, run[0]), run[1..]);
    }
  }

  lemma {:induction false} RunRefines(s: Monitor, run: seq<Action>, routes: Routes)
    requires Inv(s) && IsRun(s, run) && Refines(s, routes) && Known(After(s, run).accepted)
    ensures Refines(After(s, run), routes)
    decreases |run|
  {
    if run != [] {
      StepKeeps(s, run[0]);
      AcceptedGrows(Step(s, run[0]), run[1..]);
      KnownPrefix(Step(s, run[0]).accepted, After(s, run).accepted);
      StepRefines(s, run[0], routes);
      RunRefines(Step(s, run[0]), run[1..], routes);
    }
  }

  lemma KnownPrefix(a: seq<Change>, b: seq<Change>)
    requires a <= b && Known(b)
    ensures Known(a)
  {
    forall c | c in a ensures !c.Other? {
      var i :| 0 <= i < |a| && a[i] == c;
      assert b[i] == c && c in b;
    }
  }

  /** Batching loses and reorders nothing: over any run of enqueues, callbacks and Stop, starting from any routes. */
  lemma BatchingRefines(run: seq<Action>, routes: Routes)
    requires IsRun(NEW, run) && Known(After(NEW, run).accepted)
    ensures Refines(After(NEW, run), routes)
  {
    assert Overlay(routes, map[]) == routes;
    RunRefines(NEW, run, routes);
  }

  // ---------------------------------------------------------------- the batcher itself

  class RouteBatcher {
    var pending: Batch
    var timer: Option<TimerId>
    var stopped: bool
    /** The runtime's timers and callbacks. */
    var armed: set<TimerId>
    var waiting: nat
    var made: nat
    var taken: seq<Batch>
    var accepted: seq<Change>

    function State(): Monitor
      reads this
    {
      Monitor(pending, timer, stopped, armed, waiting, made, taken, accepted)
    }

    constructor ()
      ensures State() == NEW
    {
      pending, timer, stopped, armed, waiting, made, taken, accepted := map[], None, false, {}, 0, 0, [], [];
    }

    /** One change; others are the steps that happen while a flush has the mutex released. */
    method EnqueueChange(change: Change, others: seq<Action>) returns (calls: Option<(seq<Route>, seq<App>)>)
      requires IsRun(Step(State(), Enqueue(change)), others)
      requires Inv(State())
      modifies this
      ensures State() == if calls.Some? then After(Step(old(State()), Enqueue(change)), others)
                         else Step(old(State()), Enqueue(change))
      ensures calls.Some? ==> Splits(old(pending)[Key(change) := change], calls.value.0, calls.value.1)
      ensures calls.Some? <==> !old(stopped) && |old(pending)[Key(change) := change]| >= 50
    {
      ghost var start := State();
      if stopped { return None; }
      pending := pending[Key(change) := change];
      accepted := accepted + [change];
      if |pending| >= MAX_BUF {
        StopTimerLocked();
        assert Flush(State()) == Step(start, Enqueue(change));
        calls := FlushLocked(others);
        return;
      }
      if timer.Some? {
        armed := armed + {timer.value};
      } else {
        timer := Some(made);
        armed := armed + {made};
        made := made + 1;
      }
      calls := None;
    }

    /** The timer's function, once it has the mutex. */
    method OnTimer(others: seq<Action>) returns (calls: Option<(seq<Route>, seq<App>)>)
      requires waiting > 0 && IsRun(Step(State(), Callback), others)
      requires Inv(State())
      modifies this
      ensures State()
              == if calls.Some? then After(Step(old(State()), Callback), others) else Step(old(State()), Callback)
      ensures calls.Some? ==> Splits(old(pending), calls.value.0, calls.value.1)
      ensures calls.Some? <==> !old(stopped) && old(pending) != map[]
    {
      waiting := waiting - 1;
      calls := None;
      if !stopped {
        calls := FlushLocked(others);
      }
    }

    method StopBatcher(others: seq<Action>) returns (calls: Option<(seq<Route>, seq<App>)>)
      requires IsRun(Step(State(), Stop), others)
      requires Inv(State())
      modifies this
      ensures State() == if calls.Some? then After(Step(old(State()), Stop), others) else Step(old(State()), Stop)
      ensures calls.Some? ==> Splits(old(pending), calls.value.0, calls.value.1)
      ensures calls.Some? <==> !old(stopped) && old(pending) != map[]
    {
      ghost var start := State();
      if stopped { return None; }
      stopped := true;
      StopTimerLocked();
      calls := None;
      assert Flush(State()) == Step(start, Stop);
      if |pending| > 0 {
        calls := FlushLocked(others);
      }
    }

    method StopTimerLocked()
      modifies this`armed, this`timer
      ensures State() == StopTimer(old(State()))
    {
      if timer.Some? {
        armed := armed - {timer.value};
        timer := None;
      }
    }

    /** Collect and clear, release the mutex around Apply, take it again; calls are the arguments of Apply. */
    method FlushLocked(others: seq<Action>) returns (calls: Option<(seq<Route>, seq<App>)>)
      requires Keyed(pending) && IsRun(Flush(State()), others)
      modifies this
      ensures calls.Some? <==> old(pending) != map[]
      ensures calls.Some? ==> Splits(old(pending), calls.value.0, calls.value.1)
      ensures State() == if calls.Some? then After(Flush(old(State())), others) else old(State())
    {
      if |pending| == 0 { return None; }
      var adds, removes := Collect(pending);
      taken := taken + [pending];
      pending := map[];
      timer := None;
      WhileUnlocked(others);
      return Some((adds, removes));
    }

    static method Collect(batch: Batch) returns (adds: seq<Route>, removes: seq<App>)
      requires Keyed(batch)
      ensures Splits(batch, adds, removes)
    {
      adds, removes := [], [];
      var todo := batch.Keys;
      while todo != {}
        invariant todo <= batch.Keys
        invariant forall i, j | 0 <= i < j < |adds| :: adds[i].app != adds[j].app
        invariant forall r | r in adds :: r.app in batch && r.app !in todo && batch[r.app] == Add(r)
        invariant forall app | app in batch && app !in todo && batch[app].Add? :: batch[app].route in adds
        invariant forall app :: app in removes <==> app in batch && app !in todo && batch[app] == Remove(app)
        decreases todo
      {
        var app :| app in todo;
        todo := todo - {app};
        match batch[app] {
          case Add(route) => adds := adds + [route];
          case Remove(gone) => removes := removes + [gone];
          case Other(_) =>
        }
      }
    }

    /** Whatever the other goroutines do while the mutex is free. */
    method WhileUnlocked(others: seq<Action>)
      requires IsRun(State(), others)
      modifies this
      ensures State() == After(old(State()), others)
    {
      var s := After(State(), others);
      pending, timer, stopped, armed := s.pending, s.timer, s.stopped, s.armed;
      waiting, made, taken, accepted := s.waiting, s.made, s.taken, s.accepted;
    }
  }
}
