/**
 Flushes in flight: flushLocked releases the mutex around Apply, so several batches can be on their way to the proxy at
 once, and their calls interleave. A flush makes one call for each app of its batch, every add before every remove.
 */
module Flights {
  import opened Wrappers
  import opened Caddy
  import opened Batching
  import B = Batcher

  /** A batch that was taken, and the apps whose call is still to be made. */
  datatype Flight = Flight(batch: Batch, left: set<App>)

  /** flights[i] carries the i-th batch taken. */
  datatype Air = Air(monitor: B.Monitor, flights: seq<Flight>, proxy: Routes)

  const START := Air(B.NEW, [], map[])

  datatype Action = Do(a: B.Action) | Call(i: nat, app: App, fails: bool)

  /** An unknown action makes no call. */
  function Calls(b: Batch): set<App> { set app | app in b && !b[app].Other? }

  predicate Enabled(s: Air, a: Action) {
    match a
    case Do(b) => B.Enabled(s.monitor, b)
    case Call(i, app, _) => i < |s.flights| && MayCall(s.flights[i], app)
  }

  predicate MayCall(f: Flight, app: App) {
    app in f.left && app in f.batch
    && (f.batch[app].Remove? ==> forall x | x in f.left && x in f.batch :: !f.batch[x].Add?)
  }

  function Step(s: Air, a: Action): Air
    requires Enabled(s, a)
  {
    match a
    case Do(b) =>
      var monitor := B.Step(s.monitor, b);
      if |monitor.taken| > |s.monitor.taken|
      then s.(monitor := monitor,
              flights := s.flights + [Flight(monitor.taken[|monitor.taken| - 1],
                                             Calls(monitor.taken[|monitor.taken| - 1]))])
      else s.(monitor := monitor)
    case Call(i, app, fails) =>
      var f := s.flights[i];
      Air(s.monitor, s.flights[i := f.(left := f.left - {app})],
          if fails then s.proxy else ApplyChange(s.proxy, f.batch[app]))
  }

  predicate IsRun(s: Air, run: seq<Action>)
    decreases |run|
  {
    run == [] || (Enabled(s, run[0]) && IsRun(Step(s, run[0]), run[1..]))
  }

  function After(s: Air, run: seq<Action>): Air
    requires IsRun(s, run)
    decreases |run|
  {
    if run == [] then s else After(Step(s, run[0]), run[1..])
  }

  lemma {:induction false} RunsCompose(s: Air, run: seq<Action>, more: seq<Action>)
    requires IsRun(s, run) && IsRun(After(s, run), more)
    ensures IsRun(s, run + more) && After(s, run + more) == After(After(s, run), more)
    decreases |run|
  {
    if run == [] {
      assert run + more == more;
    } else {
      var all, rest := run + more, run[1..];
      assert all[0] == run[0] && all[1..] == rest + more;
      RunsCompose(Step(s, run[0]), rest, more);
    }
  }

  // ---------------------------------------------------------------- the invariant

  ghost predicate Inv(s: Air) {
    && B.Inv(s.monitor)
    && |s.flights| == |s.monitor.taken|
    && (forall i | 0 <= i < |s.flights| :: s.flights[i].batch == s.monitor.taken[i])
    && (forall i | 0 <= i < |s.flights| :: Keyed(s.flights[i].batch) && s.flights[i].left <= Calls(s.flights[i].batch))
  }

  /** A monitor step takes at most one batch, and takes none back. */
  lemma TakesAtMostOne(m: B.Monitor, a: B.Action)
    requires B.Enabled(m, a)
    ensures var m' := B.Step(m, a);
            m'.taken == m.taken || (|m'.taken| == |m.taken| + 1 && m'.taken[..|m.taken|] == m.taken)
  {
  }

  lemma StepKeeps(s: Air, a: Action)
    requires Inv(s) && Enabled(s, a)
    ensures Inv(Step(s, a))
  {
    if a.Do? {
      TakesAtMostOne(s.monitor, a.a);
      B.StepKeeps(s.monitor, a.a);
      var m' := B.Step(s.monitor, a.a);
      if |m'.taken| > |s.monitor.taken| {
        assert m'.taken[|s.monitor.taken|] in m'.taken;
        assert forall i | 0 <= i < |s.monitor.taken| :: m'.taken[i] == m'.taken[..|s.monitor.taken|][i];
      }
    }
  }

  lemma {:induction false} RunKeeps(s: Air, run: seq<Action>)
    requires Inv(s) && IsRun(s, run)
    ensures Inv(After(s, run))
    decreases |run|
  {
    if run != [] {
      StepKeeps(s, run[0]);
      RunKeeps(Step(s, run[0]), run[1..]);
    }
  }

  // ---------------------------------------------------------------- what a route ends as

  function At(m: Routes, app: App): Option<Route> { if app in m then Some(m[app]) else None }

  /** The route an add or a remove leaves. */
  function Left(c: Change): Option<Route> { if c.Add? then Some(c.route) else None }

  /** The change of the last batch that has one for the app. */
  function Latest(batches: seq<Batch>, app: App): Option<Change> {
    if batches == [] then None
    else
      var b := batches[|batches| - 1];
      if app in Calls(b) then Some(b[app]) else Latest(batches[..|batches| - 1], app)
  }

  lemma {:induction false} OverlayAllAt(routes: Routes, batches: seq<Batch>, app: App)
    requires forall b | b in batches :: Keyed(b)
    ensures At(OverlayAll(routes, batches), app)
            == if Latest(batches, app).Some? then Left(Latest(batches, app).value) else At(routes, app)
  {
    if batches != [] {
      var n := |batches| - 1;
      OverlayAllAt(routes, batches[..n], app);
      assert batches[n] in batches;
    }
  }

  lemma SameRoutes(a: Routes, b: Routes)
    ensures a == b <==> forall app :: At(a, app) == At(b, app)
  {
    if forall app :: At(a, app) == At(b, app) {
      forall app ensures app in a <==> app in b {
        assert At(a, app) == At(b, app);
      }
      forall app | app in a ensures a[app] == b[app] {
        assert At(a, app) == At(b, app);
      }
    }
  }

  /** Changes of one app that leave the same route are the same change. */
  lemma LeftIsInjective(b: Batch, b': Batch, app: App)
    requires Keyed(b) && Keyed(b') && app in Calls(b) && app in Calls(b')
    ensures Left(b[app]) == Left(b'[app]) <==> b[app] == b'[app]
  {
  }

  lemma {:induction false} LatestIsTaken(batches: seq<Batch>, i: nat, app: App)
    requires i < |batches| && app in Calls(batches[i])
    ensures Latest(batches, app).Some?
    ensures exists j | 0 <= j < |batches| :: app in Calls(batches[j]) && Latest(batches, app) == Some(batches[j][app])
  {
    var n := |batches| - 1;
    if app in Calls(batches[n]) {
    } else {
      LatestIsTaken(batches[..n], i, app);
      var j :| 0 <= j < n && app in Calls(batches[..n][j]) && Latest(batches[..n], app) == Some(batches[..n][j][app]);
      assert batches[j] == batches[..n][j];
    }
  }

  // ---------------------------------------------------------------- when the proxy ends right

  ghost predicate Outstanding(s: Air, app: App) { exists i | 0 <= i < |s.flights| :: app in s.flights[i].left }

  /** Every call still to be made about the app is the one of the last batch; when there is none, its route is right. */
  ghost predicate SafeAt(s: Air, routes: Routes, app: App) {
    && (forall i | 0 <= i < |s.flights| && app in s.flights[i].left && app in s.flights[i].batch ::
          Latest(s.monitor.taken, app) == Some(s.flights[i].batch[app]))
    && (!Outstanding(s, app) ==> At(s.proxy, app) == At(OverlayAll(routes, s.monitor.taken), app))
  }

  ghost predicate Safe(s: Air, routes: Routes) { forall app :: SafeAt(s, routes, app) }

  predicate Landed(s: Air) { forall i | 0 <= i < |s.flights| :: s.flights[i].left == {} }

  /** The calls that are left, in some order the flushes can make them in, none of them failing. */
  ghost predicate Completion(s: Air, run: seq<Action>) {
    IsRun(s, run) && (forall a | a in run :: a.Call? && !a.fails) && Landed(After(s, run))
  }

  lemma ApplyAt(m: Routes, c: Change, app: App)
    requires !c.Other?
    ensures At(ApplyChange(m, c), app) == if app == Key(c) then Left(c) else At(m, app)
  {
  }

  lemma CallKeepsOwnApp(s: Air, a: Action, routes: Routes)
    requires Inv(s) && Enabled(s, a) && a.Call? && !a.fails && SafeAt(s, routes, a.app)
    ensures SafeAt(Step(s, a), routes, a.app)
  {
    var s' := Step(s, a);
    var change := s.flights[a.i].batch[a.app];
    assert Latest(s.monitor.taken, a.app) == Some(change);
    OverlayAllAt(routes, s.monitor.taken, a.app);
    ApplyAt(s.proxy, change, a.app);
  }

  lemma CallKeepsOtherApp(s: Air, a: Action, routes: Routes, app: App)
    requires Inv(s) && Enabled(s, a) && a.Call? && !a.fails && SafeAt(s, routes, app) && app != a.app
    ensures SafeAt(Step(s, a), routes, app)
  {
    var s' := Step(s, a);
    ApplyAt(s.proxy, s.flights[a.i].batch[a.app], app);
    assert forall i | 0 <= i < |s.flights| ::
        s'.flights[i].batch == s.flights[i].batch && (app in s'.flights[i].left <==> app in s.flights[i].left);
    StillOutstanding(s, s', app);
  }

  lemma CallKeepsSafe(s: Air, a: Action, routes: Routes)
    requires Inv(s) && Safe(s, routes) && Enabled(s, a) && a.Call? && !a.fails
    ensures Safe(Step(s, a), routes)
  {
    forall app ensures SafeAt(Step(s, a), routes, app) {
      assert SafeAt(s, routes, app);
      if app == a.app {
        CallKeepsOwnApp(s, a, routes);
      } else {
        CallKeepsOtherApp(s, a, routes, app);
      }
    }
  }

  lemma {:induction false} SafeCompletes(s: Air, run: seq<Action>, routes: Routes)
    requires Inv(s) && Safe(s, routes) && Completion(s, run)
    ensures After(s, run).proxy == OverlayAll(routes, s.monitor.taken)
    decreases |run|
  {
    if run == [] {
      forall app ensures At(s.proxy, app) == At(OverlayAll(routes, s.monitor.taken), app) {
        assert SafeAt(s, routes, app);
      }
      SameRoutes(s.proxy, OverlayAll(routes, s.monitor.taken));
    } else {
      assert run[0] in run;
      StepKeeps(s, run[0]);
      CallKeepsSafe(s, run[0], routes);
      SafeCompletes(Step(s, run[0]), run[1..], routes);
    }
  }

  // ---------------------------------------------------------------- schedules

  /** Only flight i made calls, all it had left. */
  ghost predicate Lands(s: Air, i: nat, s': Air)
    requires i < |s.flights|
  {
    && s'.monitor == s.monitor && s'.flights == s.flights[i := s.flights[i].(left := {})]
    && Writes(s.flights[i], s.proxy, s'.proxy)
  }

  /** Exactly the apps the flight had left were written. */
  ghost predicate Writes(f: Flight, m: Routes, m': Routes) {
    forall app :: At(m', app) == if app in f.left && app in f.batch then Left(f.batch[app]) else At(m, app)
  }

  lemma NextCall(f: Flight) returns (app: App)
    requires f.left != {} && f.left <= Calls(f.batch)
    ensures MayCall(f, app)
  {
    if x :| x in f.left && f.batch[x].Add? {
      app := x;
    } else {
      app :| app in f.left;
    }
  }

  /** run makes calls that succeed, and leads from s to s'. */
  ghost predicate Calling(s: Air, run: seq<Action>, s': Air) {
    IsRun(s, run) && (forall a | a in run :: a.Call? && !a.fails) && After(s, run) == s'
  }

  lemma CallsCompose(s: Air, run: seq<Action>, s': Air, more: seq<Action>, s'': Air) returns (both: seq<Action>)
    requires Calling(s, run, s') && Calling(s', more, s'')
    ensures Calling(s, both, s'')
  {
    both := run + more;
    RunsCompose(s, run, more);
  }

  lemma {:induction false} LandFlight(s: Air, i: nat) returns (run: seq<Action>, s': Air)
    requires Inv(s) && i < |s.flights|
    ensures Calling(s, run, s') && Inv(s') && Lands(s, i, s')
    decreases |s.flights[i].left|
  {
    var f := s.flights[i];
    if f.left == {} {
      run, s' := [], s;
      assert s.flights[i := f.(left := {})] == s.flights;
    } else {
      var app := NextCall(f);
      var a := Call(i, app, false);
      var s1 := Step(s, a);
      StepKeeps(s, a);
      var rest;
      rest, s' := LandFlight(s1, i);
      run := [a] + rest;
      assert run[1..] == rest;
      assert s1.flights[i := s1.flights[i].(left := {})] == s.flights[i := f.(left := {})];
    }
  }

  /** All flights before n but flight i have landed. */
  ghost predicate LandedBut(s: Air, i: nat, n: nat, s': Air) {
    && Inv(s') && s'.monitor == s.monitor && |s'.flights| == |s.flights|
    && FlightsLanded(s.flights, i, n, s'.flights) && OthersStay(s, s')
  }

  ghost predicate FlightsLanded(flights: seq<Flight>, i: nat, n: nat, after: seq<Flight>)
    requires |after| == |flights|
  {
    forall j | 0 <= j < |flights| ::
      after[j] == Flight(flights[j].batch, if j < n && j != i then {} else flights[j].left)
  }

  /** Apps without an outstanding call keep their route. */
  ghost predicate OthersStay(s: Air, s': Air) {
    forall app | !Outstanding(s, app) :: At(s'.proxy, app) == At(s.proxy, app)
  }

  lemma LandedNone(s: Air, i: nat)
    requires Inv(s)
    ensures LandedBut(s, i, 0, s)
  {
  }

  lemma LandedSkip(s: Air, i: nat, s1: Air)
    requires LandedBut(s, i, i, s1)
    ensures LandedBut(s, i, i + 1, s1)
  {
  }

  lemma {:induction false} LandOthers(s: Air, i: nat, n: nat) returns (run: seq<Action>, s': Air)
    requires Inv(s) && n <= |s.flights|
    ensures Calling(s, run, s') && LandedBut(s, i, n, s')
    decreases n
  {
    if n == 0 {
      run, s' := [], s;
      LandedNone(s, i);
    } else {
      run, s' := LandOthers(s, i, n - 1);
      if n - 1 == i {
        LandedSkip(s, i, s');
      } else {
        var last, s'' := LandNext(s, i, n - 1, s');
        run := CallsCompose(s, run, s', last, s'');
        s' := s'';
      }
    }
  }

  lemma LandNext(s: Air, i: nat, n: nat, s1: Air) returns (run: seq<Action>, s': Air)
    requires Inv(s) && n < |s.flights| && n != i && LandedBut(s, i, n, s1)
    ensures Calling(s1, run, s') && LandedBut(s, i, n + 1, s')
  {
    run, s' := LandFlight(s1, n);
    LandedOneMore(s, i, n, s1, s');
  }

  lemma LandedOneMore(s: Air, i: nat, n: nat, s1: Air, s2: Air)
    requires Inv(s) && n < |s.flights| && n != i
    requires LandedBut(s, i, n, s1) && Lands(s1, n, s2) && Inv(s2)
    ensures LandedBut(s, i, n + 1, s2)
  {
    forall app | !Outstanding(s, app) ensures At(s2.proxy, app) == At(s.proxy, app) {
      assert app !in s.flights[n].left;
    }
  }

  /** Every flight can land, flight i last. */
  lemma LandLast(s: Air, i: nat) returns (run: seq<Action>)
    requires Inv(s) && i < |s.flights|
    ensures Completion(s, run)
    ensures forall app | app in s.flights[i].left :: At(After(s, run).proxy, app) == Left(s.flights[i].batch[app])
    ensures OthersStay(s, After(s, run))
  {
    var others, s1 := LandOthers(s, i, |s.flights|);
    var last, s2 := LandFlight(s1, i);
    run := CallsCompose(s, others, s1, last, s2);
    forall app | !Outstanding(s, app) ensures At(s2.proxy, app) == At(s.proxy, app) {
      assert app !in s.flights[i].left;
    }
  }

  /** Whatever order the remaining calls are made in, the proxy ends with the batches applied in the order they were
      taken: this is so exactly when every outstanding call about an app is the call of the last batch taken for it, and
      every app without one already has its route. */
  lemma EveryCompletionIsRightIff(s: Air, routes: Routes)
    requires Inv(s)
    ensures Safe(s, routes)
            <==> forall run | Completion(s, run) :: After(s, run).proxy == OverlayAll(routes, s.monitor.taken)
  {
    if Safe(s, routes) {
      forall run | Completion(s, run) ensures After(s, run).proxy == OverlayAll(routes, s.monitor.taken) {
        SafeCompletes(s, run, routes);
      }
    } else {
      var app :| !SafeAt(s, routes, app);
      var run := WrongCompletion(s, routes, app);
    }
  }

  lemma WrongCompletion(s: Air, routes: Routes, app: App) returns (run: seq<Action>)
    requires Inv(s) && !SafeAt(s, routes, app)
    ensures Completion(s, run) && After(s, run).proxy != OverlayAll(routes, s.monitor.taken)
  {
    var taken := s.monitor.taken;
    OverlayAllAt(routes, taken, app);
    if i: nat :| i < |s.flights| && app in s.flights[i].left && app in s.flights[i].batch
                 && Latest(taken, app) != Some(s.flights[i].batch[app]) {
      run := LandLast(s, i);
      LatestIsTaken(taken, i, app);
      var j :| 0 <= j < |taken| && app in Calls(taken[j]) && Latest(taken, app) == Some(taken[j][app]);
      assert taken[j] in taken && taken[i] in taken;
      LeftIsInjective(taken[i], taken[j], app);
      SameRoutes(After(s, run).proxy, OverlayAll(routes, taken));
    } else {
      run := LandAny(s, app);
      SameRoutes(After(s, run).proxy, OverlayAll(routes, taken));
    }
  }

  lemma LandAny(s: Air, app: App) returns (run: seq<Action>)
    requires Inv(s) && !Outstanding(s, app)
    ensures Completion(s, run) && At(After(s, run).proxy, app) == At(s.proxy, app)
  {
    if s.flights == [] {
      run := [];
    } else {
      run := LandLast(s, 0);
    }
  }

  // ---------------------------------------------------------------- taking a batch

  /** No outstanding call is about an app of the batch with another change. */
  predicate NoConflict(s: Air, b: Batch) {
    forall i | 0 <= i < |s.flights| :: forall app | app in s.flights[i].left :: !Conflict(s.flights[i], b, app)
  }

  predicate Conflict(f: Flight, b: Batch, app: App) {
    app in f.left && app in f.batch && app in Calls(b) && f.batch[app] != b[app]
  }

  /** The state after a step that took a batch. */
  predicate Took(s: Air, a: Action, b: Batch) {
    Enabled(s, a) && a.Do? && B.Step(s.monitor, a.a).taken == s.monitor.taken + [b]
  }

  /** Taking a batch keeps the proxy bound to end right exactly when no outstanding call conflicts with it. */
  lemma TakingKeepsSafeIff(s: Air, a: Action, b: Batch, routes: Routes)
    requires Inv(s) && Safe(s, routes) && Took(s, a, b)
    ensures Safe(Step(s, a), routes) <==> NoConflict(s, b)
  {
    var s' := Step(s, a);
    var taken := s.monitor.taken;
    assert s'.flights == s.flights + [Flight(b, Calls(b))];
    assert (taken + [b])[..|taken|] == taken;
    StepKeeps(s, a);
    if NoConflict(s, b) {
      forall app ensures SafeAt(s', routes, app) {
        TakenAt(s, s', b, routes, app);
      }
    } else {
      var i :| 0 <= i < |s.flights| && exists app | app in s.flights[i].left :: Conflict(s.flights[i], b, app);
      var app :| app in s.flights[i].left && Conflict(s.flights[i], b, app);
      assert s'.flights[i] == s.flights[i];
      assert !SafeAt(s', routes, app);
    }
  }

  lemma TakenAt(s: Air, s': Air, b: Batch, routes: Routes, app: App)
    requires Inv(s) && Inv(s') && SafeAt(s, routes, app) && NoConflict(s, b)
    requires s'.monitor.taken == s.monitor.taken + [b] && s'.flights == s.flights + [Flight(b, Calls(b))]
    requires s'.proxy == s.proxy
    ensures SafeAt(s', routes, app)
  {
    var taken := s.monitor.taken;
    assert (taken + [b])[..|taken|] == taken;
    assert forall i | 0 <= i < |s.flights| :: s'.flights[i] == s.flights[i];
    if app in Calls(b) {
      assert app in s'.flights[|s.flights|].left;
    } else {
      OverlayAllAt(routes, taken, app);
      OverlayAllAt(routes, taken + [b], app);
      StillOutstanding(s, s', app);
    }
  }

  lemma StillOutstanding(s: Air, s': Air, app: App)
    requires |s.flights| <= |s'.flights|
    requires forall i | 0 <= i < |s.flights| :: app in s.flights[i].left <==> app in s'.flights[i].left
    ensures Outstanding(s, app) ==> Outstanding(s', app)
  {
    if i :| 0 <= i < |s.flights| && app in s.flights[i].left {
      assert app in s'.flights[i].left;
    }
  }

  /** Every call succeeds, and no batch is taken while a conflicting call is outstanding. */
  ghost predicate Orderly(s: Air, a: Action) {
    && (a.Call? ==> !a.fails)
    && (forall b | Took(s, a, b) :: NoConflict(s, b))
  }

  ghost predicate IsOrderlyRun(s: Air, run: seq<Action>)
    decreases |run|
  {
    run == [] || (Enabled(s, run[0]) && Orderly(s, run[0]) && IsOrderlyRun(Step(s, run[0]), run[1..]))
  }

  lemma OrderlyStepKeepsSafe(s: Air, a: Action, routes: Routes)
    requires Inv(s) && Safe(s, routes) && Enabled(s, a) && Orderly(s, a)
    ensures Safe(Step(s, a), routes)
  {
    if a.Call? {
      CallKeepsSafe(s, a, routes);
    } else {
      TakesAtMostOne(s.monitor, a.a);
      var taken, taken' := s.monitor.taken, B.Step(s.monitor, a.a).taken;
      if taken' != taken {
        var b := taken'[|taken|];
        assert taken' == taken + [b];
        assert Took(s, a, b);
        TakingKeepsSafeIff(s, a, b, routes);
      } else {
        forall app ensures SafeAt(Step(s, a), routes, app) {
          assert SafeAt(s, routes, app);
          assert Outstanding(Step(s, a), app) <==> Outstanding(s, app);
        }
      }
    }
  }

  lemma {:induction false} OrderlyRunIsSafe(s: Air, run: seq<Action>, routes: Routes)
    requires Inv(s) && Safe(s, routes) && IsOrderlyRun(s, run)
    ensures IsRun(s, run) && Inv(After(s, run)) && Safe(After(s, run), routes)
    decreases |run|
  {
    if run != [] {
      OrderlyStepKeepsSafe(s, run[0], routes);
      StepKeeps(s, run[0]);
      OrderlyRunIsSafe(Step(s, run[0]), run[1..], routes);
    }
  }

  /** After an orderly run, once all flushes have finished, the proxy and what is pending amount to the accepted changes
      one by one. */
  lemma OrderlyRunRefines(run: seq<Action>)
    requires IsOrderlyRun(START, run)
    ensures IsRun(START, run)
    ensures var s := After(START, run);
            Landed(s) && B.Known(s.monitor.accepted) ==>
              Overlay(s.proxy, s.monitor.pending) == ApplyEach(map[], s.monitor.accepted)
  {
    OrderlyRunIsSafe(START, run, map[]);
    var s := After(START, run);
    if Landed(s) && B.Known(s.monitor.accepted) {
      assert Completion(s, []);
      SafeCompletes(s, [], map[]);
      MonitorRun(START, run);
      B.BatchingRefines(MonitorSteps(run), map[]);
    }
  }

  /** The monitor's own steps of a run. */
  function MonitorSteps(run: seq<Action>): seq<B.Action> {
    if run == [] then [] else (if run[0].Do? then [run[0].a] else []) + MonitorSteps(run[1..])
  }

  lemma {:induction false} MonitorRun(s: Air, run: seq<Action>)
    requires IsRun(s, run)
    ensures B.IsRun(s.monitor, MonitorSteps(run)) && B.After(s.monitor, MonitorSteps(run)) == After(s, run).monitor
    decreases |run|
  {
    if run != [] {
      MonitorRun(Step(s, run[0]), run[1..]);
      if run[0].Do? {
        assert MonitorSteps(run)[1..] == MonitorSteps(run[1..]);
      } else {
        assert MonitorSteps(run) == MonitorSteps(run[1..]);
      }
    }
  }

  // ---------------------------------------------------------------- it does happen

  /** One debounce window that ends with a flush of this change alone. */
  function Window(c: Change, t: B.TimerId): seq<Action> { [Do(B.Enqueue(c)), Do(B.Fire(t)), Do(B.Callback)] }

  lemma WindowTakes(s: Air, c: Change)
    requires s.monitor.pending == map[] && s.monitor.timer == None && !s.monitor.stopped && !c.Other?
    requires s.monitor.waiting == 0 && s.monitor.armed == {}
    ensures var run := Window(c, s.monitor.made);
            && IsRun(s, run)
            && After(s, run) == Air(s.monitor.(made := s.monitor.made + 1, accepted := s.monitor.accepted + [c],
                                               taken := s.monitor.taken + [map[Key(c) := c]]),
                                    s.flights + [Flight(map[Key(c) := c], {Key(c)})], s.proxy)
  {
    var run := Window(c, s.monitor.made);
    var s1 := Step(s, run[0]);
    assert s1.monitor.pending == map[Key(c) := c];
    var s2 := Step(s1, run[1]);
    assert s2.monitor.armed == {};
    var s3 := Step(s2, run[2]);
    assert Calls(map[Key(c) := c]) == {Key(c)};
    assert run[1..][1..] == run[2..] && run[2..][1..] == [];
    assert IsRun(s3, []) && After(s3, []) == s3;
    assert IsRun(s2, run[2..]) && After(s2, run[2..]) == s3;
    assert IsRun(s1, run[1..]) && After(s1, run[1..]) == s3;
  }

  /** Both calls are outstanding, and the second flush's is made first. */
  lemma OvertakingCalls(s: Air, r: Route)
    requires s.proxy == map[]
    requires s.flights == [Flight(map[r.app := Add(r)], {r.app}), Flight(map[r.app := Remove(r.app)], {r.app})]
    ensures var run := [Call(1, r.app, false), Call(0, r.app, false)];
            IsRun(s, run) && After(s, run).monitor == s.monitor && After(s, run).proxy == map[r.app := r]
            && Landed(After(s, run))
  {
    var run := [Call(1, r.app, false), Call(0, r.app, false)];
    var s1 := Step(s, run[0]);
    assert s1.flights[0] == s.flights[0] && s1.proxy == map[];
    var s2 := Step(s1, run[1]);
    assert run[1..][1..] == [];
    assert IsRun(s2, []) && After(s2, []) == s2;
    assert IsRun(s1, run[1..]) && After(s1, run[1..]) == s2;
  }

  /** An add and a remove of one app, each flushed alone; the second flush's call overtakes the first one's. Nothing is
      pending, no call failed, and the proxy keeps the route that was removed. */
  lemma OvertakenFlushKeepsRoute(r: Route)
    ensures var run := Window(Add(r), 0) + (Window(Remove(r.app), 1) + [Call(1, r.app, false), Call(0, r.app, false)]);
            && IsRun(START, run)
            && var s := After(START, run);
               && Landed(s) && s.monitor.pending == map[] && s.monitor.accepted == [Add(r), Remove(r.app)]
               && s.proxy == map[r.app := r] && ApplyEach(map[], s.monitor.accepted) == map[]
  {
    var first, second := Window(Add(r), 0), Window(Remove(r.app), 1);
    var calls := [Call(1, r.app, false), Call(0, r.app, false)];
    WindowTakes(START, Add(r));
    var s1 := After(START, first);
    WindowTakes(s1, Remove(r.app));
    var s2 := After(s1, second);
    OvertakingCalls(s2, r);
    RunsCompose(s1, second, calls);
    RunsCompose(START, first, second + calls);
    TwoChanges(r);
  }

  lemma TwoChanges(r: Route)
    ensures ApplyEach(map[], [Add(r), Remove(r.app)]) == map[]
  {
    assert [Add(r), Remove(r.app)][..1] == [Add(r)] && [Add(r)][..0] == [];
    assert ApplyEach(map[], [Add(r)]) == map[r.app := r];
  }
}
