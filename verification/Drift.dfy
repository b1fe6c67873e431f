/** The drift detector (control/internal/routing/drift.go). */
module Drift {
  import opened Wrappers
  import opened Caddy

  type NodeId = nat

  /** What the detector reads of a running row. */
  datatype Sandbox = Sandbox(id: string, node: Option<NodeId>, port: Option<string>)

  /** The running rows by app name, which is unique. */
  type Running = map<App, Sandbox>

  type Nodes = map<NodeId, string>

  /** A running row with a node that can be looked up and a port. */
  predicate Routable(sb: Sandbox, nodes: Nodes) { sb.node.Some? && sb.node.value in nodes && sb.port.Some? }

  function Upstream(sb: Sandbox, nodes: Nodes): string
    requires Routable(sb, nodes)
  {
    nodes[sb.node.value] + ":" + sb.port.value
  }

  function RouteOf(app: App, sb: Sandbox, nodes: Nodes): Route
    requires Routable(sb, nodes)
  {
    Route(app, sb.id, Upstream(sb, nodes))
  }

  ghost predicate Stale(config: Config, running: Running, app: App) { Names(config, app) && app !in running }

  ghost predicate Missing(config: Config, running: Running, nodes: Nodes, app: App) {
    app in running && !Names(config, app) && Routable(running[app], nodes)
  }

  /** What a pass leaves of object id, given the apps for which a call failed. */
  ghost predicate Fate(config: Config, running: Running, nodes: Nodes, failed: set<App>, after: Config, id: string) {
    if exists app :: id == RouteId(app) && Stale(config, running, app) && app !in failed then id !in after
    else if exists app :: id == RouteId(app) && Missing(config, running, nodes, app) && app !in failed then
      var app :| id == RouteId(app) && Missing(config, running, nodes, app) && app !in failed;
      id in after && after[id] == BuildRouteJSON(RouteOf(app, running[app], nodes))
    else (id in after <==> id in config) && (id in config ==> after[id] == config[id])
  }

  /** A pass removes stale routes, adds missing ones, and leaves every other object of the proxy alone. */
  ghost predicate Detects(config: Config, running: Running, nodes: Nodes, failed: set<App>, after: Config) {
    forall id :: Fate(config, running, nodes, failed, after, id)
  }

  /** So the order in which the maps are iterated does not matter: the failed calls alone determine the result. */
  lemma PassIsDetermined(config: Config, running: Running, nodes: Nodes, failed: set<App>,
                                            after: Config, after': Config)
    requires Detects(config, running, nodes, failed, after) && Detects(config, running, nodes, failed, after')
    ensures after == after'
  {
    forall id ensures (id in after <==> id in after') && (id in after ==> after[id] == after'[id]) {
      assert Fate(config, running, nodes, failed, after, id) && Fate(config, running, nodes, failed, after', id);
    }
  }

  ghost predicate AllRoutable(running: Running, nodes: Nodes) {
    forall app | app in running :: app != "" && Routable(running[app], nodes)
  }

  lemma NamesAfter(config: Config, running: Running, nodes: Nodes, after: Config, app: App)
    requires Detects(config, running, nodes, {}, after) && AllRoutable(running, nodes)
    ensures Names(after, app) <==> app in running
  {
    var id := RouteId(app);
    assert Fate(config, running, nodes, {}, after, id);
    forall other | id == RouteId(other) ensures other == app {
      RouteIdIsInjective(app, other);
    }
    if app != "" {
      if Names(config, app) && app !in running {
        assert Stale(config, running, app);
      } else if app in running && !Names(config, app) {
        assert Missing(config, running, nodes, app);
      }
    }
  }

  /** When no call fails and every running row has its node and port, the names routed afterwards are the running
      ones, and a second pass finds nothing to remove or add. */
  lemma OnePassConverges(config: Config, running: Running, nodes: Nodes, after: Config)
    requires Detects(config, running, nodes, {}, after) && AllRoutable(running, nodes)
    ensures forall app :: Names(after, app) <==> app in running
    ensures forall app :: !Stale(after, running, app) && !Missing(after, running, nodes, app)
  {
    forall app ensures Names(after, app) <==> app in running {
      NamesAfter(config, running, nodes, after, app);
    }
  }

  /** A pass never looks at the upstream: a route that names a running app is kept as it is, wherever it points. */
  lemma WrongUpstreamIsKept(config: Config, running: Running, nodes: Nodes, failed: set<App>, after: Config, app: App)
    requires Detects(config, running, nodes, failed, after) && Names(config, app) && app in running
    ensures RouteId(app) in after && after[RouteId(app)] == config[RouteId(app)]
  {
    var id := RouteId(app);
    assert Fate(config, running, nodes, failed, after, id);
    forall other | id == RouteId(other) ensures other == app {
      RouteIdIsInjective(app, other);
    }
  }

  /** Where every object of the proxy matches its own app's host, such a pass makes the hosts that are answered those of
      the running rows; one that was not answered before is served by its row's node address and port, with its sandbox
      id. */
  lemma OnePassServes(config: Config, running: Running, nodes: Nodes, after: Config, app: App)
    requires Detects(config, running, nodes, {}, after) && AllRoutable(running, nodes) && OwnHosts(config) && app != ""
    ensures OwnHosts(after)
    ensures Answers(after, app + ".myappx.live") <==> app in running
    ensures app in running && !Answers(config, app + ".myappx.live") ==>
              var sb := running[app];
              Serves(after, app + ".myappx.live", Hop(nodes[sb.node.value] + ":" + sb.port.value, sb.id))
  {
    forall other: App | "route-" + other in after
      ensures forall host :: Matches(after["route-" + other], host) <==> host == other + ".myappx.live"
    {
      ObjectAfter(config, running, nodes, after, other);
    }
    NamesAfter(config, running, nodes, after, app);
    AnswersIff(config, app);
    AnswersIff(after, app);
    if app in running && !Answers(config, app + ".myappx.live") {
      assert Missing(config, running, nodes, app);
      ObjectAfter(config, running, nodes, after, app);
      BuiltRouteForwards(RouteOf(app, running[app], nodes));
    }
  }

  /** An object the pass leaves is an old one or a new one for a missing app. */
  lemma ObjectAfter(config: Config, running: Running, nodes: Nodes, after: Config, app: App)
    requires Detects(config, running, nodes, {}, after) && "route-" + app in after && OwnHosts(config)
    ensures Missing(config, running, nodes, app) ==>
              after["route-" + app] == BuildRouteJSON(RouteOf(app, running[app], nodes))
    ensures forall host :: Matches(after["route-" + app], host) <==> host == app + ".myappx.live"
  {
    var id := RouteId(app);
    assert Fate(config, running, nodes, {}, after, id);
    RouteIdsDiffer(id);
    if Missing(config, running, nodes, app) {
      assert !exists other :: id == RouteId(other) && Stale(config, running, other);
      BuiltRouteForwards(RouteOf(app, running[app], nodes));
    } else {
      assert !exists other :: id == RouteId(other) && Missing(config, running, nodes, other);
    }
  }

  /** The apps the proxy has a route for. */
  function Named(config: Config): set<App> { set id | id in config && HasPrefix(id) && id != PREFIX :: id[|PREFIX|..] }

  lemma NamedAre(config: Config, names: set<App>)
    requires forall app :: app in names <==> Names(config, app)
    ensures names == Named(config)
  {
    forall app | app in Named(config) ensures Names(config, app) {
      var id :| id in config && HasPrefix(id) && id != PREFIX && id[|PREFIX|..] == app;
      assert id == PREFIX + app;
    }
    forall app | Names(config, app) ensures app in Named(config) {
      RouteIdIsInjective(app, app);
      assert RouteId(app) != PREFIX;
    }
  }

  /** The calls so far, one for each of these apps: done are those that did not fail, refused those that did. */
  ghost predicate Called(apps: set<App>, done: seq<App>, refused: seq<App>, fails: nat -> bool, start: nat) {
    Lists(done + refused, apps) && |refused| == Failures(fails, start, |done| + |refused|)
  }

  lemma CalledOneMore(apps: set<App>, done: seq<App>, refused: seq<App>, fails: nat -> bool, start: nat, app: App)
    requires Called(apps, done, refused, fails, start) && app !in apps
    ensures if fails(start + |done| + |refused|) then Called(apps + {app}, done, refused + [app], fails, start)
            else Called(apps + {app}, done + [app], refused, fails, start)
  {
    var n := |done| + |refused|;
    assert app !in done + refused;
    assert Failures(fails, start, n + 1) == Failures(fails, start, n) + if fails(start + n) then 1 else 0;
    if fails(start + n) {
      assert done + (refused + [app]) == (done + refused) + [app];
      ListsOneMore(done + refused, apps, app);
    } else {
      ListsBetween(done, refused, apps, app);
    }
  }

  lemma ListsOneMore(items: seq<App>, apps: set<App>, app: App)
    requires Lists(items, apps) && app !in apps
    ensures Lists(items + [app], apps + {app})
  {
    assert app !in items;
  }

  lemma ListsBetween(done: seq<App>, refused: seq<App>, apps: set<App>, app: App)
    requires Lists(done + refused, apps) && app !in apps
    ensures Lists((done + [app]) + refused, apps + {app})
  {
    var before, after := done + refused, (done + [app]) + refused;
    assert app !in before;
    forall i, j | 0 <= i < j < |after| ensures after[i] != after[j] {
      assert after[i] == if i < |done| then before[i] else if i == |done| then app else before[i - 1];
      assert after[j] == if j < |done| then before[j] else if j == |done| then app else before[j - 1];
    }
    forall x ensures x in after <==> x in apps + {app} {
      assert x in after <==> x in done || x == app || x in refused;
      assert x in before <==> x in done || x in refused;
    }
  }

  lemma CalledLists(apps: set<App>, done: seq<App>, refused: seq<App>, fails: nat -> bool, start: nat)
    requires Called(apps, done, refused, fails, start)
    ensures Lists(done, apps - Members(refused)) && Members(refused) <= apps
  {
    var all := done + refused;
    forall i, j | 0 <= i < |done| && 0 <= j < |refused| ensures done[i] != refused[j] {
      assert all[i] == done[i] && all[|done| + j] == refused[j];
    }
    forall i, j | 0 <= i < j < |done| ensures done[i] != done[j] {
      assert all[i] == done[i] && all[j] == done[j];
    }
  }

  function Members(items: seq<App>): set<App> { set app | app in items }

  lemma {:induction false} ListsCount(items: seq<App>, apps: set<App>)
    requires Lists(items, apps)
    ensures |items| == |apps|
    decreases |items|
  {
    if items == [] {
      assert apps == {};
    } else {
      var last := items[|items| - 1];
      assert items == items[..|items| - 1] + [last];
      assert last in items;
      ListsCount(items[..|items| - 1], apps - {last});
    }
  }

  class DriftDetector {
    const proxy: CaddyClient

    constructor (proxy: CaddyClient)
      ensures this.proxy == proxy
    {
      this.proxy := proxy;
    }

    /** running is None when the rows cannot be listed; nodeFails holds the apps whose node lookup fails. failed
        collects the apps for which a call failed. Every stale route and every missing one gets its call, whether or not
        earlier ones failed; removed and added count the calls that did not fail. */
    method Detect(running: Option<Running>, nodes: Nodes, nodeFails: set<App>)
      returns (added: nat, removed: nat, ghost failed: set<App>)
      requires WellKeyed(proxy.config)
      modifies proxy
      ensures proxy.fails(old(proxy.calls)) || running.None? ==>
                proxy.config == old(proxy.config) && proxy.calls == old(proxy.calls) + 1 && added == removed == 0
      ensures !proxy.fails(old(proxy.calls)) && running.Some? ==>
                && Detects(old(proxy.config), running.value, nodes, failed, proxy.config)
                && ((forall k :: !proxy.fails(k)) && nodeFails == {} ==> failed == {})
                && Counts(|StaleApps(old(proxy.config), running.value)|,
                          |MissingApps(old(proxy.config), running.value, nodes, nodeFails)|,
                          proxy.fails, old(proxy.calls) + 1, removed, added, proxy.calls)
    {
      added, removed, failed := 0, 0, {};
      var ok, caddyRoutes := proxy.ListRoutes();
      if !ok { return; }
      if running.None? { return; }
      var routed := RouteNames(caddyRoutes);
      removed, added, failed := Fix(routed, running.value, nodes, nodeFails);
    }

    /** Both halves; routed are the names ListRoutes reported. */
    method Fix(routed: set<App>, running: Running, nodes: Nodes, nodeFails: set<App>)
      returns (removed: nat, added: nat, ghost failed: set<App>)
      requires forall app :: app in routed <==> Names(proxy.config, app)
      modifies proxy
      ensures Detects(old(proxy.config), running, nodes, failed, proxy.config)
      ensures (forall k :: !proxy.fails(k)) && nodeFails == {} ==> failed == {}
      ensures Counts(|StaleApps(old(proxy.config), running)|,
                     |MissingApps(old(proxy.config), running, nodes, nodeFails)|,
                     proxy.fails, old(proxy.calls), removed, added, proxy.calls)
    {
      ghost var before, start := proxy.config, proxy.calls;
      ghost var gone, kept, fixed, refused;
      removed, gone, kept := RemoveStale(routed, running);
      added, fixed, refused := AddMissing(routed, running, nodes, nodeFails);
      failed := Members(kept) + (Members(refused) + Denied(routed, running, nodeFails));
      PassDetects(before, running, nodes, nodeFails, routed, gone, kept, fixed, refused, proxy.fails, start);
      FixCounts(before, running, nodes, nodeFails, routed, gone, kept, fixed, refused, proxy.fails, start, proxy.calls);
      NothingFails(routed, running, nodeFails, gone, kept, fixed, refused, proxy.fails, start);
    }

    static method RouteNames(routes: seq<Route>) returns (names: set<App>)
      ensures forall app :: app in names <==> exists r | r in routes :: r.app == app
    {
      names := {};
      for i := 0 to |routes|
        invariant forall app :: app in names <==> exists r | r in routes[..i] :: r.app == app
      {
        assert routes[..i + 1] == routes[..i] + [routes[i]];
        assert routes[i] in routes[..i + 1];
        names := names + {routes[i].app};
      }
      assert routes[..|routes|] == routes;
    }

    /** The calls for the routes among seen that have no running row, and what they have left of the proxy. */
    ghost predicate Removing(seen: set<App>, running: Running, done: seq<App>, refused: seq<App>, before: Config,
                             start: nat)
      reads proxy
    {
      && Called(seen - running.Keys, done, refused, proxy.fails, start)
      && proxy.calls == start + |done| + |refused|
      && proxy.config == Unrouted(before, done)
    }

    /** Routes without a running row, in any order; refused are those whose call failed. */
    method RemoveStale(routed: set<App>, running: Running)
      returns (removed: nat, ghost done: seq<App>, ghost refused: seq<App>)
      modifies proxy
      ensures Removing(routed, running, done, refused, old(proxy.config), old(proxy.calls)) && removed == |done|
    {
      removed, done, refused := 0, [], [];
      var todo := routed;
      assert (routed - todo) - running.Keys == {};
      while todo != {}
        invariant todo <= routed && removed == |done|
        invariant Removing(routed - todo, running, done, refused, old(proxy.config), old(proxy.calls))
        decreases todo
      {
        var app :| app in todo;
        assert routed - todo + {app} == routed - (todo - {app});
        var ok;
        ok, done, refused := RemoveNext(app, running, routed - todo, done, refused, old(proxy.config),
                                        old(proxy.calls));
        todo := todo - {app};
        if ok {
          removed := removed + 1;
        }
      }
      assert routed - todo == routed;
    }

    /** One iteration; ok says that a route was removed. */
    method RemoveNext(app: App, running: Running, ghost seen: set<App>, ghost done: seq<App>, ghost refused: seq<App>,
                      ghost before: Config, ghost start: nat)
      returns (ok: bool, ghost done': seq<App>, ghost refused': seq<App>)
      requires app !in seen && Removing(seen, running, done, refused, before, start)
      modifies proxy
      ensures Removing(seen + {app}, running, done', refused', before, start)
      ensures |done'| == |done| + if ok then 1 else 0
    {
      ok, done', refused' := false, done, refused;
      if app in running {
        assert seen + {app} - running.Keys == seen - running.Keys;
        return;
      }
      assert seen + {app} - running.Keys == seen - running.Keys + {app};
      CalledOneMore(seen - running.Keys, done, refused, proxy.fails, start, app);
      assert (done + [app])[..|done|] == done;
      ok := proxy.RemoveRoute(app);
      if !ok {
        refused' := refused + [app];
        return;
      }
      done' := done + [app];
    }

    /** The calls for the running rows among seen that can be routed, and what they have left of the proxy. */
    ghost predicate Adding(seen: set<App>, nodeFails: set<App>, running: Running, nodes: Nodes, done: seq<App>,
                           refused: seq<App>, before: Config, start: nat)
      reads proxy
    {
      && Called(seen * Ready(running, nodes) - nodeFails, done, refused, proxy.fails, start)
      && proxy.calls == start + |done| + |refused|
      && (forall app | app in done :: app in running && Routable(running[app], nodes))
      && proxy.config == Routed(before, running, nodes, done)
    }

    /** Running rows without a route, in any order; a row without node, node address or port is skipped, and so is one
        whose node lookup fails. */
    method AddMissing(routed: set<App>, running: Running, nodes: Nodes, nodeFails: set<App>)
      returns (added: nat, ghost done: seq<App>, ghost refused: seq<App>)
      modifies proxy
      ensures Adding(running.Keys - routed, nodeFails, running, nodes, done, refused, old(proxy.config),
                     old(proxy.calls))
      ensures added == |done|
    {
      added, done, refused := 0, [], [];
      var todo := running.Keys;
      assert (running.Keys - routed - todo) * Ready(running, nodes) - nodeFails == {};
      while todo != {}
        invariant todo <= running.Keys && added == |done|
        invariant Adding(running.Keys - routed - todo, nodeFails, running, nodes, done, refused, old(proxy.config),
                         old(proxy.calls))
        decreases todo
      {
        var app :| app in todo;
        ghost var seen := running.Keys - routed - todo;
        todo := todo - {app};
        if app in routed {
          assert running.Keys - routed - todo == seen;
          continue;
        }
        assert running.Keys - routed - todo == seen + {app};
        var ok;
        ok, done, refused := AddNext(app, running, nodes, nodeFails, seen, done, refused, old(proxy.config),
                                     old(proxy.calls));
        if ok {
          added := added + 1;
        }
      }
      assert running.Keys - routed - todo == running.Keys - routed;
    }

    /** One iteration; ok says that a route was added. */
    method AddNext(app: App, running: Running, nodes: Nodes, nodeFails: set<App>, ghost seen: set<App>,
                   ghost done: seq<App>, ghost refused: seq<App>, ghost before: Config, ghost start: nat)
      returns (ok: bool, ghost done': seq<App>, ghost refused': seq<App>)
      requires app in running && app !in seen && Adding(seen, nodeFails, running, nodes, done, refused, before, start)
      modifies proxy
      ensures Adding(seen + {app}, nodeFails, running, nodes, done', refused', before, start)
      ensures |done'| == |done| + if ok then 1 else 0
    {
      ok, done', refused' := false, done, refused;
      var sb := running[app];
      ghost var ready := Ready(running, nodes);
      SeenOneMore(seen, app, ready, nodeFails);
      if sb.node.None? { return; }
      if app in nodeFails { return; }
      if sb.node.value !in nodes { return; }
      if sb.port.None? { return; }
      CalledOneMore(seen * ready - nodeFails, done, refused, proxy.fails, start, app);
      ok := AddOne(app, running, nodes, done, before);
      if !ok {
        refused' := refused + [app];
        return;
      }
      done' := done + [app];
    }

    method AddOne(app: App, running: Running, nodes: Nodes, ghost done: seq<App>, ghost before: Config)
      returns (ok: bool)
      requires app in running && Routable(running[app], nodes)
      requires forall x | x in done :: x in running && Routable(running[x], nodes)
      requires proxy.config == Routed(before, running, nodes, done)
      modifies proxy
      ensures proxy.calls == old(proxy.calls) + 1 && ok == !proxy.fails(old(proxy.calls))
      ensures proxy.config == Routed(before, running, nodes, if ok then done + [app] else done)
    {
      assert (done + [app])[..|done|] == done;
      ok := proxy.AddRoute(RouteOf(app, running[app], nodes));
    }
  }

  /** The running rows without a route whose node lookup fails. */
  function Denied(routed: set<App>, running: Running, nodeFails: set<App>): set<App> {
    (running.Keys - routed) * nodeFails
  }

  lemma SeenOneMore(seen: set<App>, app: App, ready: set<App>, nodeFails: set<App>)
    requires app !in seen
    ensures (seen + {app}) * ready - nodeFails
            == if app in ready && app !in nodeFails then (seen * ready - nodeFails) + {app}
               else seen * ready - nodeFails
  {
  }

  lemma {:induction false} NoFailures(fails: nat -> bool, k: nat, n: nat)
    requires forall j :: !fails(j)
    ensures Failures(fails, k, n) == 0
  {
    if n > 0 {
      NoFailures(fails, k, n - 1);
    }
  }

  /** The missing rows that get a call. */
  function Due(routed: set<App>, running: Running, nodes: Nodes, nodeFails: set<App>): set<App> {
    (running.Keys - routed) * Ready(running, nodes) - nodeFails
  }

  /** What the two halves of a pass come to. */
  lemma PassDetects(config: Config, running: Running, nodes: Nodes, nodeFails: set<App>, routed: set<App>,
                    gone: seq<App>, kept: seq<App>, added: seq<App>, refused: seq<App>, fails: nat -> bool, start: nat)
    requires forall app :: app in routed <==> Names(config, app)
    requires Called(routed - running.Keys, gone, kept, fails, start)
    requires Called(Due(routed, running, nodes, nodeFails), added, refused, fails, start + |gone| + |kept|)
    ensures forall app | app in added :: app in running && Routable(running[app], nodes)
    ensures Detects(config, running, nodes, Members(kept) + (Members(refused) + Denied(routed, running, nodeFails)),
                    Routed(Unrouted(config, gone), running, nodes, added))
  {
    CalledLists(routed - running.Keys, gone, kept, fails, start);
    CalledLists(Due(routed, running, nodes, nodeFails), added, refused, fails, start + |gone| + |kept|);
    var failedAdds := Members(refused) + Denied(routed, running, nodeFails);
    DueAre(routed, running, nodes, nodeFails, Members(refused));
    BothHalves(config, running, nodes, routed, Members(kept), failedAdds, gone, added);
  }

  lemma DueAre(routed: set<App>, running: Running, nodes: Nodes, nodeFails: set<App>, refused: set<App>)
    ensures Due(routed, running, nodes, nodeFails) - refused
            == Ready(running, nodes) - routed - (refused + Denied(routed, running, nodeFails))
  {
  }

  function StaleApps(config: Config, running: Running): set<App> { set app | app in Named(config) && app !in running }

  /** The missing rows whose node lookup succeeds. */
  function MissingApps(config: Config, running: Running, nodes: Nodes, nodeFails: set<App>): set<App> {
    set app | app in running && Routable(running[app], nodes) && app !in Named(config) && app !in nodeFails
  }

  /** One call for every stale route and every missing row whose node lookup succeeds; removed and added are those that
      did not fail. */
  ghost predicate Counts(stale: nat, missing: nat, fails: nat -> bool, start: nat, removed: nat, added: nat, end: nat) {
    && end == start + stale + missing
    && removed + Failures(fails, start, stale) == stale
    && added + Failures(fails, start + stale, missing) == missing
  }

  lemma CalledCount(apps: set<App>, done: seq<App>, refused: seq<App>, fails: nat -> bool, start: nat, same: set<App>)
    requires Called(apps, done, refused, fails, start) && forall app :: app in apps <==> app in same
    ensures |done| + |refused| == |same|
  {
    ListsCount(done + refused, same);
  }

  lemma PassCounts(config: Config, running: Running, nodes: Nodes, nodeFails: set<App>, routed: set<App>,
                   gone: seq<App>, kept: seq<App>, added: seq<App>, refused: seq<App>, fails: nat -> bool, start: nat)
    requires forall app :: app in routed <==> Names(config, app)
    requires Called(routed - running.Keys, gone, kept, fails, start)
    requires Called(Due(routed, running, nodes, nodeFails), added, refused, fails, start + |gone| + |kept|)
    ensures |gone| + |kept| == |StaleApps(config, running)|
    ensures |added| + |refused| == |MissingApps(config, running, nodes, nodeFails)|
  {
    NamedAre(config, routed);
    CalledCount(routed - running.Keys, gone, kept, fails, start, StaleApps(config, running));
    CalledCount(Due(routed, running, nodes, nodeFails), added, refused, fails, start + |gone| + |kept|,
                MissingApps(config, running, nodes, nodeFails));
  }

  lemma FixCounts(config: Config, running: Running, nodes: Nodes, nodeFails: set<App>, routed: set<App>, gone: seq<App>,
                  kept: seq<App>, added: seq<App>, refused: seq<App>, fails: nat -> bool, start: nat, end: nat)
    requires forall app :: app in routed <==> Names(config, app)
    requires Called(routed - running.Keys, gone, kept, fails, start)
    requires Called(Due(routed, running, nodes, nodeFails), added, refused, fails, start + |gone| + |kept|)
    requires end == start + |gone| + |kept| + |added| + |refused|
    ensures Counts(|StaleApps(config, running)|, |MissingApps(config, running, nodes, nodeFails)|, fails, start, |gone|,
                   |added|, end)
  {
    PassCounts(config, running, nodes, nodeFails, routed, gone, kept, added, refused, fails, start);
    CountsOf(|StaleApps(config, running)|, |MissingApps(config, running, nodes, nodeFails)|, fails, start, |gone|,
             |kept|, |added|, |refused|, end);
  }

  lemma CountsOf(stale: nat, missing: nat, fails: nat -> bool, start: nat, gone: nat, kept: nat, added: nat,
                 refused: nat, end: nat)
    requires stale == gone + kept && kept == Failures(fails, start, stale)
    requires missing == added + refused && refused == Failures(fails, start + stale, missing)
    requires end == start + stale + missing
    ensures Counts(stale, missing, fails, start, gone, added, end)
  {
  }

  lemma NothingFails(routed: set<App>, running: Running, nodeFails: set<App>, gone: seq<App>, kept: seq<App>,
                     added: seq<App>, refused: seq<App>, fails: nat -> bool, start: nat)
    requires |kept| == Failures(fails, start, |gone| + |kept|)
    requires |refused| == Failures(fails, start + |gone| + |kept|, |added| + |refused|)
    ensures (forall k :: !fails(k)) && nodeFails == {} ==>
              Members(kept) + (Members(refused) + Denied(routed, running, nodeFails)) == {}
  {
    if forall k :: !fails(k) {
      NoFailures(fails, start, |gone| + |kept|);
      NoFailures(fails, start + |gone| + |kept|, |added| + |refused|);
    }
  }

  // ---------------------------------------------------------------- the two halves of a pass

  function Ready(running: Running, nodes: Nodes): set<App> { set app | app in running && Routable(running[app], nodes) }

  /** The members of apps, each once. */
  ghost predicate Lists(items: seq<App>, apps: set<App>) {
    && (forall i, j | 0 <= i < j < |items| :: items[i] != items[j])
    && (forall app :: app in items <==> app in apps)
  }

  function Unrouted(config: Config, apps: seq<App>): Config {
    if apps == [] then config else Unrouted(config, apps[..|apps| - 1]) - {RouteId(apps[|apps| - 1])}
  }

  function Routed(config: Config, running: Running, nodes: Nodes, apps: seq<App>): Config
    requires forall app | app in apps :: app in running && Routable(running[app], nodes)
  {
    if apps == [] then config
    else
      var app := apps[|apps| - 1];
      Routed(config, running, nodes, apps[..|apps| - 1])
      [RouteId(app) := BuildRouteJSON(RouteOf(app, running[app], nodes))]
  }

  ghost predicate SameAt(a: Config, b: Config, id: string) { (id in a <==> id in b) && (id in a ==> a[id] == b[id]) }

  lemma {:induction false} UnroutedAt(config: Config, apps: seq<App>, id: string)
    ensures if exists app | app in apps :: id == RouteId(app) then id !in Unrouted(config, apps)
            else SameAt(config, Unrouted(config, apps), id)
  {
    if apps != [] {
      var n := |apps| - 1;
      UnroutedAt(config, apps[..n], id);
      assert apps == apps[..n] + [apps[n]];
      assert apps[n] in apps;
    }
  }

  lemma {:induction false} RoutedAt(config: Config, running: Running, nodes: Nodes, apps: seq<App>, id: string)
    requires forall app | app in apps :: app in running && Routable(running[app], nodes)
    ensures var after := Routed(config, running, nodes, apps);
            && (forall app | app in apps && id == RouteId(app) ::
                  id in after && after[id] == BuildRouteJSON(RouteOf(app, running[app], nodes)))
            && ((forall app | app in apps :: id != RouteId(app)) ==> SameAt(config, after, id))
  {
    if apps != [] {
      var n := |apps| - 1;
      RoutedAt(config, running, nodes, apps[..n], id);
      assert apps == apps[..n] + [apps[n]];
      assert apps[n] in apps;
      RouteIdsDiffer(id);
    }
  }

  lemma RouteIdsDiffer(id: string)
    ensures forall a, b | id == RouteId(a) && id == RouteId(b) :: a == b
  {
    forall a, b | id == RouteId(a) && id == RouteId(b) ensures a == b {
      RouteIdIsInjective(a, b);
    }
  }

  /** Removing the stale apps that did not fail and adding the ready ones that did not is what a pass does. */
  lemma BothHalves(config: Config, running: Running, nodes: Nodes, routed: set<App>,
                   failedRemoves: set<App>, failedAdds: set<App>, gone: seq<App>, added: seq<App>)
    requires forall app :: app in routed <==> Names(config, app)
    requires failedRemoves <= routed - running.Keys && failedAdds <= running.Keys - routed
    requires Lists(gone, routed - running.Keys - failedRemoves)
    requires Lists(added, Ready(running, nodes) - routed - failedAdds)
    ensures Detects(config, running, nodes, failedRemoves + failedAdds,
                    Routed(Unrouted(config, gone), running, nodes, added))
  {
    var after := Routed(Unrouted(config, gone), running, nodes, added);
    forall id ensures Fate(config, running, nodes, failedRemoves + failedAdds, after, id) {
      UnroutedAt(config, gone, id);
      RoutedAt(Unrouted(config, gone), running, nodes, added, id);
      FateOf(config, running, nodes, routed, failedRemoves, failedAdds, gone, added, after, id);
    }
  }

  lemma FateOf(config: Config, running: Running, nodes: Nodes, routed: set<App>, failedRemoves: set<App>,
               failedAdds: set<App>, gone: seq<App>, added: seq<App>, after: Config, id: string)
    requires forall app :: app in routed <==> Names(config, app)
    requires failedRemoves <= routed - running.Keys && failedAdds <= running.Keys - routed
    requires Lists(gone, routed - running.Keys - failedRemoves)
    requires Lists(added, Ready(running, nodes) - routed - failedAdds)
    requires forall app | app in added && id == RouteId(app) ::
               id in after && after[id] == BuildRouteJSON(RouteOf(app, running[app], nodes))
    requires (forall app | app in added :: id != RouteId(app)) ==> SameAt(Unrouted(config, gone), after, id)
    requires if exists app | app in gone :: id == RouteId(app) then id !in Unrouted(config, gone)
             else SameAt(config, Unrouted(config, gone), id)
    ensures Fate(config, running, nodes, failedRemoves + failedAdds, after, id)
  {
    var failed := failedRemoves + failedAdds;
    RouteIdsDiffer(id);
    assert forall app :: app in gone <==> Stale(config, running, app) && app !in failed;
    assert forall app :: app in added <==> Missing(config, running, nodes, app) && app !in failed;
  }
}
