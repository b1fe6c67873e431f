/** The proxy client (control/internal/routing/caddy.go). The proxy keeps one object for each @id. */
module Caddy {

  type App = string

  datatype Route = Route(app: App, sandbox: string, upstream: string)

  /** One handler: its upstreams, and the sandbox id header it sets. */
  datatype Handle = Handle(dials: seq<string>, sandboxHeader: string)

  datatype Payload = Payload(id: string, hosts: seq<string>, handle: seq<Handle>)

  type Config = map<string, Payload>

  const PREFIX := "route-"
  const DOMAIN := ".myappx.live"

  function RouteId(app: App): string { PREFIX + app }

  function BuildRouteJSON(r: Route): Payload {
    Payload(RouteId(r.app), [r.app + DOMAIN], [Handle([r.upstream], r.sandbox)])
  }

  predicate HasPrefix(s: string) { |PREFIX| <= |s| && s[..|PREFIX|] == PREFIX }

  function ParseRoute(p: Payload): Route {
    Route(if HasPrefix(p.id) then p.id[|PREFIX|..] else "", "",
          if |p.handle| > 0 && |p.handle[0].dials| > 0 then p.handle[0].dials[0] else "")
  }

  lemma RouteIdIsInjective(a: App, b: App)
    ensures RouteId(a) == RouteId(b) ==> a == b
    ensures HasPrefix(RouteId(a)) && RouteId(a)[|PREFIX|..] == a
  {
    assert RouteId(a)[|PREFIX|..] == a && RouteId(b)[|PREFIX|..] == b;
    assert RouteId(a)[..|PREFIX|] == PREFIX;
  }

  /** What is written is read back, but for the sandbox id, which the parser does not look at. */
  lemma ParseUndoesBuild(r: Route)
    ensures ParseRoute(BuildRouteJSON(r)) == r.(sandbox := "")
  {
    RouteIdIsInjective(r.app, r.app);
  }

  /** An id is parsed to a name exactly when it is that name's route id; the empty name stands for none. */
  lemma ParsedNameIff(p: Payload, app: App)
    requires app != ""
    ensures ParseRoute(p).app == app <==> p.id == RouteId(app)
  {
    RouteIdIsInjective(app, app);
    if HasPrefix(p.id) {
      assert p.id == p.id[..|PREFIX|] + p.id[|PREFIX|..];
    }
  }

  // ---------------------------------------------------------------- what the proxy does with a request

  /** The object's matcher selects requests for this host. */
  predicate Matches(p: Payload, host: string) { host in p.hosts }

  /** Where an object sends a request, and the sandbox id it tells the upstream. */
  datatype Hop = Hop(upstream: string, sandbox: string)

  /** The object forwards to this one upstream, with this header. */
  predicate Forwards(p: Payload, hop: Hop) {
    |p.handle| == 1 && p.handle[0].dials == [hop.upstream] && p.handle[0].sandboxHeader == hop.sandbox
  }

  /** Some object with a route id answers requests for the host. */
  ghost predicate Answers(config: Config, host: string) {
    exists id | id in config :: HasPrefix(id) && Matches(config[id], host)
  }

  /** Requests for the host go over this hop: exactly one object with a route id matches it, and forwards it so. */
  ghost predicate Serves(config: Config, host: string, hop: Hop) {
    exists id | id in config && HasPrefix(id) ::
      && Matches(config[id], host) && Forwards(config[id], hop)
      && forall other | other in config && HasPrefix(other) && Matches(config[other], host) :: other == id
  }

  /** Every object with a route id matches the host of its own app and no other. */
  ghost predicate OwnHosts(config: Config) {
    forall app: App | "route-" + app in config ::
      forall host :: Matches(config["route-" + app], host) <==> host == app + ".myappx.live"
  }

  lemma HostIsInjective(a: App, b: App)
    ensures a + ".myappx.live" == b + ".myappx.live" ==> a == b
  {
    var x, y := a + ".myappx.live", b + ".myappx.live";
    if x == y {
      assert |a| == |b|;
      assert x[..|a|] == a && y[..|b|] == b;
    }
  }

  /** A built object has the route's id, matches the app's host under the domain and nothing else, and forwards to the
      upstream with the sandbox id. */
  lemma BuiltRouteForwards(r: Route)
    ensures BuildRouteJSON(r).id == "route-" + r.app
    ensures forall host :: Matches(BuildRouteJSON(r), host) <==> host == r.app + ".myappx.live"
    ensures Forwards(BuildRouteJSON(r), Hop(r.upstream, r.sandbox))
  {
  }

  lemma PrefixedIsARouteId(id: string) returns (app: App)
    requires HasPrefix(id)
    ensures id == "route-" + app
  {
    app := id[|PREFIX|..];
    assert id == id[..|PREFIX|] + app;
  }

  /** Where every object matches its own host, an app's host is answered exactly when the app's object is there, and by
      that object alone. */
  lemma AnswersIff(config: Config, app: App)
    requires OwnHosts(config)
    ensures Answers(config, app + ".myappx.live") <==> "route-" + app in config
    ensures forall hop | "route-" + app in config && Forwards(config["route-" + app], hop) ::
              Serves(config, app + ".myappx.live", hop)
  {
    var host := app + ".myappx.live";
    RouteIdIsInjective(app, app);
    forall id | id in config && HasPrefix(id) && Matches(config[id], host) ensures id == "route-" + app {
      var other := PrefixedIsARouteId(id);
      HostIsInjective(other, app);
    }
    if "route-" + app in config {
      assert HasPrefix("route-" + app) && Matches(config["route-" + app], host);
    }
  }

  /** The names ListRoutes reports. */
  ghost predicate Names(config: Config, app: App) { app != "" && RouteId(app) in config }

  ghost predicate WellKeyed(config: Config) { forall id | id in config :: config[id].id == id }

  class CaddyClient {
    var config: Config
    var calls: nat
    /** Whether the k-th call fails. */
    const fails: nat -> bool

    constructor (config: Config, fails: nat -> bool)
      ensures this.config == config && calls == 0 && this.fails == fails
    {
      this.config, this.fails, calls := config, fails, 0;
    }

    method AddRoute(r: Route) returns (ok: bool)
      modifies this
      ensures calls == old(calls) + 1 && ok == !fails(old(calls))
      ensures config == if ok then old(config)[RouteId(r.app) := BuildRouteJSON(r)] else old(config)
      ensures old(WellKeyed(config)) ==> WellKeyed(config)
    {
      ok := !fails(calls);
      calls := calls + 1;
      if ok {
        config := config[RouteId(r.app) := BuildRouteJSON(r)];
      }
    }

    /** A route that is not there is removed without an error. */
    method RemoveRoute(app: App) returns (ok: bool)
      modifies this
      ensures calls == old(calls) + 1 && ok == !fails(old(calls))
      ensures config == if ok then old(config) - {RouteId(app)} else old(config)
      ensures old(WellKeyed(config)) ==> WellKeyed(config)
    {
      ok := !fails(calls);
      calls := calls + 1;
      if ok {
        config := config - {RouteId(app)};
      }
    }

    /** The objects whose id names an app, parsed; all others are dropped. */
    method ListRoutes() returns (ok: bool, routes: seq<Route>)
      requires WellKeyed(config)
      modifies this`calls
      ensures calls == old(calls) + 1 && ok == !fails(old(calls))
      ensures ok ==> forall app :: Names(config, app) <==> exists r | r in routes :: r.app == app
      ensures ok ==> forall r | r in routes :: Names(config, r.app) && r == ParseRoute(config[RouteId(r.app)])
    {
      ok, routes := !fails(calls), [];
      calls := calls + 1;
      if !ok { return; }
      var raw := config.Keys;
      while raw != {}
        invariant raw <= config.Keys && calls == old(calls) + 1
        invariant forall r | r in routes :: Names(config, r.app) && r == ParseRoute(config[RouteId(r.app)])
        invariant forall app | Names(config, app) && RouteId(app) !in raw :: exists r | r in routes :: r.app == app
        decreases raw
      {
        var id :| id in raw;
        raw := raw - {id};
        var route := ParseRoute(config[id]);
        ghost var before := routes;
        if route.app != "" {
          ParsedNameIff(config[id], route.app);
          routes := routes + [route];
          assert routes[|routes| - 1] == route;
        }
        forall app | Names(config, app) && RouteId(app) !in raw ensures exists r | r in routes :: r.app == app {
          if RouteId(app) == id {
            ParsedNameIff(config[id], app);
            assert route in routes;
          } else {
            var r :| r in before && r.app == app;
            assert r in routes;
          }
        }
      }
      forall app ensures Names(config, app) <==> exists r | r in routes :: r.app == app {
        if Names(config, app) {
          assert RouteId(app) !in raw;
        }
      }
    }

    /** Every add, then every remove, whether or not earlier ones failed; errors names the failed ones. */
    method Apply(adds: seq<Route>, removes: seq<App>) returns (errors: seq<App>)
      modifies this
      ensures config == Removed(Added(old(config), adds, fails, old(calls)), removes, fails, old(calls) + |adds|)
      ensures calls == old(calls) + |adds| + |removes|
      ensures |errors| == Failures(fails, old(calls), |adds|) + Failures(fails, old(calls) + |adds|, |removes|)
    {
      var failedAdds := ApplyAdds(adds);
      var failedRemoves := ApplyRemoves(removes);
      errors := failedAdds + failedRemoves;
    }

    method ApplyAdds(adds: seq<Route>) returns (errors: seq<App>)
      modifies this
      ensures config == Added(old(config), adds, fails, old(calls)) && calls == old(calls) + |adds|
      ensures |errors| == Failures(fails, old(calls), |adds|)
    {
      errors := [];
      ghost var start := calls;
      for i := 0 to |adds|
        invariant calls == start + i && config == Added(old(config), adds[..i], fails, start)
        invariant |errors| == Failures(fails, start, i)
      {
        assert adds[..i + 1][..i] == adds[..i];
        var ok := AddRoute(adds[i]);
        if !ok {
          errors := errors + [adds[i].app];
        }
      }
      assert adds[..|adds|] == adds;
    }

    method ApplyRemoves(removes: seq<App>) returns (errors: seq<App>)
      modifies this
      ensures config == Removed(old(config), removes, fails, old(calls)) && calls == old(calls) + |removes|
      ensures |errors| == Failures(fails, old(calls), |removes|)
    {
      errors := [];
      ghost var start := calls;
      for i := 0 to |removes|
        invariant calls == start + i && config == Removed(old(config), removes[..i], fails, start)
        invariant |errors| == Failures(fails, start, i)
      {
        assert removes[..i + 1][..i] == removes[..i];
        var ok := RemoveRoute(removes[i]);
        if !ok {
          errors := errors + [removes[i]];
        }
      }
      assert removes[..|removes|] == removes;
    }
  }

  /** How many of the n calls from k on fail. */
  function Failures(fails: nat -> bool, k: nat, n: nat): nat {
    if n == 0 then 0 else Failures(fails, k, n - 1) + if fails(k + n - 1) then 1 else 0
  }

  function Added(config: Config, adds: seq<Route>, fails: nat -> bool, k: nat): Config {
    if adds == [] then config
    else
      var n := |adds| - 1;
      var before := Added(config, adds[..n], fails, k);
      if fails(k + n) then before else before[RouteId(adds[n].app) := BuildRouteJSON(adds[n])]
  }

  function Removed(config: Config, removes: seq<App>, fails: nat -> bool, k: nat): Config {
    if removes == [] then config
    else
      var n := |removes| - 1;
      var before := Removed(config, removes[..n], fails, k);
      if fails(k + n) then before else before - {RouteId(removes[n])}
  }

  // ---------------------------------------------------------------- failing calls

  /** Failures counts them. */
  lemma {:induction false} FailuresCount(fails: nat -> bool, k: nat, n: nat)
    ensures Failures(fails, k, n) == |set i: nat | k <= i < k + n && fails(i)|
  {
    var all := set i: nat | k <= i < k + n && fails(i);
    if n == 0 {
      assert all == {};
    } else {
      FailuresCount(fails, k, n - 1);
      var earlier := set i: nat | k <= i < k + (n - 1) && fails(i);
      assert all == if fails(k + n - 1) then earlier + {k + n - 1} else earlier;
    }
  }

  predicate SameObject(a: Config, b: Config, id: string) { (id in a <==> id in b) && (id in a ==> a[id] == b[id]) }

  lemma {:induction false} AddedObject(config: Config, adds: seq<Route>, fails: nat -> bool, k: nat, id: string)
    requires forall i, j | 0 <= i < j < |adds| :: adds[i].app != adds[j].app
    ensures var after := Added(config, adds, fails, k);
            && (forall i | 0 <= i < |adds| && RouteId(adds[i].app) == id ::
                  if fails(k + i) then SameObject(config, after, id)
                  else id in after && after[id] == BuildRouteJSON(adds[i]))
            && ((forall r | r in adds :: RouteId(r.app) != id) ==> SameObject(config, after, id))
  {
    if adds != [] {
      var n := |adds| - 1;
      AddedObject(config, adds[..n], fails, k, id);
      assert adds[n] in adds;
      forall i | 0 <= i < n && RouteId(adds[i].app) == id ensures RouteId(adds[n].app) != id {
        RouteIdIsInjective(adds[i].app, adds[n].app);
      }
      if RouteId(adds[n].app) == id {
        assert forall r | r in adds[..n] :: RouteId(r.app) != id;
      }
    }
  }

  lemma {:induction false} RemovedObject(config: Config, removes: seq<App>, fails: nat -> bool, k: nat, id: string)
    ensures var after := Removed(config, removes, fails, k);
            if exists i | 0 <= i < |removes| :: RouteId(removes[i]) == id && !fails(k + i) then id !in after
            else SameObject(config, after, id)
  {
    if removes != [] {
      var n := |removes| - 1;
      RemovedObject(config, removes[..n], fails, k, id);
      forall i | 0 <= i < n ensures removes[..n][i] == removes[i] {}
    }
  }

  lemma NotRemoved(config: Config, removes: seq<App>, fails: nat -> bool, k: nat, id: string)
    requires forall app | app in removes :: RouteId(app) != id
    ensures SameObject(config, Removed(config, removes, fails, k), id)
  {
    RemovedObject(config, removes, fails, k, id);
    assert forall i | 0 <= i < |removes| :: removes[i] in removes;
  }

  /** An add has its effect exactly when it does not fail, whatever happens to the calls before and after it. */
  lemma AddIsIsolated(config: Config, adds: seq<Route>, removes: seq<App>, fails: nat -> bool, k: nat, i: nat)
    requires forall i, j | 0 <= i < j < |adds| :: adds[i].app != adds[j].app
    requires i < |adds| && adds[i].app !in removes
    ensures var after, id := Removed(Added(config, adds, fails, k), removes, fails, k + |adds|), "route-" + adds[i].app;
            if fails(k + i) then SameObject(config, after, id)
            else id in after && after[id] == BuildRouteJSON(adds[i])
  {
    var id := RouteId(adds[i].app);
    AddedObject(config, adds, fails, k, id);
    forall app | app in removes ensures RouteId(app) != id {
      RouteIdIsInjective(app, adds[i].app);
    }
    NotRemoved(Added(config, adds, fails, k), removes, fails, k + |adds|, id);
  }

  lemma NotAdded(config: Config, adds: seq<Route>, fails: nat -> bool, k: nat, app: App)
    requires forall i, j | 0 <= i < j < |adds| :: adds[i].app != adds[j].app
    requires forall r | r in adds :: r.app != app
    ensures SameObject(config, Added(config, adds, fails, k), RouteId(app))
  {
    forall r | r in adds ensures RouteId(r.app) != RouteId(app) {
      RouteIdIsInjective(r.app, app);
    }
    AddedObject(config, adds, fails, k, RouteId(app));
  }

  /** A call that removes the app does not fail. */
  ghost predicate RemovesOnce(removes: seq<App>, fails: nat -> bool, k: nat, app: App) {
    exists i | 0 <= i < |removes| :: removes[i] == app && !fails(k + i)
  }

  lemma RemovedApp(config: Config, removes: seq<App>, fails: nat -> bool, k: nat, app: App)
    ensures var after := Removed(config, removes, fails, k);
            if RemovesOnce(removes, fails, k, app) then RouteId(app) !in after
            else SameObject(config, after, RouteId(app))
  {
    RemovedObject(config, removes, fails, k, RouteId(app));
    forall i | 0 <= i < |removes| && RouteId(removes[i]) == RouteId(app) ensures removes[i] == app {
      RouteIdIsInjective(removes[i], app);
    }
  }

  /** So has a remove. */
  lemma RemoveIsIsolated(config: Config, adds: seq<Route>, removes: seq<App>, fails: nat -> bool, k: nat, app: App)
    requires forall i, j | 0 <= i < j < |adds| :: adds[i].app != adds[j].app
    requires app in removes && forall r | r in adds :: r.app != app
    ensures var after, id := Removed(Added(config, adds, fails, k), removes, fails, k + |adds|), "route-" + app;
            if RemovesOnce(removes, fails, k + |adds|, app) then id !in after else SameObject(config, after, id)
  {
    NotAdded(config, adds, fails, k, app);
    RemovedApp(Added(config, adds, fails, k), removes, fails, k + |adds|, app);
  }

  /** Objects of no app in the batch are left alone. */
  lemma OthersAreUntouched(config: Config, adds: seq<Route>, removes: seq<App>, fails: nat -> bool, k: nat, id: string)
    requires forall i, j | 0 <= i < j < |adds| :: adds[i].app != adds[j].app
    requires (forall r | r in adds :: "route-" + r.app != id) && forall app | app in removes :: "route-" + app != id
    ensures SameObject(config, Removed(Added(config, adds, fails, k), removes, fails, k + |adds|), id)
  {
    AddedObject(config, adds, fails, k, id);
    NotRemoved(Added(config, adds, fails, k), removes, fails, k + |adds|, id);
  }
}
