/** What a batch of route changes means, and why the order of its calls does not matter. */
module Batching {
  import opened Caddy

  /** Other stands for an action that is neither "add" nor "remove". */
  datatype Change = Add(route: Route) | Remove(app: App) | Other(app: App)

  /** The key a change is pending under: last write wins. */
  function Key(c: Change): App { if c.Add? then c.route.app else c.app }

  /** The proxy's routes, as an upsert map. */
  type Routes = map<App, Route>

  type Batch = map<App, Change>

  ghost predicate Keyed(b: Batch) { forall app | app in b :: Key(b[app]) == app }

  function ApplyChange(m: Routes, c: Change): Routes {
    match c
    case Add(route) => m[route.app := route]
    case Remove(app) => m - {app}
    case Other(_) => m
  }

  function ApplyEach(m: Routes, changes: seq<Change>): Routes {
    if changes == [] then m else ApplyChange(ApplyEach(m, changes[..|changes| - 1]), changes[|changes| - 1])
  }

  /** The batch as one update. */
  function Overlay(m: Routes, b: Batch): Routes {
    map app | app in m.Keys + b.Keys && (app in b ==> b[app].Add? || (b[app].Other? && app in m)) ::
      if app in b && b[app].Add? then b[app].route else m[app]
  }

  function OverlayAll(m: Routes, batches: seq<Batch>): Routes {
    if batches == [] then m else Overlay(OverlayAll(m, batches[..|batches| - 1]), batches[|batches| - 1])
  }

  // ---------------------------------------------------------------- the calls of one batch

  /** adds and removes are the batch's changes, in the order some iteration of the map met them. */
  ghost predicate Splits(b: Batch, adds: seq<Route>, removes: seq<App>) {
    && (forall i, j | 0 <= i < j < |adds| :: adds[i].app != adds[j].app)
    && (forall r | r in adds :: r.app in b && b[r.app] == Add(r))
    && (forall app | app in b && b[app].Add? :: b[app].route in adds)
    && (forall app :: app in removes <==> app in b && b[app] == Remove(app))
  }

  function AddAll(m: Routes, adds: seq<Route>): Routes {
    if adds == [] then m else AddAll(m, adds[..|adds| - 1])[adds[|adds| - 1].app := adds[|adds| - 1]]
  }

  function RemoveAll(m: Routes, removes: seq<App>): Routes {
    if removes == [] then m else RemoveAll(m, removes[..|removes| - 1]) - {removes[|removes| - 1]}
  }

  lemma {:induction false} AddedAt(m: Routes, adds: seq<Route>, app: App)
    requires forall i, j | 0 <= i < j < |adds| :: adds[i].app != adds[j].app
    ensures forall r | r in adds && r.app == app :: app in AddAll(m, adds) && AddAll(m, adds)[app] == r
    ensures (forall r | r in adds :: r.app != app) ==>
              (app in AddAll(m, adds) <==> app in m) && (app in m ==> AddAll(m, adds)[app] == m[app])
  {
    if adds != [] {
      var n := |adds| - 1;
      AddedAt(m, adds[..n], app);
      assert adds == adds[..n] + [adds[n]];
      assert adds[n] in adds;
    }
  }

  lemma {:induction false} RemovedAt(m: Routes, removes: seq<App>, app: App)
    ensures app in RemoveAll(m, removes) <==> app in m && app !in removes
    ensures app in RemoveAll(m, removes) ==> RemoveAll(m, removes)[app] == m[app]
  {
    if removes != [] {
      RemovedAt(m, removes[..|removes| - 1], app);
      assert removes == removes[..|removes| - 1] + [removes[|removes| - 1]];
    }
  }

  /** However the map is iterated, and with the adds first or the removes first, applying a batch is its overlay;
      adds and removes are disjoint. */
  lemma BatchOrderDoesNotMatter(m: Routes, b: Batch, adds: seq<Route>, removes: seq<App>)
    requires Keyed(b) && Splits(b, adds, removes)
    ensures RemoveAll(AddAll(m, adds), removes) == Overlay(m, b)
    ensures AddAll(RemoveAll(m, removes), adds) == Overlay(m, b)
    ensures forall r | r in adds :: r.app !in removes
  {
    forall app
      ensures SameAt(RemoveAll(AddAll(m, adds), removes), Overlay(m, b), app)
      ensures SameAt(AddAll(RemoveAll(m, removes), adds), Overlay(m, b), app)
    {
      BatchAt(m, b, adds, removes, app);
    }
    SameEverywhere(RemoveAll(AddAll(m, adds), removes), Overlay(m, b));
    SameEverywhere(AddAll(RemoveAll(m, removes), adds), Overlay(m, b));
  }

  lemma SameEverywhere(m: Routes, m': Routes)
    requires forall app :: SameAt(m, m', app)
    ensures m == m'
  {
    forall app ensures app in m <==> app in m' {
      assert SameAt(m, m', app);
    }
    forall app | app in m ensures m[app] == m'[app] {
      assert SameAt(m, m', app);
    }
  }

  predicate SameAt(m: Routes, m': Routes, app: App) { (app in m <==> app in m') && (app in m ==> m[app] == m'[app]) }

  lemma BatchAt(m: Routes, b: Batch, adds: seq<Route>, removes: seq<App>, app: App)
    requires Keyed(b) && Splits(b, adds, removes)
    ensures SameAt(RemoveAll(AddAll(m, adds), removes), Overlay(m, b), app)
    ensures SameAt(AddAll(RemoveAll(m, removes), adds), Overlay(m, b), app)
  {
    AddedAt(m, adds, app);
    RemovedAt(AddAll(m, adds), removes, app);
    RemovedAt(m, removes, app);
    AddedAt(RemoveAll(m, removes), adds, app);
  }

  /** Two batches whose flushes finish out of order leave the same routes exactly when they agree on every app both
      change. */
  lemma OutOfOrderIff(a: Batch, b: Batch)
    requires Keyed(a) && Keyed(b)
    ensures (forall m: Routes :: Overlay(Overlay(m, a), b) == Overlay(Overlay(m, b), a))
            <==> forall app | app in a && app in b && !a[app].Other? && !b[app].Other? :: a[app] == b[app]
  {
    if app :| app in a && app in b && !a[app].Other? && !b[app].Other? && a[app] != b[app] {
      var m: Routes := map[];
      assert app in Overlay(Overlay(m, a), b) <==> b[app].Add?;
      assert app in Overlay(Overlay(m, b), a) <==> a[app].Add?;
      assert Overlay(Overlay(m, a), b) != Overlay(Overlay(m, b), a);
    } else {
      forall m: Routes ensures Overlay(Overlay(m, a), b) == Overlay(Overlay(m, b), a) {
      }
    }
  }

  // ---------------------------------------------------------------- one more change

  /** Keeping only the last change of an app is the same as applying them all, as long as that change does something. */
  lemma OverlayOneMore(m: Routes, b: Batch, c: Change)
    requires Keyed(b) && !c.Other?
    ensures Overlay(m, b[Key(c) := c]) == ApplyChange(Overlay(m, b), c)
  {
  }

  /** An unknown action discards the change it replaces. */
  lemma OtherDiscardsPending(m: Routes, r: Route)
    requires r.app !in m
    ensures Overlay(m, map[r.app := Other(r.app)]) != ApplyEach(m, [Add(r), Other(r.app)])
  {
    assert [Add(r), Other(r.app)][..1] == [Add(r)];
    assert ApplyEach(m, [Add(r)]) == ApplyChange(ApplyEach(m, []), Add(r)) by { assert [Add(r)][..0] == []; }
    assert r.app in ApplyEach(m, [Add(r), Other(r.app)]);
  }

  // ---------------------------------------------------------------- the proxy

  predicate ShowsAt(config: Config, m: Routes, app: App) {
    (RouteId(app) in config <==> app in m) && (app in m ==> config[RouteId(app)] == BuildRouteJSON(m[app]))
  }

  /** The proxy holds exactly the routes of m, and whatever it holds under other ids. */
  ghost predicate Shows(config: Config, m: Routes) { forall app: App :: ShowsAt(config, m, app) }

  /** m is keyed by the apps of its routes. */
  ghost predicate KeyedRoutes(m: Routes) { forall app | app in m :: m[app].app == app }

  lemma OverlayKeyed(m: Routes, b: Batch)
    requires KeyedRoutes(m) && Keyed(b)
    ensures KeyedRoutes(Overlay(m, b))
  {
  }

  /** What the proxy holds is what it does: an app's host is answered exactly when the app is in m, and then it is
      served by that route's upstream, with that route's sandbox id. */
  lemma ShownIsServed(config: Config, m: Routes, app: App)
    requires Shows(config, m) && KeyedRoutes(m)
    ensures Answers(config, app + ".myappx.live") <==> app in m
    ensures app in m ==> Serves(config, app + ".myappx.live", Hop(m[app].upstream, m[app].sandbox))
  {
    forall other: App | "route-" + other in config
      ensures forall host :: Matches(config["route-" + other], host) <==> host == other + ".myappx.live"
    {
      assert ShowsAt(config, m, other);
      BuiltRouteForwards(m[other]);
    }
    AnswersIff(config, app);
    assert ShowsAt(config, m, app);
    if app in m {
      BuiltRouteForwards(m[app]);
    }
  }

  lemma {:induction false} AddedShows(config: Config, m: Routes, adds: seq<Route>, fails: nat -> bool, k: nat, app: App)
    requires ShowsAt(config, m, app) && forall j :: !fails(j)
    ensures ShowsAt(Added(config, adds, fails, k), AddAll(m, adds), app)
  {
    if adds != [] {
      var n := |adds| - 1;
      AddedShows(config, m, adds[..n], fails, k, app);
      RouteIdIsInjective(app, adds[n].app);
    }
  }

  lemma {:induction false} RemovedShows(config: Config, m: Routes, removes: seq<App>, fails: nat -> bool, k: nat,
                                        app: App)
    requires ShowsAt(config, m, app) && forall j :: !fails(j)
    ensures ShowsAt(Removed(config, removes, fails, k), RemoveAll(m, removes), app)
  {
    if removes != [] {
      var n := |removes| - 1;
      RemovedShows(config, m, removes[..n], fails, k, app);
      RouteIdIsInjective(app, removes[n]);
    }
  }

  /** Apply without failing calls brings the proxy from the routes m to the batch's overlay of m. */
  lemma ApplyIsOverlay(config: Config, m: Routes, b: Batch, adds: seq<Route>, removes: seq<App>, fails: nat -> bool,
                       k: nat)
    requires Shows(config, m) && Keyed(b) && Splits(b, adds, removes) && forall j :: !fails(j)
    ensures Shows(Removed(Added(config, adds, fails, k), removes, fails, k + |adds|), Overlay(m, b))
  {
    BatchOrderDoesNotMatter(m, b, adds, removes);
    var after := Removed(Added(config, adds, fails, k), removes, fails, k + |adds|);
    forall app: App ensures ShowsAt(after, Overlay(m, b), app) {
      assert ShowsAt(config, m, app);
      AddedShows(config, m, adds, fails, k, app);
      RemovedShows(Added(config, adds, fails, k), AddAll(m, adds), removes, fails, k + |adds|, app);
    }
  }

  /** So after Apply without failing calls an added app's host is served by its new upstream, a removed app's host by
      nobody, and any other as before. */
  lemma ApplyServes(config: Config, m: Routes, b: Batch, adds: seq<Route>, removes: seq<App>, fails: nat -> bool,
                    k: nat, app: App)
    requires Shows(config, m) && KeyedRoutes(m) && Keyed(b) && Splits(b, adds, removes) && forall j :: !fails(j)
    ensures var after := Removed(Added(config, adds, fails, k), removes, fails, k + |adds|);
            var host := app + ".myappx.live";
            && (forall r | r in adds && r.app == app :: Serves(after, host, Hop(r.upstream, r.sandbox)))
            && (app in removes ==> !Answers(after, host))
            && ((forall r | r in adds :: r.app != app) && app !in removes ==>
                  (Answers(after, host) <==> app in m)
                  && (app in m ==> Serves(after, host, Hop(m[app].upstream, m[app].sandbox))))
  {
    ApplyIsOverlay(config, m, b, adds, removes, fails, k);
    OverlayKeyed(m, b);
    ShownIsServed(Removed(Added(config, adds, fails, k), removes, fails, k + |adds|), Overlay(m, b), app);
    if app in b && b[app].Add? {
      assert b[app].route in adds;
    }
  }
}
