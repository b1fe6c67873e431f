/**
 No destruction without evidence: heartbeats, reconcile passes and freshness checks in any interleaving, with
 everybody else writing rows in between. A pass is its listing and then one step for each statement; a check is its
 look at the row, the reply, and what it does with it.
 */
module Evidence {
  import opened Wrappers
  import opened Reconcile
  import opened Observation

  /** A Docker listing that succeeded, on a node: the app names it showed. */
  datatype Sighting = Sighting(node: NodeId, apps: set<App>)

  /** A heartbeat that was sent: its containers, and how many sightings had been made by then. */
  datatype Beat = Beat(node: NodeId, containers: seq<Container>, seen: nat)

  /** A reconcile pass after its listing: the statements it still has to issue. */
  datatype Pass = Pass(beat: Beat, todo: seq<Write>)

  /** Who answered a freshness check: the containers handler of the agent, from a listing it takes, or anything else
      that speaks HTTP there, such as an agent that does not have the handler. */
  datatype Replier = Handler(snapshot: Option<seq<Container>>) | Foreign(response: Response)

  /** One freshness check between its calls. */
  datatype Check =
    | Asking(app: App, node: NodeId)
    | Told(app: App, node: NodeId, answer: Answer, byHandler: bool, seen: nat)

  datatype Author = ByReconciler | ByFreshness

  /** A row one of the two set to destroyed: the node the row named then, the node that was asked, whether the handler
      answered, and how many sightings had been made when it was answered. */
  datatype Destruction = Destruction(app: App, named: Option<NodeId>, asked: NodeId, byHandler: bool, seen: nat,
                                     author: Author)

  datatype World = World(rows: Table, sightings: seq<Sighting>, beats: seq<Beat>, passes: map<nat, Pass>,
                         checks: map<nat, Check>, destroyed: seq<Destruction>)

  datatype Action =
    | Tick(node: NodeId, snapshot: Option<seq<Container>>)         // the agent's heartbeat tick
    | List(pass: nat, i: nat, items: seq<Listed>, now: int)        // a heartbeat arrives, however late
    | Issue(pass: nat, at: Reading)                                // the pass issues its next statement
    | Ask(check: nat, app: App)                                    // a stale read looks up the row's node
    | Reply(check: nat, from: Replier, arrives: bool, decodes: bool)
    | Conclude(check: nat, at: Reading)                            // it acts on the answer
    | Edit(app: App, row: Rec)                                     // anybody else writes a row
    | Remove(app: App)

  predicate IsName(app: App) { app != "" }

  ghost predicate Enabled(w: World, a: Action) {
    match a
    case Tick(_, _) => true
    case List(pass, i, items, _) => pass !in w.passes && i < |w.beats| && ListsNode(items, w.rows, w.beats[i].node)
    case Issue(pass, _) => pass in w.passes && w.passes[pass].todo != []
    case Ask(check, app) => check !in w.checks && IsName(app) && app in w.rows && w.rows[app].node.Some?
    case Reply(check, _, _, _) => check in w.checks && w.checks[check].Asking?
    case Conclude(check, _) => check in w.checks && w.checks[check].Told?
    case Edit(_, _) => true
    case Remove(_) => true
  }

  function Sees(w: World, node: NodeId, snapshot: Option<seq<Container>>): seq<Sighting> {
    if snapshot.Some? then w.sightings + [Sighting(node, Names(snapshot.value))] else w.sightings
  }

  /** A row of that node, of which the client only looks at the node. */
  function RowOn(node: NodeId): Rec { Rec(Some(node), "pending", 0, 0, 0, "") }

  function ResponseOf(app: App, from: Replier): Response {
    match from
    case Handler(snapshot) => Served(app, snapshot)
    case Foreign(response) => response
  }

  /** What the check is told when that node is asked and the reply may be lost. */
  function AnswerOf(app: App, node: NodeId, from: Replier, arrives: bool, decodes: bool): Answer {
    Interpreted(Some(RowOn(node)), true, if arrives then Some(ResponseOf(app, from)) else None, decodes)
  }

  function Listing(from: Replier): Option<seq<Container>> { if from.Handler? then from.snapshot else None }

  function IssueStep(w: World, pass: nat, at: Reading): World
    requires pass in w.passes && w.passes[pass].todo != []
  {
    var p := w.passes[pass];
    var write := p.todo[0];
    var w' := w.(rows := DoWrite(w.rows, p.beat.node, write, at), passes := w.passes[pass := p.(todo := p.todo[1..])]);
    if write.Lose? && write.app in w.rows && !at.fails && LoseSelects(w.rows[write.app], p.beat.node, at.now) then
      w'.(destroyed := w.destroyed
                       + [Destruction(write.app, w.rows[write.app].node, p.beat.node, true, p.beat.seen, ByReconciler)])
    else w'
  }

  function ConcludeStep(w: World, check: nat, at: Reading): World
    requires check in w.checks && w.checks[check].Told?
  {
    var c := w.checks[check];
    var w' := w.(checks := w.checks - {check});
    if c.app !in w.rows || at.fails then w'
    else
      var row := w.rows[c.app];
      match c.answer
      case Unknown => w'
      case Present(state) => w'.(rows := w.rows[c.app := VerifiedRow(row, state, at.now)])
      case Absent =>
        w'.(rows := w.rows[c.app := DestroyedRow(row, at.now)],
            destroyed := if IsActive(row.state)
                         then w.destroyed + [Destruction(c.app, row.node, c.node, c.byHandler, c.seen, ByFreshness)]
                         else w.destroyed)
  }

  function Step(w: World, a: Action): World
    requires Enabled(w, a)
  {
    match a
    case Tick(node, snapshot) =>
      if snapshot.None? then w
      else w.(sightings := Sees(w, node, snapshot),
              beats := w.beats + [Beat(node, snapshot.value, |w.sightings| + 1)])
    case List(pass, i, items, now) =>
      w.(passes := w.passes[pass := Pass(w.beats[i], Plan(w.beats[i].containers, items, Some(now)))])
    case Issue(pass, at) => IssueStep(w, pass, at)
    case Ask(check, app) => w.(checks := w.checks[check := Asking(app, w.rows[app].node.value)])
    case Reply(check, from, arrives, decodes) =>
      var c := w.checks[check];
      var sightings := Sees(w, c.node, Listing(from));
      w.(sightings := sightings,
         checks := w.checks[check := Told(c.app, c.node, AnswerOf(c.app, c.node, from, arrives, decodes), from.Handler?,
                                          |sightings|)])
    case Conclude(check, at) => ConcludeStep(w, check, at)
    case Edit(app, row) => w.(rows := w.rows[app := row])
    case Remove(app) => w.(rows := w.rows - {app})
  }

  ghost predicate IsRun(w: World, run: seq<Action>)
    decreases |run|
  {
    run == [] || (Enabled(w, run[0]) && IsRun(Step(w, run[0]), run[1..]))
  }

  ghost function After(w: World, run: seq<Action>): World
    requires IsRun(w, run)
    decreases |run|
  {
    if run == [] then w else After(Step(w, run[0]), run[1..])
  }

  // ---------------------------------------------------------------- evidence

  /** One of the first seen sightings is of that node and lacks the app. */
  ghost predicate SeenWithout(sightings: seq<Sighting>, seen: nat, node: NodeId, app: App) {
    seen <= |sightings| && exists k | 0 <= k < seen :: sightings[k].node == node && app !in sightings[k].apps
  }

  /** The evidence behind a destruction, unless something else than the handler answered. */
  ghost predicate Justified(sightings: seq<Sighting>, d: Destruction) {
    && (d.byHandler ==> SeenWithout(sightings, d.seen, d.asked, d.app))
    && (d.author == ByReconciler ==> d.byHandler && d.named == Some(d.asked))
  }

  ghost predicate BeatOk(sightings: seq<Sighting>, b: Beat) {
    0 < b.seen <= |sightings| && sightings[b.seen - 1] == Sighting(b.node, Names(b.containers))
  }

  ghost predicate PassOk(sightings: seq<Sighting>, p: Pass) {
    BeatOk(sightings, p.beat) && forall x | x in p.todo && x.Lose? :: x.app !in Names(p.beat.containers)
  }

  ghost predicate CheckOk(sightings: seq<Sighting>, c: Check) {
    IsName(c.app) && (c.Told? && c.answer == Absent && c.byHandler ==> SeenWithout(sightings, c.seen, c.node, c.app))
  }

  ghost predicate Inv(w: World) {
    && (forall b | b in w.beats :: BeatOk(w.sightings, b))
    && (forall p | p in w.passes :: PassOk(w.sightings, w.passes[p]))
    && (forall r | r in w.checks :: CheckOk(w.sightings, w.checks[r]))
    && (forall d | d in w.destroyed :: Justified(w.sightings, d))
  }

  lemma MoreSightings(w: World, sightings: seq<Sighting>)
    requires Inv(w) && w.sightings <= sightings
    ensures Inv(w.(sightings := sightings))
  {
    forall seen, node, app | SeenWithout(w.sightings, seen, node, app) ensures SeenWithout(sightings, seen, node, app) {
      var k :| 0 <= k < seen && w.sightings[k].node == node && app !in w.sightings[k].apps;
      assert sightings[k] == w.sightings[k];
    }
  }

  lemma TickKeeps(w: World, node: NodeId, snapshot: Option<seq<Container>>)
    requires Inv(w)
    ensures Inv(Step(w, Tick(node, snapshot)))
  {
    if snapshot.Some? {
      var sightings := Sees(w, node, snapshot);
      MoreSightings(w, sightings);
      assert BeatOk(sightings, Beat(node, snapshot.value, |w.sightings| + 1));
    }
  }

  lemma ListKeeps(w: World, pass: nat, i: nat, items: seq<Listed>, now: int)
    requires Inv(w) && Enabled(w, List(pass, i, items, now))
    ensures Inv(Step(w, List(pass, i, items, now)))
  {
    var beat := w.beats[i];
    assert beat in w.beats;
    LosesAre(items, Names(beat.containers), Some(now));
    forall x | x in Plan(beat.containers, items, Some(now)) && x.Lose? ensures x.app !in Names(beat.containers) {
      PlannedWrites(beat.containers, items, Some(now), x);
    }
  }

  /** The row named the node that was asked because the statement says so, not because the listing did. */
  lemma IssueKeeps(w: World, pass: nat, at: Reading)
    requires Inv(w) && pass in w.passes && w.passes[pass].todo != []
    ensures Inv(IssueStep(w, pass, at))
  {
    var p := w.passes[pass];
    var write := p.todo[0];
    assert forall x | x in p.todo[1..] :: x in p.todo;
    if write.Lose? {
      assert write in p.todo;
      assert w.sightings[p.beat.seen - 1].node == p.beat.node && write.app !in w.sightings[p.beat.seen - 1].apps;
    }
  }

  lemma ReplyKeeps(w: World, check: nat, from: Replier, arrives: bool, decodes: bool)
    requires Inv(w) && check in w.checks && w.checks[check].Asking?
    ensures Inv(Step(w, Reply(check, from, arrives, decodes)))
  {
    var c := w.checks[check];
    var sightings := Sees(w, c.node, Listing(from));
    MoreSightings(w, sightings);
    if from.Handler? {
      AbsentIffListedWithout(RowOn(c.node), c.app, from.snapshot, decodes);
      if from.snapshot.Some? && c.app !in Names(from.snapshot.value) {
        assert sightings[|w.sightings|].node == c.node && c.app !in sightings[|w.sightings|].apps;
      }
    }
  }

  lemma StepKeeps(w: World, a: Action)
    requires Inv(w) && Enabled(w, a)
    ensures Inv(Step(w, a)) && w.sightings <= Step(w, a).sightings && w.destroyed <= Step(w, a).destroyed
  {
    match a
    case Tick(node, snapshot) => TickKeeps(w, node, snapshot);
    case List(pass, i, items, now) => ListKeeps(w, pass, i, items, now);
    case Issue(pass, at) => IssueKeeps(w, pass, at);
    case Reply(check, from, arrives, decodes) => ReplyKeeps(w, check, from, arrives, decodes);
    case _ =>
  }

  lemma {:induction false} RunKeeps(w: World, run: seq<Action>)
    requires Inv(w) && IsRun(w, run)
    ensures Inv(After(w, run)) && w.sightings <= After(w, run).sightings
    decreases |run|
  {
    if run != [] {
      StepKeeps(w, run[0]);
      RunKeeps(Step(w, run[0]), run[1..]);
    }
  }

  function Initial(rows: Table): World { World(rows, [], [], map[], map[], []) }

  /** Whatever listings fail, whatever replies and heartbeats are lost or late, and whatever others write in between:
      each row the reconciler destroyed was missing from an earlier successful Docker listing of the node the row named
      when it was destroyed; each row the freshness check destroyed on the handler's answer was missing from an earlier
      successful listing of the node that was asked. */
  lemma NoDestructionWithoutEvidence(rows: Table, run: seq<Action>, d: Destruction)
    requires IsRun(Initial(rows), run) && d in After(Initial(rows), run).destroyed
    ensures d.author == ByReconciler || d.byHandler ==>
              SeenWithout(After(Initial(rows), run).sightings, d.seen, d.asked, d.app)
    ensures d.author == ByReconciler ==> d.named == Some(d.asked)
  {
    RunKeeps(Initial(rows), run);
  }

  // ---------------------------------------------------------------- who answers

  /** A check of an active row that is answered absent destroys it with evidence exactly when the containers handler
      answered, or the app was missing from a listing of that node already. */
  lemma EvidenceIffHandlerAnswers(w: World, check: nat, from: Replier, decodes: bool, at: Reading)
    requires Inv(w) && check in w.checks && w.checks[check].Asking? && !at.fails
    requires w.checks[check].app in w.rows && IsActive(w.rows[w.checks[check].app].state)
    requires AnswerOf(w.checks[check].app, w.checks[check].node, from, true, decodes) == Absent
    ensures var c := w.checks[check];
            var w' := ConcludeStep(Step(w, Reply(check, from, true, decodes)), check, at);
            && |w'.destroyed| == |w.destroyed| + 1 && w'.destroyed[|w.destroyed|].app == c.app
            && w'.rows[c.app].state == "destroyed"
            && (SeenWithout(w'.sightings, w'.destroyed[|w.destroyed|].seen, c.node, c.app)
                <==> from.Handler? || SeenWithout(w.sightings, |w.sightings|, c.node, c.app))
  {
    ReplyKeeps(w, check, from, true, decodes);
    MoreSightings(w, Sees(w, w.checks[check].node, Listing(from)));
  }

  /** An agent without the handler answers 404: a first check then destroys its row with nothing seen at all. */
  lemma AgentWithoutHandlerDestroys(rows: Table, app: App, home: NodeId, at: Reading)
    requires IsName(app) && app in rows && rows[app].node == Some(home) && IsActive(rows[app].state) && !at.fails
    ensures var run := [Ask(0, app), Reply(0, Foreign(Response(404, false, "")), true, true), Conclude(0, at)];
            && IsRun(Initial(rows), run) && app in After(Initial(rows), run).rows
            && After(Initial(rows), run).rows[app].state == "destroyed" && After(Initial(rows), run).sightings == []
  {
    var run := [Ask(0, app), Reply(0, Foreign(Response(404, false, "")), true, true), Conclude(0, at)];
    var w1 := Step(Initial(rows), run[0]);
    var w2 := Step(w1, run[1]);
    var w3 := Step(w2, run[2]);
    RunOfThree(Initial(rows), run, w1, w2, w3);
  }

  lemma RunOfThree(w: World, run: seq<Action>, w1: World, w2: World, w3: World)
    requires |run| == 3 && Enabled(w, run[0]) && w1 == Step(w, run[0]) && Enabled(w1, run[1]) && w2 == Step(w1, run[1])
    requires Enabled(w2, run[2]) && w3 == Step(w2, run[2])
    ensures IsRun(w, run) && After(w, run) == w3
  {
    assert run[1..][1..] == run[2..] && run[2..][1..] == [];
    assert IsRun(w3, []) && After(w3, []) == w3;
    assert IsRun(w2, run[2..]) && After(w2, run[2..]) == w3;
    assert IsRun(w1, run[1..]) && After(w1, run[1..]) == w3;
  }

  // ---------------------------------------------------------------- which node is asked

  predicate Concludes(a: Action, check: nat) { a.Conclude? && a.check == check }

  /** Until it concludes, a check stays about its app and the node it looked up. */
  predicate About(w: World, check: nat, app: App, home: NodeId) {
    check in w.checks && w.checks[check].app == app && w.checks[check].node == home
  }

  lemma {:induction false} CheckStays(w: World, run: seq<Action>, check: nat, app: App, home: NodeId)
    requires IsRun(w, run) && About(w, check, app, home) && forall a | a in run :: !Concludes(a, check)
    ensures About(After(w, run), check, app, home)
    decreases |run|
  {
    if run != [] {
      assert !Concludes(run[0], check);
      CheckStays(Step(w, run[0]), run[1..], check, app, home);
    }
  }

  /** From any reachable world, whatever happens between a check's look at the row and its end: the row it destroys was
      judged by the node the row named when the check looked it up. That is the node the row names when it is destroyed
      exactly when the row names it at that moment, however often it was moved in between; and then, if the handler
      answered, the row was missing from an earlier listing of the node it names. */
  lemma CheckJudgesByNodeAsked(w: World, check: nat, app: App, run: seq<Action>, at: Reading)
    requires Inv(w) && Enabled(w, Ask(check, app)) && IsRun(Step(w, Ask(check, app)), run)
    requires forall a | a in run :: !Concludes(a, check)
    requires Enabled(After(Step(w, Ask(check, app)), run), Conclude(check, at))
    requires var w1 := After(Step(w, Ask(check, app)), run); |ConcludeStep(w1, check, at).destroyed| > |w1.destroyed|
    ensures var w1 := After(Step(w, Ask(check, app)), run);
            var w2 := ConcludeStep(w1, check, at);
            var d := w2.destroyed[|w1.destroyed|];
            && app in w1.rows && app in w2.rows && w2.rows[app].state == "destroyed" && d.app == app
            && Some(d.asked) == w.rows[app].node
            && (d.named == Some(d.asked) <==> w1.rows[app].node == w.rows[app].node)
            && (d.byHandler && w1.rows[app].node == w.rows[app].node ==>
                  SeenWithout(w2.sightings, d.seen, w2.rows[app].node.value, app))
  {
    var w0 := Step(w, Ask(check, app));
    var w1 := After(w0, run);
    StepKeeps(w, Ask(check, app));
    RunKeeps(w0, run);
    CheckStays(w0, run, check, app, w.rows[app].node.value);
    StepKeeps(w1, Conclude(check, at));
    var w2 := ConcludeStep(w1, check, at);
    assert w2.destroyed[|w1.destroyed|] in w2.destroyed;
  }

  /** Nobody but the two marks, which leave node_id alone, writes the app's row to another node. */
  predicate LeavesHome(a: Action, app: App, home: NodeId) {
    (a.Remove? && a.app == app) || (a.Edit? && a.app == app && a.row.node != Some(home))
  }

  predicate AtHome(w: World, app: App, home: NodeId) { app in w.rows && w.rows[app].node == Some(home) }

  lemma StepStaysHome(w: World, a: Action, app: App, home: NodeId)
    requires Enabled(w, a) && AtHome(w, app, home) && !LeavesHome(a, app, home)
    ensures AtHome(Step(w, a), app, home)
  {
  }

  lemma {:induction false} StaysHome(w: World, run: seq<Action>, app: App, home: NodeId)
    requires IsRun(w, run) && AtHome(w, app, home) && forall a | a in run :: !LeavesHome(a, app, home)
    ensures AtHome(After(w, run), app, home)
    decreases |run|
  {
    if run != [] {
      assert !LeavesHome(run[0], app, home);
      StepStaysHome(w, run[0], app, home);
      StaysHome(Step(w, run[0]), run[1..], app, home);
    }
  }

  /** In particular a row that nobody moves between the check's look and its end, and that the handler answered for, is
      only destroyed when an earlier listing of its own node lacks it. */
  lemma UnmovedRowIsJudgedByItsNode(w: World, check: nat, app: App, run: seq<Action>, at: Reading)
    requires Inv(w) && Enabled(w, Ask(check, app)) && IsRun(Step(w, Ask(check, app)), run)
    requires forall a | a in run :: !Concludes(a, check) && !LeavesHome(a, app, w.rows[app].node.value)
    requires Enabled(After(Step(w, Ask(check, app)), run), Conclude(check, at))
    requires var w1 := After(Step(w, Ask(check, app)), run);
             w1.checks[check].byHandler && |ConcludeStep(w1, check, at).destroyed| > |w1.destroyed|
    ensures var w1 := After(Step(w, Ask(check, app)), run);
            var w2 := ConcludeStep(w1, check, at);
            app in w2.rows && w2.rows[app].node.Some?
            && SeenWithout(w2.sightings, w2.destroyed[|w1.destroyed|].seen, w2.rows[app].node.value, app)
  {
    StaysHome(Step(w, Ask(check, app)), run, app, w.rows[app].node.value);
    CheckJudgesByNodeAsked(w, check, app, run, at);
  }

  /** A row that is moved meanwhile can be destroyed although nobody ever looked at the node it is on. */
  lemma MovedRowCanBeDestroyedUnseen(rows: Table, app: App, home: NodeId, other: NodeId, row: Rec, at: Reading)
    requires IsName(app) && app in rows && rows[app].node == Some(home) && home != other
    requires row.node == Some(other) && IsActive(row.state) && !at.fails
    ensures var run := [Ask(0, app), Reply(0, Handler(Some([])), true, true), Edit(app, row), Conclude(0, at)];
            && IsRun(Initial(rows), run)
            && var w := After(Initial(rows), run);
               && app in w.rows && w.rows[app].state == "destroyed" && w.rows[app].node == Some(other)
               && forall seen :: !SeenWithout(w.sightings, seen, other, app)
  {
    var run := [Ask(0, app), Reply(0, Handler(Some([])), true, true), Edit(app, row), Conclude(0, at)];
    var w0 := Initial(rows);
    AbsentIffListedWithout(RowOn(home), app, Some([]), true);
    var w1 := Step(w0, run[0]);
    var w2 := Step(w1, run[1]);
    var w3 := Step(w2, run[2]);
    var w4 := Step(w3, run[3]);
    assert w4.sightings == [Sighting(home, Names([]))];
    assert run[1..] == [run[1], run[2], run[3]];
    RunOfThree(w1, run[1..], w2, w3, w4);
  }

  // ---------------------------------------------------------------- the record is complete

  /** A step of a pass or a check that turns a row into destroyed puts it on record, unless the agent itself reported
      that state, which the pass copies. */
  lemma DestructionIsRecorded(w: World, a: Action, app: App)
    requires Enabled(w, a) && !a.Edit? && !a.Remove? && app in w.rows && w.rows[app].state != "destroyed"
    requires app in Step(w, a).rows && Step(w, a).rows[app].state == "destroyed"
    ensures (exists d | d in Step(w, a).destroyed[|w.destroyed|..] :: d.app == app)
            || (a.Issue? && w.passes[a.pass].todo[0] == Verify(app, "destroyed"))
            || (a.Conclude? && w.checks[a.check].answer == Present("destroyed"))
  {
    var w' := Step(w, a);
    if |w'.destroyed| > |w.destroyed| {
      assert w'.destroyed[|w.destroyed|] in w'.destroyed[|w.destroyed|..];
    }
  }

  /** The pass's next statements, one after the other. */
  function Issues(pass: nat, n: nat, script: nat -> Reading, k: nat): seq<Action> {
    if n == 0 then [] else [Issue(pass, script(k))] + Issues(pass, n - 1, script, k + 1)
  }

  lemma ApplyHead(t: Table, node: NodeId, plan: seq<Write>, script: nat -> Reading, k: nat)
    requires plan != []
    ensures Apply(t, node, plan, script, k)
            == Apply(DoWrite(t, node, plan[0], script(k)), node, plan[1..], script, k + 1)
  {
    ApplyConcat(t, node, [plan[0]], plan[1..], script, k);
    assert [plan[0]] + plan[1..] == plan && [plan[0]][..0] == [];
    assert Apply(t, node, [], script, k) == t;
  }

  /** A pass during which nobody else does anything is the reconciler's plan of writes. */
  lemma {:induction false} UndisturbedPass(w: World, pass: nat, p: Pass, script: nat -> Reading, k: nat)
    requires pass in w.passes && w.passes[pass] == p
    ensures var run := Issues(pass, |p.todo|, script, k);
            IsRun(w, run) && After(w, run).rows == Apply(w.rows, p.beat.node, p.todo, script, k)
    decreases |p.todo|
  {
    if p.todo != [] {
      var run := Issues(pass, |p.todo|, script, k);
      var w' := IssueStep(w, pass, script(k));
      var p' := p.(todo := p.todo[1..]);
      UndisturbedPass(w', pass, p', script, k + 1);
      assert run[0] == Issue(pass, script(k)) && run[1..] == Issues(pass, |p'.todo|, script, k + 1);
      ApplyHead(w.rows, p.beat.node, p.todo, script, k);
    }
  }
}
