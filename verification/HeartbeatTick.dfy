/** One tick of the heartbeat monitor: which rows it moves, and where they end. */
module HeartbeatTick {
  import opened Wrappers
  import opened Models
  import opened Scheduler
  import opened Protocol
  import opened Atomic
  import opened AtomicRuns
  import opened Store
  import opened RescheduleRows

  /** The monitor's turn at one silent node: the status write fails, or the listing fails, or its rows are moved. */
  datatype Turn = Unmarked(node: NodeId) | Unlisted(node: NodeId) | Moved(node: NodeId, listed: Listing)

  ghost predicate Happens(d: Driven, turn: Turn, script: nat -> Choice) {
    match turn
    case Unmarked(_) => script(d.clock).fails
    case Unlisted(_) => !script(d.clock).fails && script(d.clock + 1).fails
    case Moved(node, listed) =>
      !script(d.clock).fails && !script(d.clock + 1).fails && Lists(listed, d.db.rows, Some(node))
  }

  function AfterTurn(d: Driven, turn: Turn, script: nat -> Choice): Driven {
    match turn
    case Unmarked(_) => Driven(d.db, d.clock + 1)
    case Unlisted(node) => Driven(d.db.(nodes := Mark(d.db.nodes, node)), d.clock + 2)
    case Moved(node, listed) =>
      Rescheduled(Driven(d.db.(nodes := Mark(d.db.nodes, node)), d.clock + 2), listed, script)
  }

  ghost predicate IsTick(d: Driven, turns: seq<Turn>, script: nat -> Choice, d': Driven)
    decreases |turns|
  {
    if turns == [] then d' == d
    else Happens(d, turns[0], script) && IsTick(AfterTurn(d, turns[0], script), turns[1..], script, d')
  }

  lemma {:induction false} IsTickOneMore(d: Driven, turns: seq<Turn>, turn: Turn, script: nat -> Choice, d': Driven)
    requires IsTick(d, turns, script, d') && Happens(d', turn, script)
    ensures IsTick(d, turns + [turn], script, AfterTurn(d', turn, script))
    decreases |turns|
  {
    if turns == [] {
      assert (turns + [turn])[1..] == [];
    } else {
      assert (turns + [turn])[1..] == turns[1..] + [turn];
      IsTickOneMore(AfterTurn(d, turns[0], script), turns[1..], turn, script, d');
    }
  }

  /** The nodes of the turns. */
  function Marked(turns: seq<Turn>): set<NodeId> {
    if turns == [] then {} else {turns[0].node} + Marked(turns[1..])
  }

  /** The nodes of the turns up to the first one at node x. */
  function MarkedUpTo(turns: seq<Turn>, x: NodeId): set<NodeId> {
    if turns == [] then {}
    else if turns[0].node == x then {x}
    else {turns[0].node} + MarkedUpTo(turns[1..], x)
  }

  /** The nodes as they are when the tick places the rows of node x: marked up to the first turn at x. */
  function NodesAt(nodes: seq<Node>, turns: seq<Turn>, x: NodeId): seq<Node>
    decreases |turns|
  {
    if turns == [] then nodes
    else if turns[0].node == x then Mark(nodes, x)
    else NodesAt(Mark(nodes, turns[0].node), turns[1..], x)
  }

  lemma {:induction false} MarkFits(nodes: seq<Node>, id: NodeId, n: Node)
    requires n.status == Healthy
    ensures n in Mark(nodes, id) <==> n in nodes && n.id != id
  {
    if nodes != [] {
      MarkFits(nodes[1..], id, n);
      assert n in nodes <==> n == nodes[0] || n in nodes[1..];
    }
  }

  lemma {:induction false} NodesAtFit(nodes: seq<Node>, turns: seq<Turn>, x: NodeId, n: Node)
    requires n.status == Healthy
    ensures n in NodesAt(nodes, turns, x) <==> n in nodes && n.id !in MarkedUpTo(turns, x)
    decreases |turns|
  {
    if turns != [] {
      MarkFits(nodes, turns[0].node, n);
      if turns[0].node != x {
        NodesAtFit(Mark(nodes, turns[0].node), turns[1..], x, n);
      }
    }
  }

  lemma {:induction false} HealthyAreListed(nodes: seq<Node>, n: Node)
    ensures n in HealthyNodes(nodes) <==> n in nodes && n.status == Healthy
  {
    if nodes != [] {
      HealthyAreListed(nodes[1..], n);
      assert n in nodes <==> n == nodes[0] || n in nodes[1..];
    }
  }

  // ---------------------------------------------------------------- where a row ends

  /** The node a tick with these turns moves the row to; None when it has nowhere to go. */
  function Destination(was: Row, nodes: seq<Node>, turns: seq<Turn>): Option<NodeId>
    requires was.node.Some?
  {
    Place(HealthyNodes(NodesAt(nodes, turns, was.node.value)), Need(was))
  }

  /** Among the nodes healthy before the tick and not marked up to the row's turn: one that fits, none roomier. */
  ghost predicate BestOutside(nodes: seq<Node>, need: int, taken: set<NodeId>, id: NodeId) {
    exists n | n in nodes ::
      && n.id == id && Fits(n, need) && id !in taken
      && forall m | m in nodes && Fits(m, need) && m.id !in taken :: Free(m) <= Free(n)
  }

  predicate Concerns(was: Row, nodes: set<NodeId>) {
    was.state == Running && was.node.Some? && was.node.value in nodes
  }

  /** What a tick makes of a row. */
  ghost predicate Fate(was: Row, now: Row, nodes: seq<Node>, turns: seq<Turn>) {
    now == if Concerns(was, Marked(turns)) then MovedRow(was, Destination(was, nodes, turns)) else was
  }

  lemma DestinationIsBest(was: Row, nodes: seq<Node>, turns: seq<Turn>)
    requires Concerns(was, Marked(turns))
    ensures var target := Destination(was, nodes, turns); var taken := MarkedUpTo(turns, was.node.value);
            && (target.Some? ==> target != was.node && BestOutside(nodes, Need(was), taken, target.value))
            && (target.None? <==> forall n | n in nodes && Fits(n, Need(was)) :: n.id in taken)
  {
    var x := was.node.value;
    var at := NodesAt(nodes, turns, x);
    var healthy := HealthyNodes(at);
    var need := Need(was);
    PlaceIsBest(healthy, need);
    UpToIncludes(turns, x);
    forall n: Node | n.status == Healthy ensures n in healthy <==> n in nodes && n.id !in MarkedUpTo(turns, x) {
      NodesAtFit(nodes, turns, x, n);
      HealthyAreListed(at, n);
    }
    if Place(healthy, need).Some? {
      var i: nat :| FirstBest(healthy, need, i) && healthy[i].id == Place(healthy, need).value;
      assert healthy[i] in healthy;
      forall m | m in nodes && Fits(m, need) && m.id !in MarkedUpTo(turns, x) ensures Free(m) <= Free(healthy[i]) {
        assert m in healthy;
      }
    }
  }

  lemma FateChain(was: Row, mid: Row, now: Row, nodes: seq<Node>, turns: seq<Turn>)
    requires turns != []
    requires mid == if Concerns(was, {turns[0].node})
                    then MovedRow(was, Place(HealthyNodes(Mark(nodes, turns[0].node)), Need(was))) else was
    requires Fate(mid, now, Mark(nodes, turns[0].node), turns[1..])
    ensures Fate(was, now, nodes, turns)
  {
  }

  // ---------------------------------------------------------------- the whole tick

  /** Rows meet their fate, moved ones that start have their command, and exactly the marked nodes are not healthy. */
  ghost predicate TickDone(a: Db, turns: seq<Turn>, b: Db) {
    && b.rows.Keys == a.rows.Keys && Extends(a.cmds, b.cmds)
    && (forall id | id in a.rows :: Fate(a.rows[id], b.rows[id], a.nodes, turns))
    && (forall id | id in a.rows && Concerns(a.rows[id], Marked(turns)) && b.rows[id].state == Starting ::
          HasStart(b.cmds, id, b.rows[id]))
    && (forall n: Node | n.status == Healthy :: n in b.nodes <==> n in a.nodes && n.id !in Marked(turns))
  }

  lemma ListedAreConcerned(rows: map<SandboxId, Row>, node: NodeId, listed: Listing)
    requires Lists(listed, rows, Some(node))
    ensures Current(listed, rows)
    ensures forall id | id in rows :: (id, rows[id]) in listed <==> Concerns(rows[id], {node})
  {
  }

  lemma TurnIsMoved(d: Driven, turn: Turn, script: nat -> Choice)
    requires NoFailure(script) && Happens(d, turn, script)
    ensures turn.Moved? && Lists(turn.listed, d.db.rows, Some(turn.node))
  {
    assert !script(d.clock).fails && !script(d.clock + 1).fails;
  }

  lemma MarkedRowsMove(d0: Driven, listed: Listing, script: nat -> Choice, d': Driven)
    requires NoFailure(script) && Fresh(script, d0.clock, d0.db.cmds) && Current(listed, d0.db.rows)
    requires d' == Rescheduled(d0, listed, script)
    ensures Fresh(script, d'.clock, d'.db.cmds) && ListMoved(d0.db, listed, d'.db)
  {
    RescheduledMovesTheList(d0, listed, script);
  }

  lemma TurnMoves(d: Driven, turn: Turn, script: nat -> Choice, d': Driven)
    requires NoFailure(script) && Fresh(script, d.clock, d.db.cmds) && Happens(d, turn, script)
    requires d' == AfterTurn(d, turn, script)
    ensures turn.Moved? && Fresh(script, d'.clock, d'.db.cmds)
    ensures ListMoved(d.db.(nodes := Mark(d.db.nodes, turn.node)), turn.listed, d'.db)
    ensures forall id | id in d.db.rows :: (id, d.db.rows[id]) in turn.listed <==> Concerns(d.db.rows[id], {turn.node})
  {
    TurnIsMoved(d, turn, script);
    ListedAreConcerned(d.db.rows, turn.node, turn.listed);
    MarkedRowsMove(Driven(d.db.(nodes := Mark(d.db.nodes, turn.node)), d.clock + 2), turn.listed, script, d');
  }

  lemma {:induction false} TickMeetsFate(d: Driven, turns: seq<Turn>, script: nat -> Choice, d': Driven)
    requires NoFailure(script) && Fresh(script, d.clock, d.db.cmds) && IsTick(d, turns, script, d')
    ensures TickDone(d.db, turns, d'.db)
    decreases |turns|
  {
    if turns != [] {
      var turn := turns[0];
      var d1 := AfterTurn(d, turn, script);
      TurnMoves(d, turn, script, d1);
      TickMeetsFate(d1, turns[1..], script, d');
      TickChain(d.db, turns, d1.db, d'.db);
    }
  }

  lemma TickChain(a: Db, turns: seq<Turn>, b: Db, c: Db)
    requires turns != [] && turns[0].Moved?
    requires ListMoved(a.(nodes := Mark(a.nodes, turns[0].node)), turns[0].listed, b)
    requires forall id | id in a.rows :: (id, a.rows[id]) in turns[0].listed <==> Concerns(a.rows[id], {turns[0].node})
    requires TickDone(b, turns[1..], c)
    ensures TickDone(a, turns, c)
  {
    var node := turns[0].node;
    forall id | id in a.rows ensures Fate(a.rows[id], c.rows[id], a.nodes, turns) {
      FateChain(a.rows[id], b.rows[id], c.rows[id], a.nodes, turns);
    }
    forall id | id in a.rows && Concerns(a.rows[id], Marked(turns)) && c.rows[id].state == Starting
      ensures HasStart(c.cmds, id, c.rows[id])
    {
      if Concerns(a.rows[id], {node}) {
        HasStartStays(b.cmds, c.cmds, id, b.rows[id]);
      }
    }
    forall n: Node | n.status == Healthy ensures n in c.nodes <==> n in a.nodes && n.id !in Marked(turns) {
      MarkFits(a.nodes, node, n);
    }
  }

  /** After a tick without failures no row is running on a node it marked; every row it moved is starting, with its
      command, on the roomiest node that fits it among those healthy before the tick and not marked before its turn, or
      failed because there was none; all others are untouched, so none is left pending by the tick. */
  lemma TickEmptiesMarkedNodes(d: Driven, turns: seq<Turn>, script: nat -> Choice, d': Driven, id: SandboxId)
    requires NoFailure(script) && Fresh(script, d.clock, d.db.cmds) && IsTick(d, turns, script, d')
    requires id in d.db.rows
    ensures id in d'.db.rows && !Concerns(d'.db.rows[id], Marked(turns))
    ensures var was, now := d.db.rows[id], d'.db.rows[id];
            if Concerns(was, Marked(turns))
            then var target := Destination(was, d.db.nodes, turns);
                 && now == MovedRow(was, target)
                 && (target.Some? ==>
                       && now.state == Starting && now.node == target && target != was.node
                       && BestOutside(d.db.nodes, Need(was), MarkedUpTo(turns, was.node.value), target.value)
                       && HasStart(d'.db.cmds, id, now))
                 && (target.None? ==> now.state == Failed)
                 && (target.None? <==> forall n | n in d.db.nodes && Fits(n, Need(was)) ::
                                         n.id in MarkedUpTo(turns, was.node.value))
            else now == was
  {
    TickMeetsFate(d, turns, script, d');
    var was, now := d.db.rows[id], d'.db.rows[id];
    assert Fate(was, now, d.db.nodes, turns);
    if Concerns(was, Marked(turns)) {
      DestinationIsBest(was, d.db.nodes, turns);
    }
  }

  lemma {:induction false} UpToIncludes(turns: seq<Turn>, x: NodeId)
    requires x in Marked(turns)
    ensures x in MarkedUpTo(turns, x)
  {
    if turns[0].node != x {
      UpToIncludes(turns[1..], x);
    }
  }

  ghost predicate Up(nodes: seq<Node>, id: NodeId) { exists n | n in nodes :: n.id == id && n.status == Healthy }

  /** A row with somewhere to go starts on a node that is healthy when the tick ends exactly when its destination, which
      is known before the tick, is not one of the silent nodes. */
  lemma StartsOnHealthyNodeIff(d: Driven, turns: seq<Turn>, script: nat -> Choice, d': Driven, id: SandboxId)
    requires NoFailure(script) && Fresh(script, d.clock, d.db.cmds) && IsTick(d, turns, script, d')
    requires id in d.db.rows && Concerns(d.db.rows[id], Marked(turns))
    requires Destination(d.db.rows[id], d.db.nodes, turns).Some?
    ensures id in d'.db.rows && d'.db.rows[id].state == Starting && d'.db.rows[id].node.Some?
    ensures Up(d'.db.nodes, d'.db.rows[id].node.value)
            <==> Destination(d.db.rows[id], d.db.nodes, turns).value !in Marked(turns)
  {
    TickMeetsFate(d, turns, script, d');
    assert Fate(d.db.rows[id], d'.db.rows[id], d.db.nodes, turns);
    DestinationIsBest(d.db.rows[id], d.db.nodes, turns);
    var x := Destination(d.db.rows[id], d.db.nodes, turns).value;
    var n :| n in d.db.nodes && n.id == x && Fits(n, Need(d.db.rows[id]));
    if x !in Marked(turns) {
      assert n in d'.db.nodes;
    }
  }

  lemma OnlyTheOtherNode(was: Row, nodes: seq<Node>, turns: seq<Turn>)
    requires nodes == [Node(1, 4096, 0, Healthy), Node(2, 4096, 0, Healthy)]
    requires was.state == Running && was.node == Some(1) && was.memoryMB == 512
    requires 1 in Marked(turns) && MarkedUpTo(turns, 1) == {1}
    ensures Destination(was, nodes, turns) == Some(2)
  {
    DestinationIsBest(was, nodes, turns);
    assert nodes[1] in nodes && Fits(nodes[1], 512) && nodes[1].id == 2;
  }

  lemma TwoTurns(turns: seq<Turn>)
    requires |turns| == 2 && turns[0].node == 1 && turns[1].node == 2
    ensures Marked(turns) == {1, 2} && MarkedUpTo(turns, 1) == {1}
  {
    assert Marked(turns[1..]) == {2} + Marked(turns[2..]);
  }

  /** No call fails, and command ids are the numbers of the calls. */
  function Plain(): nat -> Choice { (k: nat) => Choice(k, false) }

  /** The first node has one running row, and the second none once it was moved. */
  lemma FirstTurnMovesTheRow(d: Driven, row: Row)
    requires row.state == Running && row.node == Some(1) && d.db.cmds == map[] && d.db.rows == map[7 := row]
    ensures var first := Moved(1, [(7, row)]);
            && Happens(d, first, Plain())
            && Happens(AfterTurn(d, first, Plain()), Moved(2, []), Plain())
  {
    var first := Moved(1, [(7, row)]);
    var d1 := AfterTurn(d, first, Plain());
    assert forall x | x in [(7, row)] :: x == (7, row);
    TurnMoves(d, first, Plain(), d1);
    assert (7, row) in first.listed;
    assert forall id | id in d1.db.rows :: id == 7 && d1.db.rows[id].state != Running;
  }

  /** It does happen: two silent nodes, one row on the first. The row is moved to the second, which the same
      tick then marks; nobody polls its start command. */
  lemma TickCanStartOnMarkedNode(d: Driven, row: Row)
    requires row.state == Running && row.node == Some(1) && row.memoryMB == 512 && d.db.cmds == map[]
    requires d.db.rows == map[7 := row] && d.db.nodes == [Node(1, 4096, 0, Healthy), Node(2, 4096, 0, Healthy)]
    ensures var first, second := Moved(1, [(7, row)]), Moved(2, []);
            var d' := AfterTurn(AfterTurn(d, first, Plain()), second, Plain());
            && IsTick(d, [first, second], Plain(), d')
            && 7 in d'.db.rows && d'.db.rows[7].state == Starting && d'.db.rows[7].node == Some(2)
            && !Up(d'.db.nodes, 2)
  {
    var turns := [Moved(1, [(7, row)]), Moved(2, [])];
    var d1 := AfterTurn(d, turns[0], Plain());
    var d' := AfterTurn(d1, turns[1], Plain());
    FirstTurnMovesTheRow(d, row);
    TwoTurnsAreATick(d, turns, Plain(), d1, d');
    TwoTurns(turns);
    OnlyTheOtherNode(row, d.db.nodes, turns);
    TickEmptiesMarkedNodes(d, turns, Plain(), d', 7);
    StartsOnHealthyNodeIff(d, turns, Plain(), d', 7);
  }

  lemma TwoTurnsAreATick(d: Driven, turns: seq<Turn>, script: nat -> Choice, d1: Driven, d2: Driven)
    requires |turns| == 2 && Happens(d, turns[0], script) && d1 == AfterTurn(d, turns[0], script)
    requires Happens(d1, turns[1], script) && d2 == AfterTurn(d1, turns[1], script)
    ensures IsTick(d, turns, script, d2)
  {
    assert turns[1..][0] == turns[1] && turns[1..][1..] == [];
    assert IsTick(d2, [], script, d2);
    assert IsTick(d1, turns[1..], script, d2);
  }
}
