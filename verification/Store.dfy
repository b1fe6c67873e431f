/** The control plane's store: every SQL statement and route notification the handlers issue, in place. */
module Store {
  import opened Wrappers
  import opened Models
  import opened Scheduler
  import opened Protocol

  class ControlStore {
    var rows: map<SandboxId, Row>
    var apps: map<string, SandboxId>
    var cmds: map<CmdId, Cmd>
    var routes: map<string, Route>
    var nodes: seq<Node>
    var born: set<SandboxId>
    var lost: set<SandboxId>
    /** Calls made so far; script(clock) decides the next one. */
    var clock: nat
    const script: nat -> Choice

    constructor (script: nat -> Choice, nodes: seq<Node>)
      ensures State() == EMPTY_DB.(nodes := nodes) && clock == 0 && this.script == script
    {
      rows, apps, cmds, routes := map[], map[], map[], map[];
      this.nodes := nodes;
      born, lost, clock := {}, {}, 0;
      this.script := script;
    }

    function State(): Db
      reads this
    {
      Db(rows, apps, cmds, routes, nodes, born, lost)
    }

    /** The next call's outcome, as the protocol defines it. */
    function Expected(call: Call): Outcome
      reads this
    {
      Do(State(), call, script(clock))
    }

    method GetSandboxByAppName(app: string) returns (r: Reply)
      modifies this`clock
      ensures Outcome(State(), r) == old(Expected(GetByApp(app))) && clock == old(clock) + 1
    {
      if script(clock).fails {
        r := Err;
      } else if app in apps && apps[app] in rows {
        r := GotRow(apps[app], rows[apps[app]]);
      } else {
        r := NoRows;
      }
      clock := clock + 1;
    }

    method GetSandbox(id: SandboxId) returns (r: Reply)
      modifies this`clock
      ensures Outcome(State(), r) == old(Expected(Get(id))) && clock == old(clock) + 1
    {
      if script(clock).fails {
        r := Err;
      } else if id in rows {
        r := GotRow(id, rows[id]);
      } else {
        r := NoRows;
      }
      clock := clock + 1;
    }

    method DeleteSandbox(id: SandboxId) returns (r: Reply)
      modifies this`rows, this`apps, this`clock
      ensures Outcome(State(), r) == old(Expected(Delete(id))) && clock == old(clock) + 1
    {
      if script(clock).fails || exists c | c in cmds :: cmds[c].sandbox == id {
        r := Err;
      } else {
        if id in rows {
          apps := apps - {rows[id].app};
          rows := rows - {id};
        }
        r := Ok;
      }
      clock := clock + 1;
    }

    method CreateSandbox(id: SandboxId, app: string, memoryMB: int) returns (r: Reply)
      modifies this`rows, this`apps, this`born, this`clock
      ensures Outcome(State(), r) == old(Expected(Insert(id, app, memoryMB))) && clock == old(clock) + 1
    {
      if script(clock).fails || app in apps || id in born || id in rows {
        r := Err;
      } else {
        rows := rows[id := Row(app, memoryMB, None, None, None, Pending, 0, 0, [], [])];
        apps := apps[app := id];
        born := born + {id};
        r := GotRow(id, rows[id]);
      }
      clock := clock + 1;
    }

    /** The rows of the healthy nodes. */
    method ListHealthyNodes() returns (r: Reply)
      modifies this`clock
      ensures Outcome(State(), r) == old(Expected(ListHealthy)) && clock == old(clock) + 1
    {
      if script(clock).fails {
        r := Err;
      } else {
        var items: seq<Node> := [];
        var i := |nodes|;
        while i > 0
          invariant 0 <= i <= |nodes|
          invariant items == HealthyNodes(nodes[i..])
        {
          i := i - 1;
          assert nodes[i..][0] == nodes[i] && nodes[i..][1..] == nodes[i+1..];
          if nodes[i].status == Healthy {
            items := [nodes[i]] + items;
          }
        }
        assert nodes[0..] == nodes;
        r := GotNodes(items);
      }
      clock := clock + 1;
    }

    /** UPDATE ... SET state = to, state_version = state_version + 1 WHERE id AND state = from. */
    method TransitionSandboxState(id: SandboxId, from: State, to: State) returns (r: Reply)
      modifies this`rows, this`clock
      ensures Outcome(State(), r) == old(Expected(Cas(id, from, to))) && clock == old(clock) + 1
    {
      if script(clock).fails {
        r := Err;
      } else if id in rows && rows[id].state == from {
        rows := rows[id := rows[id].Move(to, ByHandler)];
        r := GotRow(id, rows[id]);
      } else {
        r := NoRows;
      }
      clock := clock + 1;
    }

    /** The assignment moves pending to starting, and clears the host port and the container id. */
    method AssignSandboxToNode(id: SandboxId, node: NodeId) returns (r: Reply)
      modifies this`rows, this`clock
      ensures Outcome(State(), r) == old(Expected(AssignTo(id, node))) && clock == old(clock) + 1
    {
      if script(clock).fails {
        r := Err;
      } else if id in rows && rows[id].state == Pending {
        var row := rows[id].Move(Starting, ByHandler);
        rows := rows[id := row.(node := Some(node), container := None, port := None)];
        r := GotRow(id, rows[id]);
      } else {
        r := NoRows;
      }
      clock := clock + 1;
    }

    method IncrementSandboxFailureCount(id: SandboxId) returns (r: Reply)
      modifies this`rows, this`clock
      ensures Outcome(State(), r) == old(Expected(Increment(id))) && clock == old(clock) + 1
    {
      if script(clock).fails {
        r := Err;
      } else if id in rows {
        rows := rows[id := rows[id].(failures := rows[id].failures + 1)];
        r := GotRow(id, rows[id]);
      } else {
        r := NoRows;
      }
      clock := clock + 1;
    }

    method ResetSandboxFailureCount(id: SandboxId) returns (r: Reply)
      modifies this`rows, this`clock
      ensures Outcome(State(), r) == old(Expected(ResetFailures(id))) && clock == old(clock) + 1
    {
      if script(clock).fails {
        r := Err;
      } else {
        if id in rows {
          rows := rows[id := rows[id].(failures := 0, restarts := [])];
        }
        r := Ok;
      }
      clock := clock + 1;
    }

    method UpdateSandboxRuntime(id: SandboxId, container: Option<string>, port: Option<int>) returns (r: Reply)
      modifies this`rows, this`clock
      ensures Outcome(State(), r) == old(Expected(SetRuntime(id, container, port))) && clock == old(clock) + 1
    {
      if script(clock).fails {
        r := Err;
      } else {
        if id in rows {
          rows := rows[id := rows[id].(container := container, port := port)];
        }
        r := Ok;
      }
      clock := clock + 1;
    }

    /** INSERT INTO commands. When it fails although the row still waits in the state it was just given,
        the row goes on record. */
    method CreateCommand(kind: CmdKind, id: SandboxId, node: Option<NodeId>, delay: nat,
                         entered: nat, goal: State) returns (r: Reply)
      modifies this`rows, this`cmds, this`lost, this`clock
      ensures r == old(Expected(Create(kind, id, node, delay, entered, goal))).reply
      ensures State() == if r.Err? && Waits(old(State()), id, entered, goal)
                         then old(State()).(lost := old(lost) + {id})
                         else old(Expected(Create(kind, id, node, delay, entered, goal))).db
      ensures delay == 0 ==> rows == old(rows)
      ensures clock == old(clock) + 1
    {
      var c := script(clock).cmd;
      ghost var expected := DoCreate(State(), c, kind, id, node, delay, entered, goal);
      assert Expected(Create(kind, id, node, delay, entered, goal))
             == if script(clock).fails then Outcome(State(), Err) else expected;
      if script(clock).fails || id !in rows || node.None? || c in cmds {
        r := Err;
        if Critical(goal) && id in rows && rows[id].version == entered && rows[id].state == goal {
          lost := lost + {id};
        }
      } else {
        cmds := cmds[c := Cmd(kind, node.value, id, Queued, delay, 60 + delay, entered, goal)];
        var row := rows[id];
        if delay > 0 {
          rows := rows[id := row.(restarts := row.restarts + [delay])];
        } else {
          assert rows[id := row] == rows;
        }
        r := Ok;
        assert State() == expected.db;
      }
      clock := clock + 1;
    }

    method AckCommand(c: CmdId, status: AckStatus) returns (r: Reply)
      modifies this`cmds, this`lost, this`clock
      ensures Outcome(State(), r) == old(Expected(Finish(c, status))) && clock == old(clock) + 1
    {
      if script(clock).fails {
        r := Err;
      } else {
        if c in cmds {
          cmds := cmds[c := cmds[c].(status := if status == AckFailure then Errored else Completed)];
          if BadAck(cmds[c].kind, status) {
            lost := lost + {cmds[c].sandbox};
          }
        }
        r := Ok;
      }
      clock := clock + 1;
    }

    method OnSandboxRunning(app: string, route: Route) returns (r: Reply)
      modifies this`routes, this`clock
      ensures Outcome(State(), r) == old(Expected(AddRoute(app, route))) && clock == old(clock) + 1
    {
      if script(clock).fails {
        r := Err;
      } else {
        routes := routes[app := route];
        r := Ok;
      }
      clock := clock + 1;
    }

    method OnSandboxStopped(app: string) returns (r: Reply)
      modifies this`routes, this`clock
      ensures Outcome(State(), r) == old(Expected(RemoveRoute(app))) && clock == old(clock) + 1
    {
      if script(clock).fails {
        r := Err;
      } else {
        routes := routes - {app};
        r := Ok;
      }
      clock := clock + 1;
    }

    /** The running rows of one node, each once. */
    method ListRunningSandboxesByNode(node: NodeId) returns (ok: bool, items: seq<(SandboxId, Row)>)
      modifies this`clock
      ensures State() == old(State()) && clock == old(clock) + 1
      ensures ok == !script(old(clock)).fails && (!ok ==> items == [])
      ensures ok ==> Lists(items, rows, Some(node))
    {
      if script(clock).fails {
        ok, items := false, [];
      } else {
        ok := true;
        items := ListRows(rows, Some(node));
      }
      clock := clock + 1;
    }

    /** The running rows among the idle ones, each once. */
    method ListIdleSandboxes(idle: set<SandboxId>) returns (ok: bool, items: seq<(SandboxId, Row)>)
      modifies this`clock
      ensures State() == old(State()) && clock == old(clock) + 1
      ensures ok == !script(old(clock)).fails && (!ok ==> items == [])
      ensures ok ==> Lists(items, map id | id in rows && id in idle :: rows[id], None)
    {
      if script(clock).fails {
        ok, items := false, [];
      } else {
        ok := true;
        items := ListRows(map id | id in rows && id in idle :: rows[id], None);
      }
      clock := clock + 1;
    }

    method ListNodes() returns (ok: bool, items: seq<Node>)
      modifies this`clock
      ensures State() == old(State()) && clock == old(clock) + 1
      ensures ok == !script(old(clock)).fails && items == if ok then nodes else []
    {
      ok := !script(clock).fails;
      items := if ok then nodes else [];
      clock := clock + 1;
    }

    /** The status the monitor writes is always unhealthy. */
    method MarkNodeUnhealthy(id: NodeId) returns (ok: bool)
      modifies this`nodes, this`clock
      ensures ok == !script(old(clock)).fails && clock == old(clock) + 1
      ensures nodes == if ok then Mark(old(nodes), id) else old(nodes)
      ensures forall i | 0 <= i < |nodes| ::
                nodes[i] == if ok && old(nodes)[i].id == id then old(nodes)[i].(status := Unhealthy) else old(nodes)[i]
    {
      MarkIs(nodes, id);
      ok := !script(clock).fails;
      if ok {
        nodes := Mark(nodes, id);
      }
      clock := clock + 1;
    }

    static method ListRows(pool: map<SandboxId, Row>, node: Option<NodeId>) returns (items: seq<(SandboxId, Row)>)
      ensures Lists(items, pool, node)
    {
      items := [];
      var todo := pool.Keys;
      while todo != {}
        invariant todo <= pool.Keys
        invariant forall i, j | 0 <= i < j < |items| :: items[i].0 != items[j].0
        invariant forall x | x in items :: x.0 in pool && x.0 !in todo && pool[x.0] == x.1 && Listed(x.1, node)
        invariant forall id | id in pool && id !in todo && Listed(pool[id], node) :: (id, pool[id]) in items
        decreases todo
      {
        var id :| id in todo;
        todo := todo - {id};
        if pool[id].state == Running && (node.None? || pool[id].node == node) {
          items := items + [(id, pool[id])];
        }
      }
    }
  }

  lemma {:induction false} MarkIs(nodes: seq<Node>, id: NodeId)
    ensures forall i | 0 <= i < |nodes| ::
              Mark(nodes, id)[i] == if nodes[i].id == id then nodes[i].(status := Unhealthy) else nodes[i]
  {
    if nodes != [] {
      MarkIs(nodes[1..], id);
    }
  }

  predicate Listed(row: Row, node: Option<NodeId>) {
    row.state == Running && (node.None? || row.node == node)
  }

  /** Exactly the running rows (of the node, when one is given), each once. */
  ghost predicate Lists(items: seq<(SandboxId, Row)>, rows: map<SandboxId, Row>, node: Option<NodeId>) {
    && (forall i, j | 0 <= i < j < |items| :: items[i].0 != items[j].0)
    && (forall x | x in items :: x.0 in rows && rows[x.0] == x.1 && Listed(x.1, node))
    && (forall id | id in rows && Listed(rows[id], node) :: (id, rows[id]) in items)
  }
}
