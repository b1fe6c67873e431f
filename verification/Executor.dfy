/** The agent's command executor (agent/internal/agent/executor.go). */
module Executor {
  import opened Wrappers
  import opened Ports

  type SandboxId = string
  type CmdId = string

  datatype CommandType = StartSandbox | StopSandbox | RestartSandbox | GetLogs | Prune | Unknown

  /** appName is None when the payload does not parse. */
  datatype Command = Command(id: CmdId, kind: CommandType, sandbox: SandboxId, appName: Option<string>,
                             issuedAt: int, timeout: int)

  datatype Info = Info(container: string, port: int, app: string)

  /** What Docker answers while one command is executed: its first and second call, and the new container's id. */
  datatype Docker = Docker(first: bool, second: bool, container: string)

  datatype AckStatus = AckSuccess | AckFailure

  datatype Ack = Ack(cmd: CmdId, status: AckStatus)

  /** The executor's memory. replaced counts the starts of a sandbox that was already tracked. */
  datatype Agent = Agent(sandboxes: map<SandboxId, Info>, pool: Pool, replaced: nat)

  function Tracked(sandboxes: map<SandboxId, Info>): set<int> { set s | s in sandboxes :: sandboxes[s].port }

  /** The ports that are in use without being held by a tracked sandbox. */
  function Leaked(a: Agent): set<int> { a.pool.inUse - Tracked(a.sandboxes) }

  ghost predicate DistinctPorts(sandboxes: map<SandboxId, Info>) {
    forall s, t | s in sandboxes && t in sandboxes && s != t :: sandboxes[s].port != sandboxes[t].port
  }

  /** Ports are partitioned, tracked sandboxes hold distinct allocated ports, and the allocated ports nobody holds
      are the ones replaced entries left behind. */
  ghost predicate AgentOk(a: Agent, range: set<int>) {
    && Partitions(a.pool, range)
    && DistinctPorts(a.sandboxes)
    && Tracked(a.sandboxes) <= a.pool.inUse
    && |Leaked(a)| == a.replaced
  }

  predicate Expired(cmd: Command, now: int) { cmd.timeout > 0 && now > cmd.issuedAt + cmd.timeout }

  function Start(a: Agent, sandbox: SandboxId, info: Info): Agent {
    Agent(a.sandboxes[sandbox := info], Pool(a.pool.available - {info.port}, a.pool.inUse + {info.port}),
          if sandbox in a.sandboxes then a.replaced + 1 else a.replaced)
  }

  function Stop(a: Agent, sandbox: SandboxId): Agent {
    if sandbox !in a.sandboxes then a
    else
      var port := a.sandboxes[sandbox].port;
      Agent(a.sandboxes - {sandbox}, Pool(a.pool.available + {port}, a.pool.inUse - {port}), a.replaced)
  }

  /** One command: whether it is acknowledged as a success, and what it does to the memory. */
  ghost predicate Executes(a: Agent, cmd: Command, now: int, d: Docker, status: AckStatus, a': Agent) {
    var parsed := cmd.appName.Some?;
    if Expired(cmd, now) then status == AckFailure && a' == a
    else match cmd.kind
      case StartSandbox =>
        if parsed && a.pool.available != {} && d.first
        then && status == AckSuccess
             && exists p | p in a.pool.available :: a' == Start(a, cmd.sandbox, Info(d.container, p, cmd.appName.value))
        else status == AckFailure && a' == a
      case StopSandbox =>
        if parsed && d.first && d.second then status == AckSuccess && a' == Stop(a, cmd.sandbox)
        else status == AckFailure && a' == a
      case RestartSandbox => a' == a && status == if parsed && d.first then AckSuccess else AckFailure
      case GetLogs => a' == a && status == if parsed && d.first && d.second then AckSuccess else AckFailure
      case Prune => a' == a && status == AckSuccess
      case Unknown => a' == a && status == AckFailure
  }

  // ---------------------------------------------------------------- port conservation

  lemma TrackedWith(sandboxes: map<SandboxId, Info>, s: SandboxId, info: Info)
    requires s !in sandboxes
    ensures Tracked(sandboxes[s := info]) == Tracked(sandboxes) + {info.port}
  {
    var after := sandboxes[s := info];
    forall p ensures p in Tracked(after) <==> p in Tracked(sandboxes) + {info.port} {
      if p in Tracked(sandboxes) {
        var t :| t in sandboxes && sandboxes[t].port == p;
        assert t in after && after[t].port == p;
      }
      if p == info.port {
        assert s in after && after[s].port == p;
      }
    }
  }

  lemma TrackedWithout(sandboxes: map<SandboxId, Info>, s: SandboxId)
    requires DistinctPorts(sandboxes) && s in sandboxes
    ensures Tracked(sandboxes - {s}) == Tracked(sandboxes) - {sandboxes[s].port}
    ensures sandboxes[s].port in Tracked(sandboxes)
  {
    var rest := sandboxes - {s};
    forall p ensures p in Tracked(rest) <==> p in Tracked(sandboxes) && p != sandboxes[s].port {
      if p in Tracked(sandboxes) && p != sandboxes[s].port {
        var t :| t in sandboxes && sandboxes[t].port == p;
        assert t in rest && rest[t].port == p;
      }
    }
  }

  lemma StartTracks(sandboxes: map<SandboxId, Info>, sandbox: SandboxId, info: Info)
    requires DistinctPorts(sandboxes)
    ensures var rest :=
              if sandbox in sandboxes then Tracked(sandboxes) - {sandboxes[sandbox].port} else Tracked(sandboxes);
            Tracked(sandboxes[sandbox := info]) == rest + {info.port}
  {
    assert sandboxes[sandbox := info] == (sandboxes - {sandbox})[sandbox := info];
    TrackedWith(sandboxes - {sandbox}, sandbox, info);
    if sandbox in sandboxes {
      TrackedWithout(sandboxes, sandbox);
    } else {
      assert sandboxes - {sandbox} == sandboxes;
    }
  }

  lemma StartDistinct(sandboxes: map<SandboxId, Info>, sandbox: SandboxId, info: Info)
    requires DistinctPorts(sandboxes) && info.port !in Tracked(sandboxes)
    ensures DistinctPorts(sandboxes[sandbox := info])
  {
  }

  lemma TakePort(pool: Pool, port: int, range: set<int>)
    requires Partitions(pool, range) && port in pool.available
    ensures Partitions(Pool(pool.available - {port}, pool.inUse + {port}), range)
  {
  }

  lemma PortIsBack(pool: Pool, port: int, range: set<int>)
    requires Partitions(pool, range) && port in pool.available
    ensures var taken := Pool(pool.available - {port}, pool.inUse + {port});
            Partitions(taken, range) && Pool(taken.available + {port}, taken.inUse - {port}) == pool
  {
    TakePort(pool, port, range);
    assert pool.available - {port} + {port} == pool.available;
    assert pool.inUse + {port} - {port} == pool.inUse;
  }

  lemma HoldOneMore(inUse: set<int>, held: set<int>, port: int)
    requires held <= inUse && port !in inUse
    ensures held + {port} <= inUse + {port} && (inUse + {port}) - (held + {port}) == inUse - held
  {
  }

  lemma HoldInstead(inUse: set<int>, held: set<int>, lost: int, port: int)
    requires held <= inUse && port !in inUse && lost in held
    ensures held - {lost} + {port} <= inUse + {port}
    ensures (inUse + {port}) - (held - {lost} + {port}) == (inUse - held) + {lost}
  {
  }

  lemma StartKeeps(a: Agent, sandbox: SandboxId, info: Info, range: set<int>)
    requires AgentOk(a, range) && info.port in a.pool.available
    ensures AgentOk(Start(a, sandbox, info), range)
    ensures Leaked(Start(a, sandbox, info))
            == if sandbox in a.sandboxes then Leaked(a) + {a.sandboxes[sandbox].port} else Leaked(a)
  {
    TakePort(a.pool, info.port, range);
    StartDistinct(a.sandboxes, sandbox, info);
    StartTracks(a.sandboxes, sandbox, info);
    if sandbox in a.sandboxes {
      TrackedWithout(a.sandboxes, sandbox);
      HoldInstead(a.pool.inUse, Tracked(a.sandboxes), a.sandboxes[sandbox].port, info.port);
    } else {
      HoldOneMore(a.pool.inUse, Tracked(a.sandboxes), info.port);
    }
  }

  lemma StartExecutes(a: Agent, cmd: Command, now: int, d: Docker, port: int)
    requires !Expired(cmd, now) && cmd.kind.StartSandbox? && cmd.appName.Some? && d.first && port in a.pool.available
    ensures Executes(a, cmd, now, d, AckSuccess, Start(a, cmd.sandbox, Info(d.container, port, cmd.appName.value)))
  {
  }

  lemma StartIsOk(a: Agent, cmd: Command, now: int, d: Docker, port: int, range: set<int>)
    requires AgentOk(a, range) && port in a.pool.available
    requires !Expired(cmd, now) && cmd.kind.StartSandbox? && cmd.appName.Some? && d.first
    ensures var a' := Start(a, cmd.sandbox, Info(d.container, port, cmd.appName.value));
            AgentOk(a', range) && Executes(a, cmd, now, d, AckSuccess, a')
  {
    StartExecutes(a, cmd, now, d, port);
    StartKeeps(a, cmd.sandbox, Info(d.container, port, cmd.appName.value), range);
  }

  lemma StopKeeps(a: Agent, sandbox: SandboxId, range: set<int>)
    requires AgentOk(a, range)
    ensures AgentOk(Stop(a, sandbox), range)
  {
    if sandbox in a.sandboxes {
      TrackedWithout(a.sandboxes, sandbox);
      var a' := Stop(a, sandbox);
      assert a'.pool.inUse - Tracked(a'.sandboxes) == a.pool.inUse - Tracked(a.sandboxes);
    }
  }

  lemma ExecutesKeeps(a: Agent, cmd: Command, now: int, d: Docker, status: AckStatus, a': Agent, range: set<int>)
    requires AgentOk(a, range) && Executes(a, cmd, now, d, status, a')
    ensures AgentOk(a', range)
  {
    if a' != a {
      if cmd.kind.StartSandbox? {
        var p :| p in a.pool.available && a' == Start(a, cmd.sandbox, Info(d.container, p, cmd.appName.value));
        StartKeeps(a, cmd.sandbox, Info(d.container, p, cmd.appName.value), range);
      } else {
        StopKeeps(a, cmd.sandbox, range);
      }
    }
  }

  lemma {:induction false} TrackedCount(sandboxes: map<SandboxId, Info>)
    requires DistinctPorts(sandboxes)
    ensures |Tracked(sandboxes)| == |sandboxes|
    decreases |sandboxes|
  {
    if sandboxes != map[] {
      var s :| s in sandboxes;
      TrackedWithout(sandboxes, s);
      var rest := sandboxes - {s};
      assert sandboxes.Keys == rest.Keys + {s};
      TrackedCount(rest);
    }
  }

  /** Ports in use are the tracked sandboxes and the starts that replaced one; the counters add up to the range. */
  lemma PortsAreConserved(a: Agent, range: set<int>)
    requires AgentOk(a, range)
    ensures |a.pool.inUse| == |a.sandboxes| + a.replaced
    ensures |a.pool.inUse| + |a.pool.available| == |range|
  {
    TrackedCount(a.sandboxes);
    var held := Tracked(a.sandboxes);
    assert a.pool.inUse == held + (a.pool.inUse - held);
    CountsAddUp(a.pool, range);
  }

  // ---------------------------------------------------------------- what a command amounts to

  /** A command is acknowledged as a success exactly when it is in time, its payload parses where one is needed, and
      Docker did what it needs; a refused command changes nothing, and only starts and stops change anything. */
  lemma SucceedsIff(a: Agent, cmd: Command, now: int, d: Docker, status: AckStatus, a': Agent)
    requires Executes(a, cmd, now, d, status, a')
    ensures status == AckSuccess
            <==> (cmd.timeout <= 0 || now - cmd.issuedAt <= cmd.timeout)
                 && match cmd.kind
                    case StartSandbox => cmd.appName.Some? && a.pool.available != {} && d.first
                    case StopSandbox => cmd.appName.Some? && d.first && d.second
                    case RestartSandbox => cmd.appName.Some? && d.first
                    case GetLogs => cmd.appName.Some? && d.first && d.second
                    case Prune => true
                    case Unknown => false
    ensures status == AckFailure || (cmd.kind != StartSandbox && cmd.kind != StopSandbox) ==> a' == a
  {
  }

  /** A start that succeeds has the sandbox tracked, with its container and a port that was available and is in use now;
      no other sandbox and no other port changes. */
  lemma StartHolds(a: Agent, cmd: Command, now: int, d: Docker, a': Agent, range: set<int>)
    requires AgentOk(a, range) && cmd.kind.StartSandbox? && Executes(a, cmd, now, d, AckSuccess, a')
    ensures cmd.sandbox in a'.sandboxes
    ensures var info := a'.sandboxes[cmd.sandbox];
            && info.container == d.container && cmd.appName == Some(info.app)
            && info.port in a.pool.available && info.port in range && info.port !in Tracked(a.sandboxes)
            && a'.pool == Pool(a.pool.available - {info.port}, a.pool.inUse + {info.port})
            && a'.sandboxes == a.sandboxes[cmd.sandbox := info]
  {
    var p :| p in a.pool.available && a' == Start(a, cmd.sandbox, Info(d.container, p, cmd.appName.value));
  }

  /** A stop that succeeds has the sandbox forgotten and its port available again; no other sandbox and no other port
      changes. */
  lemma StopReleases(a: Agent, cmd: Command, now: int, d: Docker, a': Agent, range: set<int>)
    requires AgentOk(a, range) && cmd.kind.StopSandbox? && Executes(a, cmd, now, d, AckSuccess, a')
    ensures cmd.sandbox !in a'.sandboxes && a'.sandboxes == a.sandboxes - {cmd.sandbox}
    ensures if cmd.sandbox !in a.sandboxes then a' == a
            else var port := a.sandboxes[cmd.sandbox].port;
              && port in a.pool.inUse && port !in a.pool.available
              && a'.pool == Pool(a.pool.available + {port}, a.pool.inUse - {port})
  {
    if cmd.sandbox in a.sandboxes {
      assert a.sandboxes[cmd.sandbox].port in Tracked(a.sandboxes);
    } else {
      assert a.sandboxes - {cmd.sandbox} == a.sandboxes;
    }
  }

  // ---------------------------------------------------------------- runs

  /** One executed command, its time and Docker's answers. */
  datatype Turn = Turn(cmd: Command, now: int, docker: Docker)

  /** trace[i] is the memory before turn i, acks the acknowledgements sent. */
  ghost predicate IsRun(trace: seq<Agent>, turns: seq<Turn>, acks: seq<Ack>) {
    && |trace| == |turns| + 1 && |acks| == |turns|
    && (forall i | 0 <= i < |turns| :: Answers(trace[i], turns[i], acks[i], trace[i + 1]))
  }

  predicate IsNew(a: Agent, range: set<int>) { a == Agent(map[], Pool(range, {}), 0) }

  /** For any commands and any answers of Docker: ports stay conserved after every command. */
  lemma {:induction false} RunConservesPorts(trace: seq<Agent>, turns: seq<Turn>, acks: seq<Ack>, range: set<int>,
                                             i: nat)
    requires IsRun(trace, turns, acks) && IsNew(trace[0], range) && i < |trace|
    ensures AgentOk(trace[i], range)
    ensures |trace[i].pool.inUse| == |trace[i].sandboxes| + trace[i].replaced
    decreases i
  {
    if i == 0 {
      assert AgentOk(trace[0], range);
    } else {
      RunConservesPorts(trace, turns, acks, range, i - 1);
      var turn := turns[i - 1];
      ExecutesKeeps(trace[i - 1], turn.cmd, turn.now, turn.docker, acks[i - 1].status, trace[i], range);
    }
    PortsAreConserved(trace[i], range);
  }

  /** A start that gets as far as a container: it is in time, its payload parses, a port is free and Docker creates the
      container. */
  predicate Starts(a: Agent, cmd: Command, now: int, d: Docker) {
    !Expired(cmd, now) && cmd.kind.StartSandbox? && cmd.appName.Some? && a.pool.available != {} && d.first
  }

  /** A port is lost exactly when such a start is for a sandbox that is already tracked; it is the one that sandbox
      held. */
  lemma LeaksIffStartReplaces(a: Agent, cmd: Command, now: int, d: Docker, status: AckStatus, a': Agent,
                              range: set<int>)
    requires AgentOk(a, range) && Executes(a, cmd, now, d, status, a')
    ensures Leaked(a') != Leaked(a) <==> Starts(a, cmd, now, d) && cmd.sandbox in a.sandboxes
    ensures Starts(a, cmd, now, d) && cmd.sandbox in a.sandboxes ==>
              a.sandboxes[cmd.sandbox].port !in Leaked(a)
              && Leaked(a') == Leaked(a) + {a.sandboxes[cmd.sandbox].port}
  {
    if Starts(a, cmd, now, d) {
      var p :| p in a.pool.available && a' == Start(a, cmd.sandbox, Info(d.container, p, cmd.appName.value));
      StartKeeps(a, cmd.sandbox, Info(d.container, p, cmd.appName.value), range);
      if cmd.sandbox in a.sandboxes {
        TrackedWithout(a.sandboxes, cmd.sandbox);
        assert a.sandboxes[cmd.sandbox].port in Leaked(a');
      }
    } else if a' != a {
      TrackedWithout(a.sandboxes, cmd.sandbox);
    }
  }

  // ---------------------------------------------------------------- the executor itself

  class CommandExecutor {
    const ports: Allocator
    ghost const range: set<int>
    var sandboxes: map<SandboxId, Info>
    /** Acknowledgements sent, oldest first. */
    var acks: seq<Ack>
    var replaced: nat
    /** Release calls that returned an error, which are only logged. */
    var releaseErrors: int

    function Memory(): Agent
      reads this, ports
    {
      Agent(sandboxes, ports.State(), replaced)
    }

    ghost predicate Valid()
      reads this, ports
    {
      range == Range(ports.min, ports.max) && AgentOk(Memory(), range) && releaseErrors == 0
    }

    constructor (ports: Allocator)
      requires ports.Valid() && ports.inUse == {}
      ensures Valid() && this.ports == ports && sandboxes == map[] && acks == []
    {
      this.ports := ports;
      range := Range(ports.min, ports.max);
      sandboxes, acks, replaced, releaseErrors := map[], [], 0, 0;
    }

    /** Every branch sends exactly one acknowledgement. */
    method Execute(cmd: Command, now: int, docker: Docker)
      requires Valid()
      modifies this, ports
      ensures Valid()
      ensures |acks| == |old(acks)| + 1 && acks[..|old(acks)|] == old(acks) && acks[|old(acks)|].cmd == cmd.id
      ensures Executes(old(Memory()), cmd, now, docker, acks[|old(acks)|].status, Memory())
    {
      if cmd.timeout > 0 {
        var deadline := cmd.issuedAt + cmd.timeout;
        if now > deadline {
          AckWith(cmd.id, AckFailure);
          return;
        }
      }
      match cmd.kind {
        case StartSandbox => ExecuteStartSandbox(cmd, now, docker);
        case StopSandbox => ExecuteStopSandbox(cmd, now, docker);
        case RestartSandbox =>
          AckWith(cmd.id, if cmd.appName.Some? && docker.first then AckSuccess else AckFailure);
        case GetLogs =>
          AckWith(cmd.id, if cmd.appName.Some? && docker.first && docker.second then AckSuccess else AckFailure);
        case Prune => AckWith(cmd.id, AckSuccess);
        case Unknown => AckWith(cmd.id, AckFailure);
      }
    }

    method AckWith(id: CmdId, status: AckStatus)
      modifies this`acks
      ensures acks == old(acks) + [Ack(id, status)]
    {
      acks := acks + [Ack(id, status)];
    }

    method ExecuteStartSandbox(cmd: Command, now: int, docker: Docker)
      requires Valid() && cmd.kind.StartSandbox? && !Expired(cmd, now)
      modifies this, ports
      ensures Valid()
      ensures |acks| == |old(acks)| + 1 && acks[..|old(acks)|] == old(acks) && acks[|old(acks)|].cmd == cmd.id
      ensures Executes(old(Memory()), cmd, now, docker, acks[|old(acks)|].status, Memory())
    {
      if cmd.appName.None? {
        AckWith(cmd.id, AckFailure);
        return;
      }
      var hostPort := ports.Allocate();
      if hostPort.Failure? {
        AckWith(cmd.id, AckFailure);
        return;
      }
      StartOn(cmd, now, docker, hostPort.value, old(Memory()));
    }

    /** port has just been taken from the pool. */
    method StartOn(cmd: Command, now: int, docker: Docker, port: int, ghost before: Agent)
      requires cmd.kind.StartSandbox? && !Expired(cmd, now) && cmd.appName.Some?
      requires AgentOk(before, range) && port in before.pool.available
      requires range == Range(ports.min, ports.max) && releaseErrors == 0
      requires Memory() == before.(pool := Pool(before.pool.available - {port}, before.pool.inUse + {port}))
      modifies this, ports
      ensures Valid()
      ensures |acks| == |old(acks)| + 1 && acks[..|old(acks)|] == old(acks) && acks[|old(acks)|].cmd == cmd.id
      ensures Executes(before, cmd, now, docker, acks[|old(acks)|].status, Memory())
    {
      if docker.first {
        StartIsOk(before, cmd, now, docker, port, range);
      }
      CreateContainer(cmd, now, docker, port, before);
    }

    method CreateContainer(cmd: Command, now: int, docker: Docker, port: int, ghost before: Agent)
      requires cmd.kind.StartSandbox? && !Expired(cmd, now) && cmd.appName.Some?
      requires Partitions(before.pool, Range(ports.min, ports.max)) && port in before.pool.available
      requires Memory() == before.(pool := Pool(before.pool.available - {port}, before.pool.inUse + {port}))
      modifies this, ports
      ensures releaseErrors == old(releaseErrors)
      ensures acks == old(acks) + [Ack(cmd.id, if docker.first then AckSuccess else AckFailure)]
      ensures Memory() == if docker.first
                          then Start(before, cmd.sandbox, Info(docker.container, port, cmd.appName.value)) else before
    {
      if docker.first {
        Track(cmd.sandbox, Info(docker.container, port, cmd.appName.value));
        assert Memory() == Start(before, cmd.sandbox, Info(docker.container, port, cmd.appName.value));
        AckWith(cmd.id, AckSuccess);
      } else {
        PortIsBack(before.pool, port, Range(ports.min, ports.max));
        GiveBack(port);
        assert Memory() == before;
        AckWith(cmd.id, AckFailure);
      }
    }

    /** Roll-back after a container could not be created. */
    method GiveBack(port: int)
      requires ports.Valid() && port in ports.inUse
      modifies this`releaseErrors, ports
      ensures ports.State() == Pool(old(ports.available) + {port}, old(ports.inUse) - {port})
      ensures releaseErrors == old(releaseErrors)
    {
      var released := ports.Release(port);
      releaseErrors := if released.Failure? then releaseErrors + 1 else releaseErrors;
    }

    /** An entry that is already there is replaced; its port is not released. */
    method Track(sandbox: SandboxId, info: Info)
      modifies this`sandboxes, this`replaced
      ensures sandboxes == old(sandboxes)[sandbox := info]
      ensures replaced == if sandbox in old(sandboxes) then old(replaced) + 1 else old(replaced)
    {
      if sandbox in sandboxes {
        replaced := replaced + 1;
      }
      sandboxes := sandboxes[sandbox := info];
    }

    method ExecuteStopSandbox(cmd: Command, now: int, docker: Docker)
      requires Valid() && cmd.kind.StopSandbox? && !Expired(cmd, now)
      modifies this, ports
      ensures Valid()
      ensures |acks| == |old(acks)| + 1 && acks[..|old(acks)|] == old(acks) && acks[|old(acks)|].cmd == cmd.id
      ensures Executes(old(Memory()), cmd, now, docker, acks[|old(acks)|].status, Memory())
    {
      if cmd.appName.None? || !docker.first || !docker.second {
        AckWith(cmd.id, AckFailure);
        return;
      }
      StopKeeps(Memory(), cmd.sandbox, range);
      Untrack(cmd.sandbox);
      AckWith(cmd.id, AckSuccess);
    }

    /** The release of a tracked sandbox's port cannot fail. */
    method Untrack(sandbox: SandboxId)
      requires Valid()
      modifies this`sandboxes, this`releaseErrors, ports
      ensures Memory() == Stop(old(Memory()), sandbox) && releaseErrors == 0
    {
      if sandbox in sandboxes {
        assert sandboxes[sandbox].port in Tracked(sandboxes);
        var released := ports.Release(sandboxes[sandbox].port);
        releaseErrors := if released.Failure? then releaseErrors + 1 else releaseErrors;
        sandboxes := sandboxes - {sandbox};
      }
    }

    /** Commands are executed one at a time, in the order they were received. */
    method ExecuteAll(turns: seq<Turn>) returns (ghost trace: seq<Agent>)
      requires Valid()
      modifies this, ports
      ensures Valid()
      ensures |acks| == |old(acks)| + |turns| && acks[..|old(acks)|] == old(acks)
      ensures IsRun(trace, turns, acks[|old(acks)|..])
      ensures trace[0] == old(Memory()) && trace[|turns|] == Memory()
    {
      trace := [Memory()];
      ghost var sent := |acks|;
      for i := 0 to |turns|
        invariant Valid()
        invariant sent <= |acks| && acks[..sent] == old(acks)
        invariant Ran(trace, turns, i, acks, sent)
        invariant trace[0] == old(Memory()) && trace[i] == Memory()
      {
        trace := ExecuteNext(turns, i, trace, sent);
      }
      RanIsARun(trace, turns, acks, sent);
    }

    /** One iteration. */
    method ExecuteNext(turns: seq<Turn>, i: nat, ghost trace: seq<Agent>, ghost sent: nat)
      returns (ghost trace': seq<Agent>)
      requires Valid() && i < |turns| && Ran(trace, turns, i, acks, sent) && trace[i] == Memory()
      modifies this, ports
      ensures Valid() && Ran(trace', turns, i + 1, acks, sent) && trace' == trace + [Memory()]
      ensures acks[..|old(acks)|] == old(acks)
    {
      ghost var before := acks;
      Execute(turns[i].cmd, turns[i].now, turns[i].docker);
      trace' := trace + [Memory()];
      RanOneMore(trace, turns, i, before, acks, sent, Memory());
    }
  }

  /** The first n turns have been executed, and acknowledged from position sent on. */
  ghost predicate Ran(trace: seq<Agent>, turns: seq<Turn>, n: nat, acks: seq<Ack>, sent: nat) {
    && n <= |turns| && |trace| == n + 1 && |acks| == sent + n
    && (forall i | 0 <= i < n :: Answers(trace[i], turns[i], acks[sent + i], trace[i + 1]))
  }

  ghost predicate Answers(a: Agent, turn: Turn, ack: Ack, a': Agent) {
    ack.cmd == turn.cmd.id && Executes(a, turn.cmd, turn.now, turn.docker, ack.status, a')
  }

  lemma RanOneMore(trace: seq<Agent>, turns: seq<Turn>, n: nat, before: seq<Ack>, acks: seq<Ack>, sent: nat, a: Agent)
    requires Ran(trace, turns, n, before, sent) && n < |turns|
    requires |acks| == |before| + 1 && acks[..|before|] == before && Answers(trace[n], turns[n], acks[|before|], a)
    ensures Ran(trace + [a], turns, n + 1, acks, sent)
  {
    var trace' := trace + [a];
    forall i | 0 <= i < n + 1 ensures Answers(trace'[i], turns[i], acks[sent + i], trace'[i + 1]) {
      if i < n {
        assert acks[sent + i] == acks[..|before|][sent + i] == before[sent + i];
        assert trace'[i] == trace[i] && trace'[i + 1] == trace[i + 1];
      }
    }
  }

  lemma RanIsARun(trace: seq<Agent>, turns: seq<Turn>, acks: seq<Ack>, sent: nat)
    requires Ran(trace, turns, |turns|, acks, sent)
    ensures IsRun(trace, turns, acks[sent..])
  {
    forall i | 0 <= i < |turns| ensures Answers(trace[i], turns[i], acks[sent..][i], trace[i + 1]) {
      assert acks[sent..][i] == acks[sent + i];
    }
  }
}
