/**
 The handlers of the control plane as they are written, working on the store in place. Each is proved to
 leave the database exactly as driving its step machine does, so what holds of every run of the step
 machines holds of these.
 */
module Handlers {
  import opened Wrappers
  import opened Models
  import opened Scheduler
  import opened Protocol
  import opened Atomic
  import opened Store
  import EventOutcome
  import RequestOutcome

  datatype HandlerError =
    | Conflict | NoCapacity | NotFound | InvalidTransition | InvalidState | StoreError

  type HandlerResult = Result<(), HandlerError>

  /** A queued command for sandbox id was added and nothing else changed among the commands. */
  ghost predicate Issued(before: map<CmdId, Cmd>, after: map<CmdId, Cmd>, kind: CmdKind, id: SandboxId) {
    exists c | c in after ::
      && c !in before && after == before[c := after[c]]
      && after[c].kind == kind && after[c].sandbox == id && after[c].status == Queued
  }

  /** A handler that reports success issued its command, and one that reports an error issued none. */
  ghost predicate Issues(success: bool, before: map<CmdId, Cmd>, after: map<CmdId, Cmd>, kind: CmdKind, id: SandboxId) {
    if success then Issued(before, after, kind, id) else after == before
  }

  /** The kinds of container events an agent reports. */
  datatype Reported = ContainerStarted | ContainerExited | ContainerOOM | OtherReport

  function EventOf(kind: Reported): Option<Event> {
    match kind
    case ContainerStarted => Some(EvStarted)
    case ContainerExited => Some(EvContainerExited)
    case ContainerOOM => Some(EvContainerExited)
    case OtherReport => None
  }

  class ControlPlane {
    const store: ControlStore

    constructor (store: ControlStore)
      ensures this.store == store
    {
      this.store := store;
    }

    /** The database and the clock. */
    function Now(): Driven
      reads store
    {
      Driven(store.State(), store.clock)
    }

    /** Where driving handler pc from here ends. */
    function Driving(pc: Pc): Driven
      reads store
    {
      Drive(store.State(), pc, store.script, store.clock)
    }

    // -------------------------------------------------------------- CreateSandbox

    method CreateSandbox(app: string, memoryMB: int, id: SandboxId) returns (r: HandlerResult)
      modifies store
      ensures Now() == old(Driving(InCreate(CreateLookup(app, memoryMB, id))))
      ensures Issues(r.Success?, old(store.cmds), store.cmds, StartCmd, id)
    {
      DriveOnce(store.State(), InCreate(CreateLookup(app, memoryMB, id)), store.script, store.clock);
      var existing := store.GetSandboxByAppName(app);
      if existing.GotRow? {
        if existing.row.state == Destroyed || existing.row.state == Failed {
          r := ReplaceSandbox(app, memoryMB, id, existing.id);
        } else {
          r := Failure(Conflict);
        }
      } else if existing.NoRows? {
        r := InsertSandbox(app, memoryMB, id);
      } else {
        r := Failure(StoreError);
      }
    }

    /** The app name is taken by a destroyed or failed row: delete it first. */
    method ReplaceSandbox(app: string, memoryMB: int, id: SandboxId, prior: SandboxId) returns (r: HandlerResult)
      modifies store
      ensures Now() == old(Driving(InCreate(CreateDelete(app, memoryMB, id, prior))))
      ensures Issues(r.Success?, old(store.cmds), store.cmds, StartCmd, id)
    {
      DriveOnce(store.State(), InCreate(CreateDelete(app, memoryMB, id, prior)), store.script, store.clock);
      var deleted := store.DeleteSandbox(prior);
      if !deleted.Ok? { return Failure(StoreError); }
      r := InsertSandbox(app, memoryMB, id);
    }

    method InsertSandbox(app: string, memoryMB: int, id: SandboxId) returns (r: HandlerResult)
      modifies store
      ensures Now() == old(Driving(InCreate(CreateInsert(app, memoryMB, id))))
      ensures Issues(r.Success?, old(store.cmds), store.cmds, StartCmd, id)
    {
      DriveOnce(store.State(), InCreate(CreateInsert(app, memoryMB, id)), store.script, store.clock);
      var failed := store.script(store.clock).fails;
      var inserted := store.CreateSandbox(id, app, memoryMB);
      // the error's text says whether it was the unique index
      if !inserted.GotRow? { return Failure(if failed then StoreError else Conflict); }
      r := PlaceSandbox(id, if memoryMB == 0 then 512 else memoryMB);
    }

    method PlaceSandbox(id: SandboxId, need: int) returns (r: HandlerResult)
      modifies store
      ensures Now() == old(Driving(InCreate(CreatePlace(id, need))))
      ensures Issues(r.Success?, old(store.cmds), store.cmds, StartCmd, id)
    {
      DriveOnce(store.State(), InCreate(CreatePlace(id, need)), store.script, store.clock);
      var healthy := store.ListHealthyNodes();
      if !healthy.GotNodes? { return Failure(StoreError); }
      var target := Schedule(healthy.nodes, need);
      if target.Failure? { return Failure(NoCapacity); }
      r := AssignAndIssue(id, target.value);
    }

    /** The tail CreateSandbox and the rescheduler share. */
    method AssignAndIssue(id: SandboxId, target: NodeId) returns (r: HandlerResult)
      modifies store
      ensures Now() == old(Driving(Assign(id, target)))
      ensures Issues(r.Success?, old(store.cmds), store.cmds, StartCmd, id)
    {
      DriveOnce(store.State(), Assign(id, target), store.script, store.clock);
      var placed := store.AssignSandboxToNode(id, target);
      if !placed.GotRow? { return Failure(StoreError); }
      r := IssueCommand(StartCmd, id, Some(target), 0, placed.row.version, Starting);
    }

    method IssueCommand(kind: CmdKind, id: SandboxId, node: Option<NodeId>, delay: nat, entered: nat, goal: State)
      returns (r: HandlerResult)
      modifies store
      ensures Now() == old(Driving(Issue(kind, id, node, delay, entered, goal, None)))
      ensures Issues(r.Success?, old(store.cmds), store.cmds, kind, id)
      ensures r == if id in old(store.rows)
                      && RequestOutcome.CanIssue(old(store.State()), node, store.script(old(store.clock)))
                   then Success(()) else Failure(StoreError)
    {
      DriveOnce(store.State(), Issue(kind, id, node, delay, entered, goal, None), store.script, store.clock);
      var issued := store.CreateCommand(kind, id, node, delay, entered, goal);
      r := if issued.Err? then Failure(StoreError) else Success(());
    }

    // -------------------------------------------------------------- HandleAck

    /** The result of a handler whose last call decides it. */
    function Ended(): HandlerResult
      requires store.clock > 0
      reads store
    {
      if store.script(store.clock - 1).fails then Failure(StoreError) else Success(())
    }

    /** The states an acknowledgement is not refused in. */
    predicate Allowed(kind: CmdKind, status: AckStatus, state: State) {
      kind == StartCmd ==>
        && (status == AckSuccess ==> state == Starting || state == Failed || state == Running)
        && (status == AckFailure ==> state == Starting || state == Failed)
    }

    method HandleAck(cmd: CmdId, id: SandboxId, kind: CmdKind, status: AckStatus, info: Runtime)
      returns (r: HandlerResult)
      modifies store
      ensures Now() == old(Driving(InAck(AckRead(cmd, id, kind, status, info))))
      ensures r.Success? && cmd in store.cmds ==> !store.cmds[cmd].Unacked()
      ensures store.clock > old(store.clock)
      ensures r == if store.script(old(store.clock)).fails || id !in old(store.rows) then Failure(NotFound)
                   else if !Allowed(kind, status, old(store.rows)[id].state) then Failure(InvalidTransition)
                   else Ended()
    {
      ghost var before, k := store.State(), store.clock;
      DriveOnce(before, InAck(AckRead(cmd, id, kind, status, info)), store.script, k);
      var got := store.GetSandbox(id);
      if got.GotRow? {
        r := AckRow(cmd, id, kind, status, got.row, info);
      } else {
        r := Failure(NotFound);
      }
    }

    /** sandbox is the row as it was read. */
    method AckRow(cmd: CmdId, id: SandboxId, kind: CmdKind, status: AckStatus, sandbox: Row, info: Runtime)
      returns (r: HandlerResult)
      modifies store
      ensures var next := AckResume(AckRead(cmd, id, kind, status, info), GotRow(id, sandbox));
              Now() == if next.Some? then old(Driving(InAck(next.value))) else old(Now())
      ensures r.Success? && cmd in store.cmds ==> !store.cmds[cmd].Unacked()
      ensures store.clock >= old(store.clock)
      ensures id in old(store.rows) && old(store.rows)[id] == sandbox && old(store.clock) > 0 ==>
                r == if !Allowed(kind, status, sandbox.state) then Failure(InvalidTransition) else Ended()
    {
      var event := AckEvent(kind, status, sandbox.state);
      if event.None? {
        r := Acknowledge(cmd, id, status);
        return;
      }
      r := ApplyAck(cmd, id, sandbox, event.value, info);
    }

    /** An event the table does not allow is refused, unless the row is where the event would take it already. */
    method ApplyAck(cmd: CmdId, id: SandboxId, sandbox: Row, event: Event, info: Runtime) returns (r: HandlerResult)
      modifies store
      ensures var next := NextState(sandbox.state, event);
              Now() == if next.Some? then old(Driving(InAck(AckCas(cmd, id, sandbox, event, next.value, info))))
                       else if sandbox.state == Target(event) then
                         old(Driving(InAck(Settled(cmd, id, sandbox, event, info))))
                       else old(Now())
      ensures r.Success? && cmd in store.cmds ==> !store.cmds[cmd].Unacked()
      ensures store.clock >= old(store.clock)
      ensures NextState(sandbox.state, event).None? && sandbox.state != Target(event)
              ==> r == Failure(InvalidTransition)
      ensures (NextState(sandbox.state, event).Some? || sandbox.state == Target(event)) && id in old(store.rows)
              && old(store.rows)[id].state == sandbox.state
              ==> store.clock > 0 && r == Ended()
    {
      var next := NextState(sandbox.state, event);
      if next.None? {
        if sandbox.state != Target(event) { return Failure(InvalidTransition); }
        r := Settle(cmd, id, sandbox, event, info);
      } else {
        r := TransitionAndSettle(cmd, id, sandbox, event, next.value, info);
      }
    }

    /** The compare-and-swap, and a second look at the row after a miss. */
    method TransitionAndSettle(cmd: CmdId, id: SandboxId, sandbox: Row, event: Event, to: State, info: Runtime)
      returns (r: HandlerResult)
      modifies store
      ensures Now() == old(Driving(InAck(AckCas(cmd, id, sandbox, event, to, info))))
      ensures r.Success? && cmd in store.cmds ==> !store.cmds[cmd].Unacked()
      ensures store.clock > old(store.clock)
      ensures id in old(store.rows) && old(store.rows)[id].state == sandbox.state ==> r == Ended()
    {
      DriveOnce(store.State(), InAck(AckCas(cmd, id, sandbox, event, to, info)), store.script, store.clock);
      var moved := store.TransitionSandboxState(id, sandbox.state, to);
      if moved.GotRow? {
        r := Settle(cmd, id, sandbox, event, info);
      } else if moved.NoRows? {
        r := RefreshAndSettle(cmd, id, event, to, info);
      } else {
        r := Failure(StoreError);
      }
    }

    /** Somebody else moved the row: fine when it is where it should be. */
    method RefreshAndSettle(cmd: CmdId, id: SandboxId, event: Event, to: State, info: Runtime)
      returns (r: HandlerResult)
      modifies store
      ensures Now() == old(Driving(InAck(AckRefresh(cmd, id, event, to, info))))
      ensures r.Success? && cmd in store.cmds ==> !store.cmds[cmd].Unacked()
      ensures store.clock > old(store.clock)
    {
      DriveOnce(store.State(), InAck(AckRefresh(cmd, id, event, to, info)), store.script, store.clock);
      var refreshed := store.GetSandbox(id);
      if refreshed.GotRow? && (refreshed.row.state == to || refreshed.row.state == Target(event)) {
        r := Settle(cmd, id, refreshed.row, event, info);
      } else {
        r := Failure(StoreError);
      }
    }

    method Settle(cmd: CmdId, id: SandboxId, sandbox: Row, event: Event, info: Runtime) returns (r: HandlerResult)
      modifies store
      ensures Now() == old(Driving(InAck(Settled(cmd, id, sandbox, event, info))))
      ensures r.Success? && cmd in store.cmds ==> !store.cmds[cmd].Unacked()
      ensures store.clock > old(store.clock) && r == Ended()
    {
      match event {
        case EvStarted =>
          if info.container != "" || info.port != 0 {
            r := PersistAndAnnounce(cmd, id, sandbox, info);
          } else {
            r := Announce(cmd, id, sandbox);
          }
        case EvStartFailed =>
          r := Acknowledge(cmd, id, AckFailure);
        case _ =>
          r := RemoveAndAcknowledge(cmd, id, sandbox.app);
      }
    }

    /** A failing write is only logged. */
    method PersistAndAnnounce(cmd: CmdId, id: SandboxId, sandbox: Row, info: Runtime) returns (r: HandlerResult)
      modifies store
      ensures Now() == old(Driving(InAck(AckPersist(cmd, id, sandbox, info))))
      ensures r.Success? && cmd in store.cmds ==> !store.cmds[cmd].Unacked()
      ensures store.clock > old(store.clock) && r == Ended()
    {
      DriveOnce(store.State(), InAck(AckPersist(cmd, id, sandbox, info)), store.script, store.clock);
      var container := if info.container == "" then None else Some(info.container);
      var port := if info.port == 0 then None else Some(info.port);
      var persisted := store.UpdateSandboxRuntime(id, container, port);
      r := Announce(cmd, id, sandbox);
    }

    /** Re-read the row for its current node and port. */
    method Announce(cmd: CmdId, id: SandboxId, sandbox: Row) returns (r: HandlerResult)
      modifies store
      ensures Now() == old(Driving(InAck(AckRefetch(cmd, id, sandbox))))
      ensures r.Success? && cmd in store.cmds ==> !store.cmds[cmd].Unacked()
      ensures store.clock > old(store.clock) && r == Ended()
    {
      DriveOnce(store.State(), InAck(AckRefetch(cmd, id, sandbox)), store.script, store.clock);
      var refreshed := store.GetSandbox(id);
      r := NotifyRouteAdd(cmd, id, if refreshed.GotRow? then refreshed.row else sandbox);
    }

    method NotifyRouteAdd(cmd: CmdId, id: SandboxId, sandbox: Row) returns (r: HandlerResult)
      modifies store
      ensures Now() == old(Driving(InAck(AckRoute(cmd, id, sandbox))))
      ensures r.Success? && cmd in store.cmds ==> !store.cmds[cmd].Unacked()
      ensures store.clock > old(store.clock) && r == Ended()
    {
      DriveOnce(store.State(), InAck(AckRoute(cmd, id, sandbox)), store.script, store.clock);
      if sandbox.node.Some? && sandbox.port.Some? {
        var added := store.OnSandboxRunning(sandbox.app, Route(id, sandbox.node.value, sandbox.port.value));
      } else {
        var looked := store.GetSandbox(id);
      }
      r := ForgiveAndAcknowledge(cmd, id, sandbox);
    }

    method ForgiveAndAcknowledge(cmd: CmdId, id: SandboxId, sandbox: Row) returns (r: HandlerResult)
      modifies store
      ensures Now() == old(Driving(InAck(AfterRoute(cmd, id, sandbox))))
      ensures r.Success? && cmd in store.cmds ==> !store.cmds[cmd].Unacked()
      ensures store.clock > old(store.clock) && r == Ended()
    {
      if sandbox.failures > 0 {
        r := ResetAndAcknowledge(cmd, id);
      } else {
        r := Acknowledge(cmd, id, AckSuccess);
      }
    }

    method ResetAndAcknowledge(cmd: CmdId, id: SandboxId) returns (r: HandlerResult)
      modifies store
      ensures Now() == old(Driving(InAck(AckReset(cmd, id))))
      ensures r.Success? && cmd in store.cmds ==> !store.cmds[cmd].Unacked()
      ensures store.clock > old(store.clock) && r == Ended()
    {
      DriveOnce(store.State(), InAck(AckReset(cmd, id)), store.script, store.clock);
      var reset := store.ResetSandboxFailureCount(id);
      r := Acknowledge(cmd, id, AckSuccess);
    }

    method RemoveAndAcknowledge(cmd: CmdId, id: SandboxId, app: string) returns (r: HandlerResult)
      modifies store
      ensures Now() == old(Driving(InAck(AckUnroute(cmd, id, app))))
      ensures r.Success? && cmd in store.cmds ==> !store.cmds[cmd].Unacked()
      ensures store.clock > old(store.clock) && r == Ended()
    {
      DriveOnce(store.State(), InAck(AckUnroute(cmd, id, app)), store.script, store.clock);
      var removed := store.OnSandboxStopped(app);
      r := Acknowledge(cmd, id, AckSuccess);
    }

    method Acknowledge(cmd: CmdId, id: SandboxId, status: AckStatus) returns (r: HandlerResult)
      modifies store
      ensures Now() == old(Driving(InAck(AckFinish(cmd, id, status))))
      ensures r.Success? && cmd in store.cmds ==> !store.cmds[cmd].Unacked()
      ensures store.clock > old(store.clock) && r == Ended()
    {
      DriveOnce(store.State(), InAck(AckFinish(cmd, id, status)), store.script, store.clock);
      var acked := store.AckCommand(cmd, status);
      r := if acked.Err? then Failure(StoreError) else Success(());
    }

    // -------------------------------------------------------------- HandleEvent, HandleCrash

    method HandleEvent(id: SandboxId, kind: Reported) returns (r: HandlerResult)
      modifies store
      ensures Now() == if kind == OtherReport then old(Now()).(clock := old(store.clock) + 1)
                       else old(Driving(InEvent(EventRead(id, EventOf(kind).value))))
      ensures r == if store.script(old(store.clock)).fails || id !in old(store.rows) then Failure(NotFound)
                   else if kind != OtherReport
                     && EventOutcome.Heard(EventOf(kind).value, old(store.rows)[id].state).Some?
                           && store.script(old(store.clock) + 1).fails
                   then Failure(StoreError) else Success(())
    {
      ghost var before, k := store.State(), store.clock;
      if kind != OtherReport {
        DriveOnce(before, InEvent(EventRead(id, EventOf(kind).value)), store.script, k);
      }
      var got := store.GetSandbox(id);
      if !got.GotRow? {
        r := Failure(NotFound);
      } else if EventOf(kind).None? {
        r := Success(());
      } else {
        r := EventRow(id, got.row, EventOf(kind).value);
      }
    }

    /** sandbox is the row as it was read. An event the table does not allow is ignored. */
    method EventRow(id: SandboxId, sandbox: Row, event: Event) returns (r: HandlerResult)
      requires event == EvStarted || event == EvContainerExited
      modifies store
      ensures var next := EventResume(EventRead(id, event), GotRow(id, sandbox));
              Now() == if next.Some? then old(Driving(next.value)) else old(Now())
      ensures id in old(store.rows) && old(store.rows)[id] == sandbox ==>
                r == if EventOutcome.Heard(event, sandbox.state).Some? && store.script(old(store.clock)).fails
                     then Failure(StoreError) else Success(())
    {
      var next := NextState(sandbox.state, event);
      if next.None? { return Success(()); }
      r := ApplyEvent(id, sandbox, next.value);
    }

    method ApplyEvent(id: SandboxId, sandbox: Row, to: State) returns (r: HandlerResult)
      modifies store
      ensures Now() == old(Driving(InEvent(EventCas(id, sandbox, to))))
      ensures id in old(store.rows) && old(store.rows)[id].state == sandbox.state ==>
                r == if store.script(old(store.clock)).fails then Failure(StoreError) else Success(())
    {
      DriveOnce(store.State(), InEvent(EventCas(id, sandbox, to)), store.script, store.clock);
      var moved := store.TransitionSandboxState(id, sandbox.state, to);
      if !moved.GotRow? { return Failure(StoreError); }
      if to == Restarting {
        Recover(id, sandbox);
      }
      r := Success(());
    }

    /** Remove the route and call the restart manager; neither result is reported. */
    method Recover(id: SandboxId, sandbox: Row)
      modifies store
      ensures Now() == old(Driving(InEvent(EventUnroute(id, sandbox))))
    {
      ghost var before, k, d := store.State(), store.clock, Driving(InEvent(EventUnroute(id, sandbox)));
      var removed := store.OnSandboxStopped(sandbox.app);
      DriveStep(before, InEvent(EventUnroute(id, sandbox)), store.State(), InEvent(CrashIncrement(id, sandbox)),
                store.script, k, d, Driving(InEvent(CrashIncrement(id, sandbox))));
      var restart := HandleCrash(id, sandbox);
    }

    /** sandbox is the row as the event handler read it, before its own transition. */
    method HandleCrash(id: SandboxId, sandbox: Row) returns (restart: Option<nat>)
      modifies store
      ensures Now() == old(Driving(InEvent(CrashIncrement(id, sandbox))))
      ensures restart == if id !in old(store.rows) || store.script(old(store.clock)).fails then None
                         else Recovering(EventOutcome.Counted(old(store.State()), id), id, sandbox.node,
                                         old(store.rows)[id].failures + 1, old(store.clock) + 1)
      ensures Issues(restart.Some?, old(store.cmds), store.cmds, StartCmd, id)
    {
      ghost var before, k, d := store.State(), store.clock, Driving(InEvent(CrashIncrement(id, sandbox)));
      if id in before.rows && !store.script(k).fails {
        EventOutcome.CountGoes(before, id, sandbox, store.script(k));
      }
      var updated := store.IncrementSandboxFailureCount(id);
      if !updated.GotRow? {
        restart := None;
      } else {
        restart := RestartOrGiveUp(id, sandbox, updated.row.failures);
      }
      CrashDriven(before, id, sandbox, k, d);
    }

    /** The delay of the restart after the count-th failure, when it comes to one; its first call is the k-th. */
    function Recovering(db: Db, id: SandboxId, node: Option<NodeId>, count: nat, k: nat): Option<nat> {
      if count <= 3 && id in db.rows && db.rows[id].state == Restarting && !store.script(k).fails
         && RequestOutcome.CanIssue(db, node, store.script(k + 1))
      then Some(if count == 1 then 5 else if count == 2 then 10 else 20) else None
    }

    /** count is the row's failure count, this crash included. */
    method RestartOrGiveUp(id: SandboxId, sandbox: Row, count: nat) returns (restart: Option<nat>)
      requires count >= 1
      modifies store
      ensures Now() == if count > 3 then old(Driving(InEvent(CrashFail(id, sandbox))))
                       else old(Driving(InEvent(CrashRestart(id, sandbox, count))))
      ensures restart == Recovering(old(store.State()), id, sandbox.node, count, old(store.clock))
      ensures Issues(restart.Some?, old(store.cmds), store.cmds, StartCmd, id)
    {
      if count > MAX_RESTART_ATTEMPTS {
        GiveUp(id, sandbox);
        restart := None;
      } else {
        restart := ScheduleRestart(id, sandbox, count);
        DelaysAre(count);
      }
    }

    /** Where driving the handler from its first call ends is where driving it from its second does. */
    lemma CrashDriven(db: Db, id: SandboxId, sandbox: Row, k: nat, d: Driven)
      requires d == Drive(db, InEvent(CrashIncrement(id, sandbox)), store.script, k)
      ensures if id !in db.rows || store.script(k).fails then d == Driven(db, k + 1)
              else var count := db.rows[id].failures + 1;
                d == Drive(EventOutcome.Counted(db, id),
                           InEvent(if count > 3 then CrashFail(id, sandbox) else CrashRestart(id, sandbox, count)),
                           store.script, k + 1)
    {
      var pc := InEvent(CrashIncrement(id, sandbox));
      if id !in db.rows || store.script(k).fails {
        DriveEnds(db, pc, db, store.script, k, d);
      } else {
        EventOutcome.CountGoes(db, id, sandbox, store.script(k));
        var count := db.rows[id].failures + 1;
        var next := InEvent(if count > 3 then CrashFail(id, sandbox) else CrashRestart(id, sandbox, count));
        DriveStep(db, pc, EventOutcome.Counted(db, id), next, store.script, k, d,
                  Drive(EventOutcome.Counted(db, id), next, store.script, k + 1));
      }
    }

    static lemma DelaysAre(count: nat)
      requires 1 <= count <= MAX_RESTART_ATTEMPTS
      ensures RestartDelay(count) == if count == 1 then 5 else if count == 2 then 10 else 20
    {
      if count == 3 {
        assert RestartDelay(3) == 2 * RestartDelay(2);
      }
    }

    method GiveUp(id: SandboxId, sandbox: Row)
      modifies store
      ensures Now() == old(Driving(InEvent(CrashFail(id, sandbox)))) && store.cmds == old(store.cmds)
    {
      DriveOnce(store.State(), InEvent(CrashFail(id, sandbox)), store.script, store.clock);
      var failed := store.TransitionSandboxState(id, sandbox.state, Failed);
    }

    /** Restart with back-off, on the node of the stale row. */
    method ScheduleRestart(id: SandboxId, sandbox: Row, count: nat) returns (restart: Option<nat>)
      requires count >= 1
      modifies store
      ensures Now() == old(Driving(InEvent(CrashRestart(id, sandbox, count))))
      ensures restart == if id in old(store.rows) && old(store.rows)[id].state == Restarting
                            && !store.script(old(store.clock)).fails
                            && RequestOutcome.CanIssue(old(store.State()), sandbox.node,
                                                       store.script(old(store.clock) + 1))
                         then Some(RestartDelay(count)) else None
      ensures Issues(restart.Some?, old(store.cmds), store.cmds, StartCmd, id)
    {
      DriveOnce(store.State(), InEvent(CrashRestart(id, sandbox, count)), store.script, store.clock);
      var moved := store.TransitionSandboxState(id, Restarting, Starting);
      if !moved.GotRow? { return None; }
      var delay := RestartDelay(count);
      var issued := IssueCommand(StartCmd, id, sandbox.node, delay, moved.row.version, Starting);
      restart := if issued.Failure? then None else Some(delay);
    }

    // -------------------------------------------------------------- DestroySandbox, WakeSandbox, RestartSandbox

    method DestroySandbox(id: SandboxId) returns (r: HandlerResult)
      modifies store
      ensures Now() == old(Driving(InRequest(DestroyRead(id))))
      ensures Issues(r.Success?, old(store.cmds), store.cmds, StopCmd, id)
      ensures r == var db, k := old(store.State()), old(store.clock);
                   if store.script(k).fails || id !in db.rows then Failure(NotFound)
                   else Dooming(db, id, db.rows[id], k + 1)
    {
      ghost var before, k, d := store.State(), store.clock, Driving(InRequest(DestroyRead(id)));
      RequestOutcome.DestroyGoes(before, id, store.script, k, d);
      var got := store.GetSandbox(id);
      if got.GotRow? {
        r := DestroyRow(id, got.row);
      } else {
        r := Failure(NotFound);
      }
    }

    /** What becomes of a destroy request that has read this row. */
    function Dooming(db: Db, id: SandboxId, sandbox: Row, k: nat): HandlerResult {
      if RequestOutcome.Doomed(sandbox.state).None? then Failure(InvalidTransition)
      else if !store.script(k).fails && id in db.rows && db.rows[id].state == sandbox.state
              && RequestOutcome.CanIssue(db, sandbox.node, store.script(k + 1))
      then Success(()) else Failure(StoreError)
    }

    /** sandbox is the row as it was read. */
    method DestroyRow(id: SandboxId, sandbox: Row) returns (r: HandlerResult)
      modifies store
      ensures var to := RequestOutcome.Doomed(sandbox.state);
              Now() == if to.Some? then old(Driving(InRequest(DestroyCas(id, sandbox, to.value)))) else old(Now())
      ensures Issues(r.Success?, old(store.cmds), store.cmds, StopCmd, id)
      ensures r == Dooming(old(store.State()), id, sandbox, old(store.clock))
    {
      var next := NextState(sandbox.state, EvDestroyRequest);
      RequestOutcome.DoomedIsTheTable(sandbox.state);
      if next.None? { return Failure(InvalidTransition); }
      r := CommitDestroy(id, sandbox, next.value);
    }

    method CommitDestroy(id: SandboxId, sandbox: Row, to: State) returns (r: HandlerResult)
      modifies store
      ensures Now() == old(Driving(InRequest(DestroyCas(id, sandbox, to))))
      ensures Issues(r.Success?, old(store.cmds), store.cmds, StopCmd, id)
      ensures r == if !store.script(old(store.clock)).fails
                      && id in old(store.rows) && old(store.rows)[id].state == sandbox.state
                      && RequestOutcome.CanIssue(old(store.State()), sandbox.node, store.script(old(store.clock) + 1))
                   then Success(()) else Failure(StoreError)
    {
      DriveOnce(store.State(), InRequest(DestroyCas(id, sandbox, to)), store.script, store.clock);
      var moved := store.TransitionSandboxState(id, sandbox.state, to);
      if !moved.GotRow? { return Failure(StoreError); }
      r := IssueCommand(StopCmd, id, sandbox.node, 0, moved.row.version, to);
    }

    method WakeSandbox(id: SandboxId) returns (r: HandlerResult)
      modifies store
      ensures Now() == old(Driving(InRequest(WakeRead(id))))
      ensures Issues(r.Success?, old(store.cmds), store.cmds, StartCmd, id)
      ensures r == var db, k := old(store.State()), old(store.clock);
                   if store.script(k).fails || id !in db.rows then Failure(NotFound)
                   else if db.rows[id].state != Stopped then Failure(InvalidState)
                   else if !store.script(k + 1).fails
                           && RequestOutcome.CanIssue(db, db.rows[id].node, store.script(k + 2))
                   then Success(()) else Failure(StoreError)
    {
      ghost var before, k, d := store.State(), store.clock, Driving(InRequest(WakeRead(id)));
      RequestOutcome.WakeGoes(before, id, store.script, k, d);
      var got := store.GetSandbox(id);
      if !got.GotRow? {
        r := Failure(NotFound);
      } else if got.row.state != Stopped {
        r := Failure(InvalidState);
      } else {
        r := CommitWake(id, got.row);
      }
    }

    method CommitWake(id: SandboxId, sandbox: Row) returns (r: HandlerResult)
      modifies store
      ensures Now() == old(Driving(InRequest(WakeCas(id, sandbox))))
      ensures Issues(r.Success?, old(store.cmds), store.cmds, StartCmd, id)
      ensures r == if !store.script(old(store.clock)).fails
                      && id in old(store.rows) && old(store.rows)[id].state == sandbox.state
                      && RequestOutcome.CanIssue(old(store.State()), sandbox.node, store.script(old(store.clock) + 1))
                   then Success(()) else Failure(StoreError)
    {
      DriveOnce(store.State(), InRequest(WakeCas(id, sandbox)), store.script, store.clock);
      var moved := store.TransitionSandboxState(id, sandbox.state, Starting);
      if !moved.GotRow? { return Failure(StoreError); }
      r := IssueCommand(StartCmd, id, sandbox.node, 0, moved.row.version, Starting);
    }

    method RestartSandbox(id: SandboxId) returns (r: HandlerResult)
      modifies store
      ensures Now() == old(Driving(InRequest(RestartRead(id))))
      ensures Issues(r.Success?, old(store.cmds), store.cmds, RestartCmd, id)
      ensures r == var db, k := old(store.State()), old(store.clock);
                   if store.script(k).fails || id !in db.rows then Failure(NotFound)
                   else if db.rows[id].state != Running then Failure(InvalidState)
                   else if RequestOutcome.CanIssue(db, db.rows[id].node, store.script(k + 1))
                   then Success(()) else Failure(StoreError)
    {
      DriveOnce(store.State(), InRequest(RestartRead(id)), store.script, store.clock);
      var got := store.GetSandbox(id);
      if !got.GotRow? { return Failure(NotFound); }
      if got.row.state != Running { return Failure(InvalidState); }
      r := IssueCommand(RestartCmd, id, got.row.node, 0, got.row.version, Running);
    }

    // -------------------------------------------------------------- idle reaper

    /** A failing CreateCommand does not stop the reaper from removing the route. */
    method ReapOne(id: SandboxId, sb: Row) returns (reaped: bool)
      modifies store
      ensures Now() == old(Driving(InLoop(ReapCas(id, sb))))
      ensures reaped <==> !store.script(old(store.clock)).fails && id in old(store.rows)
                          && old(store.rows)[id].state == Running
      ensures store.rows == if reaped then old(store.rows)[id := old(store.rows)[id].Move(Stopped, ByHandler)]
                            else old(store.rows)
    {
      DriveOnce(store.State(), InLoop(ReapCas(id, sb)), store.script, store.clock);
      var moved := store.TransitionSandboxState(id, Running, Stopped);
      if !moved.GotRow? { return false; }
      StopReaped(id, sb, moved.row.version);
      return true;
    }

    method StopReaped(id: SandboxId, sb: Row, entered: nat)
      modifies store
      ensures Now() == old(Driving(Issue(StopCmd, id, sb.node, 0, entered, Stopped, Some(sb.app))))
      ensures store.rows == old(store.rows)
    {
      DriveOnce(store.State(), Issue(StopCmd, id, sb.node, 0, entered, Stopped, Some(sb.app)),
                store.script, store.clock);
      var issued := store.CreateCommand(StopCmd, id, sb.node, 0, entered, Stopped);
      DriveOnce(store.State(), InLoop(ReapUnroute(id, sb.app)), store.script, store.clock);
      var removed := store.OnSandboxStopped(sb.app);
    }
  }
}
