/** The sandbox state machine (shared-go/models/sandbox.go). */
module Models {
  import opened Wrappers

  datatype State =
    | Pending | Starting | Running | Restarting
    | Stopped | Destroying | Destroyed | Failed

  datatype Event =
    | EvScheduled | EvStarted | EvContainerExited | EvIdleTimeout | EvDestroyRequest
    | EvDestroyed | EvRestartAttempt | EvNodeFailed | EvStartFailed

  /** The constant transition table together with its lookup. */
  function NextState(current: State, event: Event): Option<State> {
    match (current, event)
    case (Pending, EvScheduled) => Some(Starting)
    case (Pending, EvDestroyRequest) => Some(Destroyed)
    case (Starting, EvStarted) => Some(Running)
    case (Starting, EvContainerExited) => Some(Failed)
    case (Starting, EvStartFailed) => Some(Failed)
    case (Starting, EvDestroyRequest) => Some(Destroying)
    case (Running, EvContainerExited) => Some(Restarting)
    case (Running, EvDestroyRequest) => Some(Destroying)
    case (Running, EvIdleTimeout) => Some(Stopped)
    case (Running, EvNodeFailed) => Some(Pending)
    case (Restarting, EvRestartAttempt) => Some(Starting)
    case (Restarting, EvDestroyRequest) => Some(Destroying)
    case (Stopped, EvScheduled) => Some(Starting)
    case (Stopped, EvDestroyRequest) => Some(Destroyed)
    case (Destroying, EvDestroyed) => Some(Destroyed)
    case (Failed, EvRestartAttempt) => Some(Starting)
    case (Failed, EvDestroyRequest) => Some(Destroyed)
    case (Failed, EvStarted) => Some(Running)
    case _ => None
  }

  predicate IsTerminal(state: State) {
    state == Destroyed
  }

  /** One state is one event away from the other. */
  predicate IsEdge(from: State, to: State) {
    match from
    case Pending => to == Starting || to == Destroyed
    case Starting => to == Running || to == Failed || to == Destroying
    case Running => to == Restarting || to == Destroying || to == Stopped || to == Pending
    case Restarting => to == Starting || to == Destroying
    case Stopped => to == Starting || to == Destroyed
    case Destroying => to == Destroyed
    case Destroyed => false
    case Failed => to == Starting || to == Destroyed || to == Running
  }

  /** IsEdge is the edge relation of the table. */
  lemma IsEdgeIsTheTable(from: State, to: State)
    ensures IsEdge(from, to) <==> exists e: Event :: NextState(from, e) == Some(to)
  {
    if IsEdge(from, to) {
      var e :=
        match (from, to)
        case (Failed, Starting) => EvRestartAttempt
        case (Restarting, Starting) => EvRestartAttempt
        case (Destroying, _) => EvDestroyed
        case (_, Starting) => EvScheduled
        case (_, Running) => EvStarted
        case (_, Restarting) => EvContainerExited
        case (_, Stopped) => EvIdleTimeout
        case (_, Pending) => EvNodeFailed
        case (_, Failed) => EvStartFailed
        case _ => EvDestroyRequest;
      assert NextState(from, e) == Some(to);
    }
  }

  /** The same table read by event: which states hear it, and where it takes them. */
  predicate LeadsOn(event: Event, from: State, to: State) {
    match event
    case EvScheduled => (from == Pending || from == Stopped) && to == Starting
    case EvStarted => (from == Starting || from == Failed) && to == Running
    case EvContainerExited => (from == Starting && to == Failed) || (from == Running && to == Restarting)
    case EvIdleTimeout => from == Running && to == Stopped
    case EvDestroyRequest =>
      ((from == Pending || from == Stopped || from == Failed) && to == Destroyed)
      || ((from == Starting || from == Running || from == Restarting) && to == Destroying)
    case EvDestroyed => from == Destroying && to == Destroyed
    case EvRestartAttempt => (from == Restarting || from == Failed) && to == Starting
    case EvNodeFailed => from == Running && to == Pending
    case EvStartFailed => from == Starting && to == Failed
  }

  /** The table holds these transitions and no others. */
  lemma TableByEvent(from: State, event: Event, to: State)
    ensures NextState(from, event) == Some(to) <==> LeadsOn(event, from, to)
  {
  }

  /** A state with no outgoing transition is exactly a terminal one. */
  lemma TerminalMeansNoEdge(state: State)
    ensures IsTerminal(state) <==> forall e: Event :: NextState(state, e).None?
  {
    if !IsTerminal(state) {
      var e := if state == Destroying then EvDestroyed else EvDestroyRequest;
      assert NextState(state, e).Some?;
    }
  }
}
