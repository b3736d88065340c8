/** Transport-independent connection lifecycle and identity binding. */
module Connection {
  import opened Prelude

  datatype ConnectionState = Negotiating | Authenticating | Ready | Closing | Closed

  predicate CanTransitionTo(from: ConnectionState, to: ConnectionState) {
    match (from, to)
    case (Negotiating, Authenticating) => true
    case (Authenticating, Ready) => true
    case (Ready, Closing) => true
    case (Negotiating, Closing) => true
    case (Authenticating, Closing) => true
    case (Closing, Closed) => true
    case _ => false
  }

  /** How far a connection is on its way. */
  function Rank(s: ConnectionState): nat {
    match s
    case Negotiating => 0
    case Authenticating => 1
    case Ready => 2
    case Closing => 3
    case Closed => 4
  }

  /** A connection moves one stage on, or gives up into Closing from any stage before it, and never back. */
  lemma {:induction false} OnlyForward(from: ConnectionState, to: ConnectionState)
    ensures CanTransitionTo(from, to) <==> Rank(to) == Rank(from) + 1 || (to == Closing && Rank(from) < 3)
  {
  }

  datatype ConnectionError = InvalidTransition(from: ConnectionState, to: ConnectionState) | OperationNotAllowed | AuthenticationRequired

  /** The lifecycle part of a connection as a value. */
  datatype Lifecycle = Lifecycle(state: ConnectionState, identity: Option<ActorId>)

  const NEW_CONNECTION := Lifecycle(Negotiating, None)

  /** Which lifecycles a connection can show: an identity is bound from authentication on, and Ready has one. */
  predicate Coherent(c: Lifecycle) {
    && (c.state.Negotiating? ==> c.identity.None?)
    && (c.state.Ready? ==> c.identity.Some?)
  }

  function TransitionTo(c: Lifecycle, to: ConnectionState): Result<Lifecycle, ConnectionError> {
    if CanTransitionTo(c.state, to) then Ok(c.(state := to)) else Err(InvalidTransition(c.state, to))
  }

  function BindIdentity(c: Lifecycle, actor: ActorId): Result<Lifecycle, ConnectionError> {
    if c.state.Authenticating? then Ok(c.(identity := Some(actor))) else Err(OperationNotAllowed)
  }

  function MarkReady(c: Lifecycle): Result<Lifecycle, ConnectionError> {
    if c.identity.None? then Err(AuthenticationRequired) else TransitionTo(c, Ready)
  }

  /** The coordinator's shutdown sequence: whatever fails is ignored. */
  function Shutdown(c: Lifecycle): Lifecycle {
    if c.state.Closed? then c else
    var closing := if c.state.Closing? then Ok(c) else TransitionTo(c, Closing);
    var begun := if closing.Ok? then closing.value else c;
    if begun.state.Closing? && TransitionTo(begun, Closed).Ok? then TransitionTo(begun, Closed).value else begun
  }

  /** Shutdown reaches Closed from every state and forgets nothing about who was bound. */
  lemma {:induction false} ShutdownAlwaysCloses(c: Lifecycle)
    ensures Shutdown(c).state == Closed && Shutdown(c).identity == c.identity
  {
  }

  /** `TransportConnection`: a failing operation changes nothing. */
  class TransportConnection {
    var state: ConnectionState
    var identity: Option<ActorId>

    ghost function View(): Lifecycle
      reads this
    {
      Lifecycle(state, identity)
    }

    constructor ()
      ensures View() == NEW_CONNECTION
    {
      state, identity := Negotiating, None;
    }

    method Transition(to: ConnectionState) returns (r: Result<(), ConnectionError>)
      modifies this`state
      ensures var spec := TransitionTo(old(View()), to);
              if spec.Ok? then r.Ok? && View() == spec.value else r == Err(spec.error) && View() == old(View())
      ensures Coherent(old(View())) && (to.Ready? ==> identity.Some?) ==> Coherent(View())
    {
      if !CanTransitionTo(state, to) {
        return Err(InvalidTransition(state, to));
      }
      state := to;
      r := Ok(());
    }

    method Bind(actor: ActorId) returns (r: Result<(), ConnectionError>)
      modifies this`identity
      ensures var spec := BindIdentity(old(View()), actor);
              if spec.Ok? then r.Ok? && View() == spec.value else r == Err(spec.error) && View() == old(View())
      ensures Coherent(old(View())) ==> Coherent(View())
    {
      if state != Authenticating {
        return Err(OperationNotAllowed);
      }
      identity := Some(actor);
      r := Ok(());
    }

    method BecomeReady() returns (r: Result<(), ConnectionError>)
      modifies this`state
      ensures var spec := MarkReady(old(View()));
              if spec.Ok? then r.Ok? && View() == spec.value else r == Err(spec.error) && View() == old(View())
      ensures Coherent(old(View())) ==> Coherent(View())
    {
      if identity.None? {
        return Err(AuthenticationRequired);
      }
      r := Transition(Ready);
    }

    /** The end of `run_coordinator`. */
    method ShutDown()
      modifies this`state
      ensures View() == Shutdown(old(View())) && state == Closed
    {
      if state != Closed {
        if state != Closing {
          var begun := Transition(Closing);
        }
        if state == Closing {
          var done := Transition(Closed);
        }
      }
    }
  }
}
