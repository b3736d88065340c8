/**
 * `Runtime::execute` for Stroke commands, run by any number of concurrent callers.
 * Each execution validates, authorises, takes the Stroke's lease, handles, dispatches
 * and drops the lease; the steps of different executions interleave freely.
 */
module StrokeRuntime {
  import opened Prelude
  import opened ProtocolEvents
  import opened StrokeProjection
  import opened StrokeCommands

  /** What `EventId::new()` and the clock supply for one execution. */
  datatype Stamp = Stamp(id: EventId, now: Timestamp)

  datatype RuntimeError =
    | HandlerNotFound
    | ValidationFailed
    | AuthorizationFailed
    | ScopeRejected
    | CoordinationUnavailable
    | CoordinationFailed
    | HandlerFailed(cause: CommandError)
    | PipelineFailed
    | Abandoned

  type Outcome = Result<seq<Event>, RuntimeError>

  // ---------------------------------------------------------------------------
  // The persisted log and what the state reader sees of it.

  /** The events of one aggregate, in log order. */
  function Restrict(log: seq<Event>, key: StrokeKey): (r: seq<Event>)
    ensures forall i :: 0 <= i < |r| ==> HasKey(r[i], key)
  {
    if log == [] then [] else
    var before := Restrict(log[..|log| - 1], key);
    if HasKey(log[|log| - 1], key) then before + [log[|log| - 1]] else before
  }

  predicate OfStroke(e: Event, s: StrokeId) {
    e.body.Canvas? && e.body.data.Stroke() == s
  }

  /** The events one lease protects: every session and canvas of a Stroke id. */
  function OnStroke(log: seq<Event>, s: StrokeId): seq<Event> {
    if log == [] then [] else
    var before := OnStroke(log[..|log| - 1], s);
    if OfStroke(log[|log| - 1], s) then before + [log[|log| - 1]] else before
  }

  /** `load_stroke`: the projection of the already persisted events of one aggregate. */
  function ReadState(log: seq<Event>, key: StrokeKey): (r: StateAnswer)
    ensures StateHasChunk(r)
  {
    match Replay(Restrict(log, key))
    case Ok(p) => Loaded(p)
    case Err(e) => Corrupted(e)
  }

  /** Every aggregate's events form a history the projector accepts. */
  ghost predicate LegalLog(log: seq<Event>) {
    forall key :: IsHistoryOf(Restrict(log, key), key)
  }

  /** What the reader folds is every event of the aggregate, once each and in log order, and nothing else. */
  lemma {:induction false} RestrictKeepsExactly(log: seq<Event>, key: StrokeKey) returns (positions: seq<nat>)
    ensures |positions| == |Restrict(log, key)|
    ensures forall i :: 0 <= i < |positions| ==> positions[i] < |log| && Restrict(log, key)[i] == log[positions[i]]
    ensures forall i, j :: 0 <= i < j < |positions| ==> positions[i] < positions[j]
    ensures forall n :: 0 <= n < |log| ==> (n in positions <==> HasKey(log[n], key))
    decreases |log|
  {
    positions := [];
    if log != [] {
      var n := |log| - 1;
      positions := RestrictKeepsExactly(log[..n], key);
      if HasKey(log[n], key) {
        positions := positions + [n];
      }
    }
  }

  /** Events that are no history are reported as corrupted, with what the projector found wrong. */
  lemma {:induction false} ReaderNamesCorruption(log: seq<Event>, key: StrokeKey)
    ensures ReadState(log, key).Corrupted? <==> Restrict(log, key) != [] && forall k :: !IsStory(Restrict(log, key), key, k)
    ensures ReadState(log, key).Corrupted? ==>
              exists n :: && 0 <= n < |Restrict(log, key)| && Replay(Restrict(log, key)[..n]).Ok?
                          && Apply(Replay(Restrict(log, key)[..n]).value, Restrict(log, key)[n]) == Err(ReadState(log, key).source)
    ensures !ReadState(log, key).Unavailable?
  {
    var history := Restrict(log, key);
    ReplayAcceptsExactlyStories(history);
    if Replay(history).Ok? && history != [] {
      var own, k := ReplayedIsStory(history);
      assert HasKey(history[0], own) && HasKey(history[0], key);
      assert own == key;
    }
    if Replay(history).Err? {
      var n := FirstRefused(history);
    }
  }

  /** A history that does not replay has a first event the projector refuses, and its reason is the result. */
  lemma {:induction false} FirstRefused(history: seq<Event>) returns (n: nat)
    requires Replay(history).Err?
    ensures n < |history| && Replay(history[..n]).Ok?
    ensures Apply(Replay(history[..n]).value, history[n]) == Err(Replay(history).error)
    decreases |history|
  {
    n := |history| - 1;
    if Replay(history[..n]).Err? {
      var shorter := history[..n];
      n := FirstRefused(shorter);
      assert shorter[..n] == history[..n];
    }
  }

  /** On a legal log the reader answers nothing for an unknown aggregate, and otherwise the projection its events tell. */
  lemma {:induction false} ReaderTellsStory(log: seq<Event>, key: StrokeKey)
    requires LegalLog(log)
    ensures var r, history := ReadState(log, key), Restrict(log, key);
            if history == [] then r == Loaded(None)
            else r.Loaded? && r.stroke.Some? && exists k :: IsStory(history, key, k) && Tells(history, key, k, r.stroke.value)
  {
    assert IsHistoryOf(Restrict(log, key), key);
    if Restrict(log, key) != [] {
      var k := HistoryShape(Restrict(log, key), key);
    }
  }

  lemma {:induction false} RestrictAppend(log: seq<Event>, more: seq<Event>, key: StrokeKey)
    ensures Restrict(log + more, key) == Restrict(log, key) + Restrict(more, key)
    decreases |more|
  {
    if more == [] {
      assert log + more == log;
    } else {
      var n := |more| - 1;
      assert (log + more)[..|log + more| - 1] == log + more[..n];
      RestrictAppend(log, more[..n], key);
    }
  }

  lemma {:induction false} OnStrokeAppend(log: seq<Event>, more: seq<Event>, s: StrokeId)
    ensures OnStroke(log + more, s) == OnStroke(log, s) + OnStroke(more, s)
    decreases |more|
  {
    if more == [] {
      assert log + more == log;
    } else {
      var n := |more| - 1;
      assert (log + more)[..|log + more| - 1] == log + more[..n];
      OnStrokeAppend(log, more[..n], s);
    }
  }

  /** What an aggregate shows depends only on the events of its Stroke id. */
  lemma {:induction false} RestrictThroughStroke(log: seq<Event>, key: StrokeKey)
    ensures Restrict(log, key) == Restrict(OnStroke(log, key.stroke), key)
    decreases |log|
  {
    if log != [] {
      var n := |log| - 1;
      RestrictThroughStroke(log[..n], key);
      var before := OnStroke(log[..n], key.stroke);
      if OfStroke(log[n], key.stroke) {
        assert (before + [log[n]])[..|before|] == before;
      }
    }
  }

  // ---------------------------------------------------------------------------
  // One execution on its own.

  function Materialise(a: Action, stamp: Stamp, drafts: seq<EventData>): (r: seq<Event>)
    ensures |r| == |drafts|
    ensures forall i :: 0 <= i < |r| ==>
                          && r[i].body == Canvas(drafts[i]) && r[i].session == a.session && r[i].actor == a.actor
                          && r[i].id == stamp.id && r[i].action == a.id && r[i].occurredAt == stamp.now
  {
    seq(|drafts|, i requires 0 <= i < |drafts| =>
      Event(stamp.id, a.session, a.actor, a.id, stamp.now, Canvas(drafts[i])))
  }

  /** What the handler's ports answer inside the lease. */
  datatype Ports = Ports(catalog: CatalogAnswer, readable: bool, stamp: Stamp)

  /** The handler, reading the given log. */
  function Handle(a: Action, ports: Ports, log: seq<Event>): Result<seq<Event>, CommandError> {
    var state := if ports.readable then ReadState(log, KeyOf(a)) else Unavailable;
    match Decide(a, ports.catalog, state)
    case Err(e) => Err(e)
    case Ok(drafts) => Ok(Materialise(a, ports.stamp, drafts))
  }

  /** The one event a handled action can yield: its draft, under its own session, actor and action, freshly stamped. */
  function EventOf(a: Action, stamp: Stamp): Event {
    Event(stamp.id, a.session, a.actor, a.id, stamp.now, Canvas(a.command.Draft()))
  }

  /** A handler answers with nothing or with exactly that event. */
  lemma {:induction false} HandledEventIsOwn(a: Action, ports: Ports, log: seq<Event>)
    ensures var r := Handle(a, ports, log);
            r.Ok? ==> r.value == [] || (|r.value| == 1 && r.value[0] == EventOf(a, ports.stamp))
    ensures var r := Handle(a, ports, log);
            r.Ok? ==> forall e :: e in r.value ==>
                                    && e.id == ports.stamp.id && e.occurredAt == ports.stamp.now && e.action == a.id
                                    && e.session == a.session && e.actor == a.actor && e.body == Canvas(a.command.Draft())
  {
    SingleDraft(a, ports.catalog, if ports.readable then ReadState(log, KeyOf(a)) else Unavailable);
  }

  /** The events an execution adds when it runs alone on this log. */
  function Effect(a: Action, ports: Ports, log: seq<Event>): seq<Event> {
    match Handle(a, ports, log)
    case Err(_) => []
    case Ok(events) => events
  }

  /** What a handler adds to a legal log is nothing, or one event of its own aggregate that continues it. */
  lemma {:induction false} EffectContinues(a: Action, ports: Ports, log: seq<Event>)
    requires LegalLog(log)
    ensures var events := Effect(a, ports, log);
            || events == []
            || (|events| == 1 && HasKey(events[0], KeyOf(a)) && IsHistoryOf(Restrict(log, KeyOf(a)) + events, KeyOf(a)))
  {
    var history := Restrict(log, KeyOf(a));
    assert IsHistoryOf(history, KeyOf(a));
    var events := Effect(a, ports, log);
    if events != [] {
      SingleDraft(a, ports.catalog, Loaded(Replay(history).value));
      EmittedDraftApplies(a, ports.catalog, history, events[0]);
      assert events == [events[0]];
    }
  }

  /** A handler on a legal log adds nothing, or one event that keeps the log legal. */
  lemma {:induction false} EffectKeepsLegal(a: Action, ports: Ports, log: seq<Event>)
    requires LegalLog(log)
    ensures LegalLog(log + Effect(a, ports, log))
  {
    var events := Effect(a, ports, log);
    EffectContinues(a, ports, log);
    forall k ensures IsHistoryOf(Restrict(log + events, k), k) {
      RestrictAppend(log, events, k);
      assert IsHistoryOf(Restrict(log, k), k);
      OwnEventShows(events, KeyOf(a), k);
    }
  }

  lemma {:induction false} OwnEventShows(events: seq<Event>, key: StrokeKey, k: StrokeKey)
    requires events == [] || (|events| == 1 && HasKey(events[0], key))
    ensures Restrict(events, k) == if k == key then events else []
    ensures forall log: seq<Event> :: Restrict(events, k) == [] ==> log + Restrict(events, k) == log
  {
    if events != [] {
      assert events[..0] == [];
    }
  }

  /** Whatever its ports answer, a command drafts nothing or its own event. */
  lemma {:induction false} SingleDraft(a: Action, catalog: CatalogAnswer, state: StateAnswer)
    requires StateHasChunk(state)
    ensures var r := Decide(a, catalog, state); r.Ok? ==> r.value == [] || r.value == [a.command.Draft()]
  {
  }

  lemma {:induction false} EffectOnOwnStroke(a: Action, ports: Ports, log: seq<Event>)
    ensures forall i :: 0 <= i < |Effect(a, ports, log)| ==> OfStroke(Effect(a, ports, log)[i], a.command.Stroke())
  {
    SingleDraft(a, ports.catalog, if ports.readable then ReadState(log, KeyOf(a)) else Unavailable);
  }

  /** Two logs that agree on a Stroke id look the same to its commands. */
  lemma {:induction false} EffectReadsOneStroke(a: Action, ports: Ports, one: seq<Event>, two: seq<Event>)
    requires OnStroke(one, a.command.Stroke()) == OnStroke(two, a.command.Stroke())
    ensures Handle(a, ports, one) == Handle(a, ports, two)
  {
    RestrictThroughStroke(one, KeyOf(a));
    RestrictThroughStroke(two, KeyOf(a));
  }

  /** The events of one Stroke id are invisible to every other. */
  lemma {:induction false} OtherStrokesUnseen(events: seq<Event>, s: StrokeId, other: StrokeId)
    requires forall i :: 0 <= i < |events| ==> OfStroke(events[i], s)
    ensures OnStroke(events, other) == if other == s then events else []
    decreases |events|
  {
    if events != [] {
      OtherStrokesUnseen(events[..|events| - 1], s, other);
      assert events == events[..|events| - 1] + [events[|events| - 1]];
    }
  }

  /** Every answer the environment gives one `execute` call. A dispatch that succeeds has persisted. */
  datatype Environment = Environment(
    registered: bool, allowed: bool, coordinated: bool, granted: bool, ports: Ports, persisted: bool, dispatched: bool)

  /** Handler found, payload valid, actor authorized. */
  predicate PassesGate(a: Action, env: Environment) {
    env.registered && a.command.Draft().Valid() && env.allowed
  }

  /** `execution_scope`: decodes the payload again; the text of a Stroke id is never blank. */
  function ScopeOf(a: Action): Option<StrokeId> {
    if a.command.Draft().Valid() then Some(a.command.Stroke()) else None
  }

  /** The runtime with the log its pipeline persists to and the leases its coordinator has out. */
  class Runtime {
    var log: seq<Event>
    var held: set<StrokeId>

    constructor ()
      ensures log == [] && held == {}
    {
      log, held := [], {};
    }

    /**
     * `execute`: every return path gives the lease back; the log grows only by the
     * handler's events, is complete when the call succeeds, is untouched by every
     * failure before dispatch, and stays legal.
     */
    method Execute(a: Action, env: Environment) returns (r: Outcome)
      requires a.command.Stroke() !in held  // acquiring waits until the scope is free
      requires env.dispatched ==> env.persisted
      modifies this
      ensures held == old(held)
      ensures old(LegalLog(log)) ==> LegalLog(log)
      ensures r == Err(HandlerNotFound) <==> !env.registered
      ensures r == Err(ValidationFailed) <==> env.registered && !a.command.Draft().Valid()
      ensures r == Err(AuthorizationFailed) <==> env.registered && a.command.Draft().Valid() && !env.allowed
      ensures r != Err(ScopeRejected)
      ensures r == Err(CoordinationUnavailable) <==> PassesGate(a, env) && !env.coordinated
      ensures r == Err(CoordinationFailed) <==> PassesGate(a, env) && env.coordinated && !env.granted
      ensures r.Ok? ==> forall e :: e in r.value ==>
                                      && e.id == env.ports.stamp.id && e.occurredAt == env.ports.stamp.now && e.action == a.id
                                      && e.session == a.session && e.actor == a.actor && e.body == Canvas(a.command.Draft())
      ensures var handling := PassesGate(a, env) && env.coordinated && env.granted;
              var handled := Handle(a, env.ports, old(log));
              && (handling && handled.Err? ==> r == Err(HandlerFailed(handled.error)))
              && (handling && handled.Ok? ==> r == if env.dispatched then Ok(handled.value) else Err(PipelineFailed))
              && log == old(log) + if handling && env.persisted then Effect(a, env.ports, old(log)) else []
    {
      if !env.registered {
        return Err(HandlerNotFound);
      }
      if !a.command.Draft().Valid() {
        return Err(ValidationFailed);
      }
      if !env.allowed {
        return Err(AuthorizationFailed);
      }
      var scope := ScopeOf(a);
      if scope.None? {
        return Err(ScopeRejected);
      }
      if !env.coordinated {
        return Err(CoordinationUnavailable);
      }
      if !env.granted {
        return Err(CoordinationFailed);
      }
      held := held + {a.command.Stroke()};
      if LegalLog(log) {
        EffectKeepsLegal(a, env.ports, log);
      }
      var handled := Handle(a, env.ports, log);
      HandledEventIsOwn(a, env.ports, log);
      if handled.Err? {
        held := held - {a.command.Stroke()};
        return Err(HandlerFailed(handled.error));
      }
      if env.persisted {
        log := log + handled.value;
      }
      held := held - {a.command.Stroke()};
      r := if env.dispatched then Ok(handled.value) else Err(PipelineFailed);
    }
  }

  // ---------------------------------------------------------------------------
  // Many executions, interleaved.

  type TaskId = nat

  /** How far one `execute` call has got. From Leased to Settled it holds the lease. */
  datatype Phase =
    | Submitted
    | Validated
    | Authorized
    | Leased
    | Handled(events: seq<Event>)
    | Settled(outcome: Outcome)
    | Finished(result: Outcome)

  /** What the critical section of an execution did, once it has run. */
  datatype Section = NotRun | Ran(ports: Ports, persisted: bool)

  datatype Task = Task(action: Action, phase: Phase, section: Section) {
    function Stroke(): StrokeId { action.command.Stroke() }
    predicate HoldsLease() { phase.Leased? || phase.Handled? || phase.Settled? }
    predicate Persisted() { section.Ran? && section.persisted }
  }

  /** Shared state: the log, the executions, who holds each lease, and the order leases were granted in. */
  datatype State = State(log: seq<Event>, tasks: seq<Task>, leases: map<StrokeId, TaskId>, order: seq<TaskId>)

  const INIT := State([], [], map[], [])

  /** One atomic step; the booleans and port answers are the environment's choice. */
  datatype Step =
    | Submit(action: Action)
    | Validate(task: TaskId, registered: bool)
    | Authorize(task: TaskId, allowed: bool)
    | Acquire(task: TaskId, coordinated: bool, granted: bool)
    | RunHandler(task: TaskId, ports: Ports)
    | Dispatch(task: TaskId, persisted: bool, ok: bool)
    | Release(task: TaskId)
    | Drop(task: TaskId)
    | OtherHandlers(events: seq<Event>)

  predicate Enabled(s: State, step: Step) {
    match step
    case Submit(_) => true
    case OtherHandlers(events) => forall i :: 0 <= i < |events| ==> events[i].body.Foreign?
    case Validate(t, _) => t < |s.tasks| && s.tasks[t].phase.Submitted?
    case Authorize(t, _) => t < |s.tasks| && s.tasks[t].phase.Validated?
    case Acquire(t, coordinated, granted) =>
      // Equal scopes exclude each other: a lease is granted only while nobody holds it.
      t < |s.tasks| && s.tasks[t].phase.Authorized? && (granted ==> coordinated && s.tasks[t].Stroke() !in s.leases)
    case RunHandler(t, _) => t < |s.tasks| && s.tasks[t].phase.Leased?
    case Dispatch(t, persisted, ok) => t < |s.tasks| && s.tasks[t].phase.Handled? && (ok ==> persisted)
    case Release(t) => t < |s.tasks| && s.tasks[t].phase.Settled?
    case Drop(t) => t < |s.tasks| && !s.tasks[t].phase.Finished? && !s.tasks[t].phase.Settled?
  }

  function Enter(s: State, t: TaskId, phase: Phase): State
    requires t < |s.tasks|
  {
    s.(tasks := s.tasks[t := s.tasks[t].(phase := phase)])
  }

  /** Returning from `execute` drops the lease it holds, if any. */
  function Return(s: State, t: TaskId, outcome: Outcome): State
    requires t < |s.tasks|
  {
    var freed := if s.tasks[t].HoldsLease() then s.leases - {s.tasks[t].Stroke()} else s.leases;
    Enter(s, t, Finished(outcome)).(leases := freed)
  }

  function Next(s: State, step: Step): State
    requires Enabled(s, step)
  {
    match step
    case Submit(a) => s.(tasks := s.tasks + [Task(a, Submitted, NotRun)])
    case OtherHandlers(events) => s.(log := s.log + events)
    case Validate(t, registered) =>
      if !registered then Return(s, t, Err(HandlerNotFound))
      else if s.tasks[t].action.command.Draft().Valid() then Enter(s, t, Validated) else Return(s, t, Err(ValidationFailed))
    case Authorize(t, allowed) =>
      if allowed then Enter(s, t, Authorized) else Return(s, t, Err(AuthorizationFailed))
    case Acquire(t, coordinated, granted) =>
      if granted
      then Enter(s, t, Leased).(leases := s.leases[s.tasks[t].Stroke() := t], order := s.order + [t])
      else Return(s, t, Err(if coordinated then CoordinationFailed else CoordinationUnavailable))
    case RunHandler(t, ports) =>
      var task := s.tasks[t];
      var result := Handle(task.action, ports, s.log);
      var phase := if result.Ok? then Handled(result.value) else Settled(Err(HandlerFailed(result.error)));
      s.(tasks := s.tasks[t := task.(phase := phase, section := Ran(ports, false))])
    case Dispatch(t, persisted, ok) =>
      var task := s.tasks[t];
      var outcome := if ok then Ok(task.phase.events) else Err(PipelineFailed);
      s.(log := if persisted then s.log + task.phase.events else s.log,
         tasks := s.tasks[t := task.(phase := Settled(outcome),
                                     section := if task.section.Ran? then task.section.(persisted := persisted) else NotRun)])
    case Release(t) => Return(s, t, s.tasks[t].phase.outcome)
    case Drop(t) => Return(s, t, Err(Abandoned))
  }

  /** The state after a run from the start, or nothing when some step was not enabled. */
  function Exec(run: seq<Step>): Option<State> {
    if run == [] then Some(INIT) else
    var before := Exec(run[..|run| - 1]);
    if before.Some? && Enabled(before.value, run[|run| - 1]) then Some(Next(before.value, run[|run| - 1])) else None
  }

  // ---------------------------------------------------------------------------
  // The serial reference: lease holders run one at a time, in the order they got their lease.

  /** What a task persists when it runs alone on `log`. */
  function SerialEffect(task: Task, log: seq<Event>): seq<Event> {
    if task.Persisted() then Effect(task.action, task.section.ports, log) else []
  }

  /** The log left by running these tasks one after the other from the empty log. */
  function SerialLog(queue: seq<Task>): seq<Event> {
    if queue == [] then [] else
    var before := SerialLog(queue[..|queue| - 1]);
    before + SerialEffect(queue[|queue| - 1], before)
  }

  /** Two versions of a task the serial run cannot tell apart. */
  predicate SameEffect(a: Task, b: Task) {
    a.action == b.action && (a.section == b.section || (!a.Persisted() && !b.Persisted()))
  }

  lemma {:induction false} SerialLogSame(one: seq<Task>, two: seq<Task>)
    requires |one| == |two| && forall i :: 0 <= i < |one| ==> SameEffect(one[i], two[i])
    ensures SerialLog(one) == SerialLog(two)
    decreases |one|
  {
    if one != [] {
      SerialLogSame(one[..|one| - 1], two[..|two| - 1]);
    }
  }

  /** The effect of a task shows on its own Stroke only, and follows what that Stroke showed before. */
  lemma {:induction false} SerialEffectOn(task: Task, log: seq<Event>, s: StrokeId)
    ensures OnStroke(log + SerialEffect(task, log), s) ==
            OnStroke(log, s) + (if s == task.Stroke() then SerialEffect(task, log) else [])
  {
    var events := SerialEffect(task, log);
    OnStrokeAppend(log, events, s);
    if task.Persisted() {
      EffectOnOwnStroke(task.action, task.section.ports, log);
    }
    OtherStrokesUnseen(events, task.Stroke(), s);
  }

  /** `two` shows what `one` shows, plus `extra` at the end of one Stroke. */
  predicate ExtendsOn(one: seq<Event>, two: seq<Event>, own: StrokeId, extra: seq<Event>, s: StrokeId) {
    OnStroke(two, s) == OnStroke(one, s) + (if s == own then extra else [])
  }

  lemma {:induction false} SerialEffectsAgree(a: Task, b: Task, one: seq<Event>, two: seq<Event>)
    requires SameEffect(a, b) && OnStroke(one, a.Stroke()) == OnStroke(two, a.Stroke())
    ensures SerialEffect(a, one) == SerialEffect(b, two)
  {
    if a.Persisted() {
      EffectReadsOneStroke(a.action, a.section.ports, one, two);
    }
  }

  /** A later task of another Stroke does the same on both logs and keeps them apart by `extra` alone. */
  lemma {:induction false} OtherStrokeKeepsExtension(
    a: Task, b: Task, one: seq<Event>, two: seq<Event>, own: StrokeId, extra: seq<Event>, s: StrokeId)
    requires SameEffect(a, b) && a.Stroke() != own
    requires ExtendsOn(one, two, own, extra, s) && ExtendsOn(one, two, own, extra, a.Stroke())
    ensures ExtendsOn(one + SerialEffect(a, one), two + SerialEffect(b, two), own, extra, s)
    ensures s == own ==> OnStroke(one + SerialEffect(a, one), s) == OnStroke(one, s)
  {
    SerialEffectsAgree(a, b, one, two);
    SerialEffectOn(a, one, s);
    SerialEffectOn(b, two, s);
    assert OnStroke(one, s) + [] == OnStroke(one, s) && OnStroke(two, s) + [] == OnStroke(two, s);
  }

  /** The task that turns persisted is the last one. */
  lemma {:induction false} LastTaskPersists(queue: seq<Task>, queue': seq<Task>, a: Task, b: Task, s: StrokeId)
    requires |queue| == |queue'| && forall i :: 0 <= i < |queue| ==> SameEffect(queue[i], queue'[i])
    requires a.action == b.action && !a.Persisted()
    ensures ExtendsOn(SerialLog(queue + [a]), SerialLog(queue' + [b]), b.Stroke(), SerialEffect(b, SerialLog(queue)), s)
    ensures SerialLog(queue + [a]) == SerialLog(queue)
  {
    SerialLogSame(queue, queue');
    SerialLogStep(queue, a);
    SerialLogStep(queue', b);
    assert SerialLog(queue) + [] == SerialLog(queue);
    SerialEffectOn(b, SerialLog(queue), s);
  }

  lemma {:induction false} SerialLogStep(queue: seq<Task>, last: Task)
    ensures SerialLog(queue + [last]) == SerialLog(queue) + SerialEffect(last, SerialLog(queue))
  {
    assert (queue + [last])[..|queue|] == queue;
  }

  /**
   * A task that turns persisted late, after leases on other Strokes were granted,
   * still adds its events at the end of its own Stroke's serial history and changes
   * no other Stroke.
   */
  lemma {:induction false} SerialLogLatePersist(
    early: seq<Task>, early': seq<Task>, a: Task, b: Task, late: seq<Task>, late': seq<Task>, s: StrokeId)
    requires |early| == |early'| && forall i :: 0 <= i < |early| ==> SameEffect(early[i], early'[i])
    requires a.action == b.action && !a.Persisted()
    requires |late| == |late'| && forall i :: 0 <= i < |late| ==> SameEffect(late[i], late'[i]) && late[i].Stroke() != b.Stroke()
    ensures ExtendsOn(SerialLog(early + [a] + late), SerialLog(early' + [b] + late'), b.Stroke(), SerialEffect(b, SerialLog(early)), s)
    ensures s == b.Stroke() ==> OnStroke(SerialLog(early + [a] + late), s) == OnStroke(SerialLog(early), s)
    decreases |late|
  {
    if late == [] {
      LastTaskPersists(early, early', a, b, s);
      assert early + [a] + late == early + [a] && early' + [b] + late' == early' + [b];
    } else {
      var n := |late| - 1;
      var one, two := early + [a] + late[..n], early' + [b] + late'[..n];
      assert early + [a] + late == one + [late[n]] && early' + [b] + late' == two + [late'[n]];
      SerialLogLatePersist(early, early', a, b, late[..n], late'[..n], s);
      SerialLogLatePersist(early, early', a, b, late[..n], late'[..n], late[n].Stroke());
      SerialLogStep(one, late[n]);
      SerialLogStep(two, late'[n]);
      OtherStrokeKeepsExtension(late[n], late'[n], SerialLog(one), SerialLog(two), b.Stroke(), SerialEffect(b, SerialLog(early)), s);
    }
  }

  // ---------------------------------------------------------------------------
  // What every step keeps.

  type Leases = map<StrokeId, TaskId>

  /** A lease is held by exactly the one execution the lease map names. */
  ghost predicate LeasesExclusive(tasks: seq<Task>, leases: Leases) {
    && (forall t :: 0 <= t < |tasks| && tasks[t].HoldsLease() ==>
                      tasks[t].Stroke() in leases && leases[tasks[t].Stroke()] == t)
    && (forall x :: x in leases ==> leases[x] < |tasks| && tasks[leases[x]].HoldsLease() && tasks[leases[x]].Stroke() == x)
  }

  predicate Known(tasks: seq<Task>, order: seq<TaskId>) {
    forall i :: 0 <= i < |order| ==> order[i] < |tasks|
  }

  /** Executions enter the lease order once; whoever holds a lease is the latest on its Stroke. */
  ghost predicate OrderFollowsLeases(tasks: seq<Task>, order: seq<TaskId>) {
    && Known(tasks, order)
    && (forall i :: 0 <= i < |order| ==> Entered(tasks[order[i]]))
    && (forall t :: 0 <= t < |tasks| && tasks[t].HoldsLease() ==> t in order)
    && (forall i, j :: 0 <= i < j < |order| ==> order[i] != order[j])
    && (forall i, j :: 0 <= i < j < |order| && tasks[order[i]].HoldsLease() ==>
                         tasks[order[i]].Stroke() != tasks[order[j]].Stroke())
  }

  predicate Entered(task: Task) {
    task.HoldsLease() || task.phase.Finished?
  }

  /** Between handling and dispatch, the held lease keeps the handler's answer valid. */
  ghost predicate AnswersCurrent(tasks: seq<Task>, log: seq<Event>) {
    forall t :: 0 <= t < |tasks| ==> AnswerCurrent(tasks[t], log)
  }

  predicate AnswerCurrent(task: Task, log: seq<Event>) {
    && (task.phase.Handled? ==> task.section.Ran? && Handle(task.action, task.section.ports, log) == Ok(task.phase.events))
    && (!task.phase.Settled? && !task.phase.Finished? ==> !task.Persisted())
  }

  /** The tasks in lease order. */
  function Queue(tasks: seq<Task>, order: seq<TaskId>): (q: seq<Task>)
    requires Known(tasks, order)
    ensures |q| == |order| && forall i :: 0 <= i < |q| ==> q[i] == tasks[order[i]]
  {
    seq(|order|, i requires 0 <= i < |order| => tasks[order[i]])
  }

  /** Stroke by Stroke, the two logs hold the same events in the same order. */
  ghost predicate SameByStroke(one: seq<Event>, two: seq<Event>) {
    forall x :: OnStroke(one, x) == OnStroke(two, x)
  }

  ghost predicate Inv(s: State) {
    && LegalLog(s.log)
    && LeasesExclusive(s.tasks, s.leases)
    && OrderFollowsLeases(s.tasks, s.order)
    && AnswersCurrent(s.tasks, s.log)
    && SameByStroke(s.log, SerialLog(Queue(s.tasks, s.order)))
  }

  // A task moves on without taking or dropping a lease.

  lemma {:induction false} MovingKeepsLeases(tasks: seq<Task>, leases: Leases, order: seq<TaskId>, t: TaskId, moved: Task)
    requires LeasesExclusive(tasks, leases) && OrderFollowsLeases(tasks, order)
    requires t < |tasks| && moved.action == tasks[t].action
    requires moved.HoldsLease() == tasks[t].HoldsLease() && (Entered(tasks[t]) ==> Entered(moved))
    ensures LeasesExclusive(tasks[t := moved], leases) && OrderFollowsLeases(tasks[t := moved], order)
  {
    var tasks' := tasks[t := moved];
    assert forall u :: 0 <= u < |tasks| ==> tasks'[u].HoldsLease() == tasks[u].HoldsLease() && tasks'[u].Stroke() == tasks[u].Stroke();
  }

  lemma {:induction false} SubmittingKeepsLeases(tasks: seq<Task>, leases: Leases, order: seq<TaskId>, newcomer: Task)
    requires LeasesExclusive(tasks, leases) && OrderFollowsLeases(tasks, order) && !newcomer.HoldsLease()
    ensures LeasesExclusive(tasks + [newcomer], leases) && OrderFollowsLeases(tasks + [newcomer], order)
  {
  }

  lemma {:induction false} AcquiringKeepsLeases(tasks: seq<Task>, leases: Leases, order: seq<TaskId>, t: TaskId, moved: Task)
    requires LeasesExclusive(tasks, leases) && OrderFollowsLeases(tasks, order)
    requires t < |tasks| && !Entered(tasks[t]) && tasks[t].Stroke() !in leases
    requires moved.action == tasks[t].action && moved.HoldsLease()
    ensures LeasesExclusive(tasks[t := moved], leases[tasks[t].Stroke() := t])
    ensures OrderFollowsLeases(tasks[t := moved], order + [t])
  {
    var tasks', order' := tasks[t := moved], order + [t];
    assert forall u :: 0 <= u < |tasks| ==> tasks'[u].Stroke() == tasks[u].Stroke();
    assert forall i :: 0 <= i < |order| ==> order'[i] == order[i] && order[i] != t;
    assert order'[|order|] == t;
  }

  lemma {:induction false} DroppingKeepsLeases(tasks: seq<Task>, leases: Leases, order: seq<TaskId>, t: TaskId, moved: Task)
    requires LeasesExclusive(tasks, leases) && OrderFollowsLeases(tasks, order)
    requires t < |tasks| && tasks[t].HoldsLease()
    requires moved.action == tasks[t].action && moved.phase.Finished?
    ensures LeasesExclusive(tasks[t := moved], leases - {tasks[t].Stroke()})
    ensures OrderFollowsLeases(tasks[t := moved], order)
  {
    var tasks' := tasks[t := moved];
    assert forall u :: 0 <= u < |tasks| ==> tasks'[u].Stroke() == tasks[u].Stroke();
  }

  /** A step of one task, other than taking its lease. */
  lemma {:induction false} TaskStepKeepsLeases(s: State, step: Step, t: TaskId)
    requires LeasesExclusive(s.tasks, s.leases) && OrderFollowsLeases(s.tasks, s.order) && Enabled(s, step)
    requires !step.Submit? && !step.OtherHandlers? && !(step.Acquire? && step.granted) && t == step.task
    ensures var s' := Next(s, step); LeasesExclusive(s'.tasks, s'.leases) && OrderFollowsLeases(s'.tasks, s'.order)
  {
    var moved := Next(s, step).tasks[t];
    if s.tasks[t].HoldsLease() && moved.phase.Finished? {
      DroppingKeepsLeases(s.tasks, s.leases, s.order, t, moved);
    } else {
      MovingKeepsLeases(s.tasks, s.leases, s.order, t, moved);
    }
  }

  lemma {:induction false} LeasesKept(s: State, step: Step)
    requires LeasesExclusive(s.tasks, s.leases) && OrderFollowsLeases(s.tasks, s.order) && Enabled(s, step)
    ensures var s' := Next(s, step); LeasesExclusive(s'.tasks, s'.leases) && OrderFollowsLeases(s'.tasks, s'.order)
  {
    var s' := Next(s, step);
    if step.Submit? {
      SubmittingKeepsLeases(s.tasks, s.leases, s.order, s'.tasks[|s.tasks|]);
    } else if step.Acquire? && step.granted {
      AcquiringKeepsLeases(s.tasks, s.leases, s.order, step.task, s'.tasks[step.task]);
    } else if !step.OtherHandlers? {
      TaskStepKeepsLeases(s, step, step.task);
    }
  }

  /** Events of other handlers are not Stroke events. */
  lemma {:induction false} ForeignInvisible(log: seq<Event>, events: seq<Event>)
    requires forall i :: 0 <= i < |events| ==> events[i].body.Foreign?
    ensures SameByStroke(log + events, log)
    decreases |events|
  {
    if events == [] {
      assert log + events == log;
    } else {
      var n := |events| - 1;
      ForeignInvisible(log, events[..n]);
      assert (log + events)[..|log| + n] == log + events[..n];
    }
  }

  lemma {:induction false} LegalByStroke(one: seq<Event>, two: seq<Event>)
    requires SameByStroke(one, two) && LegalLog(one)
    ensures LegalLog(two)
  {
    forall key ensures IsHistoryOf(Restrict(two, key), key) {
      assert IsHistoryOf(Restrict(one, key), key);
      RestrictThroughStroke(one, key);
      RestrictThroughStroke(two, key);
    }
  }

  /** A step changes the log only by the dispatching task's events or by foreign ones. */
  lemma {:induction false} LegalKept(s: State, step: Step)
    requires Inv(s) && Enabled(s, step)
    ensures LegalLog(Next(s, step).log)
  {
    if step.OtherHandlers? {
      ForeignInvisible(s.log, step.events);
      LegalByStroke(s.log, s.log + step.events);
    } else if step.Dispatch? && step.persisted {
      var task := s.tasks[step.task];
      assert AnswerCurrent(task, s.log);
      EffectKeepsLegal(task.action, task.section.ports, s.log);
    }
  }

  /** A task's answer survives any change of the log that its Stroke does not see. */
  lemma {:induction false} AnswerSurvives(task: Task, one: seq<Event>, two: seq<Event>)
    requires AnswerCurrent(task, one) && OnStroke(one, task.Stroke()) == OnStroke(two, task.Stroke())
    ensures AnswerCurrent(task, two)
  {
    if task.phase.Handled? {
      EffectReadsOneStroke(task.action, task.section.ports, one, two);
    }
  }

  lemma {:induction false} AnswerOnOwnStroke(task: Task, log: seq<Event>, x: StrokeId)
    requires task.phase.Handled? && AnswerCurrent(task, log)
    ensures OnStroke(log + task.phase.events, x) ==
            OnStroke(log, x) + (if x == task.Stroke() then task.phase.events else [])
  {
    EffectOnOwnStroke(task.action, task.section.ports, log);
    OtherStrokesUnseen(task.phase.events, task.Stroke(), x);
    OnStrokeAppend(log, task.phase.events, x);
  }

  /** Only a dispatch by a Stroke's own lease holder changes what the Stroke sees. */
  lemma {:induction false} OnlyHolderWrites(s: State, step: Step, x: StrokeId)
    requires Inv(s) && Enabled(s, step)
    requires !(step.Dispatch? && step.persisted && s.tasks[step.task].Stroke() == x)
    ensures OnStroke(Next(s, step).log, x) == OnStroke(s.log, x)
  {
    if step.OtherHandlers? {
      ForeignInvisible(s.log, step.events);
    } else if step.Dispatch? && step.persisted {
      assert AnswerCurrent(s.tasks[step.task], s.log);
      AnswerOnOwnStroke(s.tasks[step.task], s.log, x);
    }
  }

  /** A task the step leaves alone keeps its answer. */
  lemma {:induction false} OtherAnswerKept(s: State, step: Step, t: TaskId)
    requires Inv(s) && Enabled(s, step) && t < |s.tasks| && Next(s, step).tasks[t] == s.tasks[t]
    ensures AnswerCurrent(s.tasks[t], Next(s, step).log)
  {
    assert AnswerCurrent(s.tasks[t], s.log);
    if s.tasks[t].phase.Handled? {
      assert step.Dispatch? ==> s.tasks[step.task].Stroke() != s.tasks[t].Stroke();
      OnlyHolderWrites(s, step, s.tasks[t].Stroke());
      AnswerSurvives(s.tasks[t], s.log, Next(s, step).log);
    }
  }

  lemma {:induction false} AnswersKept(s: State, step: Step)
    requires Inv(s) && Enabled(s, step)
    ensures AnswersCurrent(Next(s, step).tasks, Next(s, step).log)
  {
    var s' := Next(s, step);
    forall t | 0 <= t < |s'.tasks| ensures AnswerCurrent(s'.tasks[t], s'.log) {
      if t < |s.tasks| {
        assert AnswerCurrent(s.tasks[t], s.log);
        if s'.tasks[t] == s.tasks[t] {
          OtherAnswerKept(s, step, t);
        }
      }
    }
  }

  /** Any step but a persisting dispatch: no task becomes persisted, and only an acquisition joins the order. */
  lemma {:induction false} NothingPersisted(s: State, step: Step, s': State)
    requires AnswersCurrent(s.tasks, s.log) && Enabled(s, step) && s' == Next(s, step) && !(step.Dispatch? && step.persisted)
    ensures |s.tasks| <= |s'.tasks| && forall t :: 0 <= t < |s.tasks| ==> SameEffect(s.tasks[t], s'.tasks[t])
    ensures if step.Acquire? && step.granted then s'.order == s.order + [step.task] && !s'.tasks[step.task].Persisted()
            else s'.order == s.order
  {
    assert forall t :: 0 <= t < |s.tasks| ==> AnswerCurrent(s.tasks[t], s.log);
  }

  lemma {:induction false} SerialLogOfSameTasks(tasks: seq<Task>, tasks': seq<Task>, order: seq<TaskId>)
    requires Known(tasks, order) && |tasks| <= |tasks'|
    requires forall t :: 0 <= t < |tasks| ==> SameEffect(tasks[t], tasks'[t])
    ensures SerialLog(Queue(tasks, order)) == SerialLog(Queue(tasks', order))
  {
    SerialLogSame(Queue(tasks, order), Queue(tasks', order));
  }

  /** Taking a place in the lease order does nothing yet. */
  lemma {:induction false} SerialLogWithNewcomer(tasks: seq<Task>, order: seq<TaskId>, t: TaskId)
    requires Known(tasks, order) && t < |tasks| && !tasks[t].Persisted()
    ensures SerialLog(Queue(tasks, order + [t])) == SerialLog(Queue(tasks, order))
  {
    assert Queue(tasks, order + [t]) == Queue(tasks, order) + [tasks[t]];
    SerialLogStep(Queue(tasks, order), tasks[t]);
    assert SerialLog(Queue(tasks, order)) + [] == SerialLog(Queue(tasks, order));
  }

  /** The lease order, cut at a task that holds its lease: nobody after it is on the same Stroke. */
  lemma {:induction false} CutAtHolder(tasks: seq<Task>, order: seq<TaskId>, t: TaskId) returns (at: nat)
    requires OrderFollowsLeases(tasks, order) && t < |tasks| && tasks[t].HoldsLease()
    ensures at < |order|
    ensures var q := Queue(tasks, order);
            && (forall b :: Queue(tasks[t := b], order) == q[..at] + [b] + q[at + 1..])
            && (forall i :: at < i < |q| ==> q[i].Stroke() != tasks[t].Stroke())
  {
    at :| 0 <= at < |order| && order[at] == t;
  }

  /** A persisting dispatch adds the same events to the serial log of its Stroke as to the log. */
  lemma {:induction false} DispatchOnBothLogs(
    early: seq<Task>, a: Task, b: Task, late: seq<Task>, log: seq<Event>, x: StrokeId)
    requires a.phase.Handled? && AnswerCurrent(a, log) && b.action == a.action
    requires b.section == a.section.(persisted := true)
    requires forall i :: 0 <= i < |late| ==> late[i].Stroke() != a.Stroke()
    requires SameByStroke(log, SerialLog(early + [a] + late))
    ensures OnStroke(log + a.phase.events, x) == OnStroke(SerialLog(early + [b] + late), x)
  {
    var before := SerialLog(early);
    SerialLogLatePersist(early, early, a, b, late, late, x);
    SerialLogLatePersist(early, early, a, b, late, late, a.Stroke());
    EffectReadsOneStroke(a.action, a.section.ports, before, log);
    assert SerialEffect(b, before) == a.phase.events == SerialEffect(b, log);
    SerialEffectOn(b, log, x);
  }

  lemma {:induction false} SerialLogFollowsDispatch(s: State, step: Step, x: StrokeId)
    requires Inv(s) && Enabled(s, step) && step.Dispatch? && step.persisted
    ensures Known(Next(s, step).tasks, Next(s, step).order)
    ensures OnStroke(Next(s, step).log, x) == OnStroke(SerialLog(Queue(Next(s, step).tasks, Next(s, step).order)), x)
  {
    var a, b := s.tasks[step.task], Next(s, step).tasks[step.task];
    assert AnswerCurrent(a, s.log);
    var at := CutAtHolder(s.tasks, s.order, step.task);
    var q := Queue(s.tasks, s.order);
    assert s.tasks[step.task := a] == s.tasks;
    DispatchOnBothLogs(q[..at], a, b, q[at + 1..], s.log, x);
  }

  /** The serial log stands while nobody becomes persisted. */
  lemma {:induction false} SerialLogStands(s: State, step: Step, s': State)
    requires AnswersCurrent(s.tasks, s.log) && Known(s.tasks, s.order)
    requires Enabled(s, step) && s' == Next(s, step) && !(step.Dispatch? && step.persisted)
    ensures Known(s'.tasks, s'.order)
    ensures SerialLog(Queue(s'.tasks, s'.order)) == SerialLog(Queue(s.tasks, s.order))
  {
    NothingPersisted(s, step, s');
    SerialLogOfSameTasks(s.tasks, s'.tasks, s.order);
    if step.Acquire? && step.granted {
      SerialLogWithNewcomer(s'.tasks, s.order, step.task);
    }
  }

  lemma {:induction false} StepKeepsInv(s: State, step: Step)
    requires Inv(s) && Enabled(s, step)
    ensures Inv(Next(s, step))
  {
    var s' := Next(s, step);
    LeasesKept(s, step);
    LegalKept(s, step);
    AnswersKept(s, step);
    forall x ensures OnStroke(s'.log, x) == OnStroke(SerialLog(Queue(s'.tasks, s'.order)), x) {
      if step.Dispatch? && step.persisted {
        SerialLogFollowsDispatch(s, step, x);
      } else {
        SerialLogStands(s, step, s');
        OnlyHolderWrites(s, step, x);
      }
    }
  }

  lemma {:induction false} RunsKeepInv(run: seq<Step>)
    requires Exec(run).Some?
    ensures Inv(Exec(run).value)
    decreases |run|
  {
    if run == [] {
      assert forall key :: Restrict([], key) == [];
      assert Queue(INIT.tasks, INIT.order) == [];
    } else {
      RunsKeepInv(run[..|run| - 1]);
      StepKeepsInv(Exec(run[..|run| - 1]).value, run[|run| - 1]);
    }
  }

  // ---------------------------------------------------------------------------
  // Main results.

  /**
   * Whatever the interleaving and however dispatches fail, the persisted events of
   * every aggregate form a history the projector accepts.
   */
  lemma {:induction false} HistoriesStayLegal(run: seq<Step>, key: StrokeKey)
    requires Exec(run).Some?
    ensures IsHistoryOf(Restrict(Exec(run).value.log, key), key)
  {
    RunsKeepInv(run);
  }

  /**
   * The log of every aggregate is the one left by running the lease holders one at a
   * time, in the order they were granted their leases.
   */
  lemma {:induction false} EquivalentToLeaseOrder(run: seq<Step>, key: StrokeKey)
    requires Exec(run).Some?
    ensures Known(Exec(run).value.tasks, Exec(run).value.order)
    ensures var s := Exec(run).value;
            Restrict(s.log, key) == Restrict(SerialLog(Queue(s.tasks, s.order)), key)
  {
    RunsKeepInv(run);
    var s := Exec(run).value;
    RestrictThroughStroke(s.log, key);
    RestrictThroughStroke(SerialLog(Queue(s.tasks, s.order)), key);
  }

  /** A story tells every event once: no two of its events have the same kind and payload. */
  lemma {:induction false} StoryRepeatsNothing(history: seq<Event>, key: StrokeKey, k: nat, i: nat, j: nat)
    requires IsStory(history, key, k) && i < j < |history|
    ensures history[i].body != history[j].body
  {
    if 1 <= i <= k {
      assert IsAppend(history[i], i);
    }
    if 1 <= j <= k {
      assert IsAppend(history[j], j);
    }
  }

  /**
   * Exactly once: however many executions submit a command, concurrently or again, no
   * aggregate ever persists two events of the same kind and payload.
   */
  lemma {:induction false} NoEventPersistedTwice(run: seq<Step>, key: StrokeKey, i: nat, j: nat)
    requires Exec(run).Some? && i < j < |Restrict(Exec(run).value.log, key)|
    ensures Restrict(Exec(run).value.log, key)[i].body != Restrict(Exec(run).value.log, key)[j].body
  {
    HistoriesStayLegal(run, key);
    var history := Restrict(Exec(run).value.log, key);
    var k := HistoryShape(history, key);
    StoryRepeatsNothing(history, key, k, i, j);
  }

  /** At most one execution per Stroke is between acquiring and dropping its lease. */
  lemma {:induction false} OneHolderPerStroke(run: seq<Step>, t: TaskId, u: TaskId)
    requires Exec(run).Some? && t < |Exec(run).value.tasks| && u < |Exec(run).value.tasks|
    requires Exec(run).value.tasks[t].HoldsLease() && Exec(run).value.tasks[u].HoldsLease()
    requires Exec(run).value.tasks[t].Stroke() == Exec(run).value.tasks[u].Stroke()
    ensures t == u
  {
    RunsKeepInv(run);
  }

  // ---------------------------------------------------------------------------
  // Whose event is whose.

  /** The task persisted this very event. */
  predicate WroteEvent(task: Task, e: Event) {
    task.Persisted() && e == EventOf(task.action, task.section.ports.stamp)
  }

  /** `authors` names, for every Canvas event of the log, the task that wrote it, and no task twice. */
  ghost predicate Authors(log: seq<Event>, tasks: seq<Task>, authors: seq<TaskId>) {
    && |authors| == |log|
    && (forall i :: 0 <= i < |log| && log[i].body.Canvas? ==> authors[i] < |tasks| && WroteEvent(tasks[authors[i]], log[i]))
    && (forall i, j :: 0 <= i < j < |log| && log[i].body.Canvas? && log[j].body.Canvas? ==> authors[i] != authors[j])
  }

  /** What a persisted task did, no later step changes. */
  lemma {:induction false} PersistedStays(s: State, step: Step, t: TaskId)
    requires AnswersCurrent(s.tasks, s.log) && Enabled(s, step) && t < |s.tasks| && s.tasks[t].Persisted()
    ensures var s' := Next(s, step);
            t < |s'.tasks| && s'.tasks[t].action == s.tasks[t].action && s'.tasks[t].section == s.tasks[t].section
  {
    assert AnswerCurrent(s.tasks[t], s.log);
  }

  lemma {:induction false} AuthorsStand(s: State, step: Step, authors: seq<TaskId>)
    requires AnswersCurrent(s.tasks, s.log) && Enabled(s, step) && Authors(s.log, s.tasks, authors)
    ensures Authors(s.log, Next(s, step).tasks, authors)
  {
    forall i | 0 <= i < |s.log| && s.log[i].body.Canvas?
      ensures authors[i] < |Next(s, step).tasks| && WroteEvent(Next(s, step).tasks[authors[i]], s.log[i])
    {
      assert WroteEvent(s.tasks[authors[i]], s.log[i]);
      PersistedStays(s, step, authors[i]);
    }
  }

  /** A task that has not persisted before adds its own event. */
  lemma {:induction false} AuthorAdded(log: seq<Event>, tasks: seq<Task>, authors: seq<TaskId>, e: Event, t: TaskId)
    requires Authors(log, tasks, authors) && t < |tasks| && WroteEvent(tasks[t], e)
    requires forall i :: 0 <= i < |log| && log[i].body.Canvas? ==> authors[i] != t
    ensures Authors(log + [e], tasks, authors + [t])
  {
  }

  lemma {:induction false} DispatchAddsAuthor(s: State, step: Step, authors: seq<TaskId>) returns (authors': seq<TaskId>)
    requires Inv(s) && Enabled(s, step) && Authors(s.log, s.tasks, authors) && step.Dispatch? && step.persisted
    requires Authors(s.log, Next(s, step).tasks, authors)
    ensures Authors(Next(s, step).log, Next(s, step).tasks, authors')
  {
    var t, task := step.task, s.tasks[step.task];
    assert AnswerCurrent(task, s.log);
    HandledEventIsOwn(task.action, task.section.ports, s.log);
    assert forall i :: 0 <= i < |s.log| && s.log[i].body.Canvas? ==> WroteEvent(s.tasks[authors[i]], s.log[i]);
    if task.phase.events == [] {
      assert s.log + task.phase.events == s.log;
      authors' := authors;
    } else {
      assert task.phase.events == [task.phase.events[0]];
      AuthorAdded(s.log, Next(s, step).tasks, authors, task.phase.events[0], t);
      authors' := authors + [t];
    }
  }

  lemma {:induction false} AuthorsKept(s: State, step: Step, authors: seq<TaskId>) returns (authors': seq<TaskId>)
    requires Inv(s) && Enabled(s, step) && Authors(s.log, s.tasks, authors)
    ensures Authors(Next(s, step).log, Next(s, step).tasks, authors')
  {
    AuthorsStand(s, step, authors);
    if step.OtherHandlers? {
      authors' := authors + seq(|step.events|, _ => 0);
    } else if step.Dispatch? && step.persisted {
      authors' := DispatchAddsAuthor(s, step, authors);
    } else {
      authors' := authors;
    }
  }

  lemma {:induction false} RunsHaveAuthors(run: seq<Step>) returns (authors: seq<TaskId>)
    requires Exec(run).Some?
    ensures Authors(Exec(run).value.log, Exec(run).value.tasks, authors)
    decreases |run|
  {
    authors := [];
    if run != [] {
      var n := |run| - 1;
      RunsKeepInv(run[..n]);
      var before := RunsHaveAuthors(run[..n]);
      authors := AuthorsKept(Exec(run[..n]).value, run[n], before);
    }
  }

  /**
   * In every run each persisted Canvas event is the event of one execution that persisted:
   * its draft, with its session, actor and action id, stamped with the id and time it drew.
   */
  lemma {:induction false} EveryEventHasItsExecution(run: seq<Step>, i: nat) returns (t: TaskId)
    requires Exec(run).Some? && i < |Exec(run).value.log| && Exec(run).value.log[i].body.Canvas?
    ensures t < |Exec(run).value.tasks|
    ensures var e, task := Exec(run).value.log[i], Exec(run).value.tasks[t];
            && task.section.Ran? && task.section.persisted
            && e.id == task.section.ports.stamp.id && e.occurredAt == task.section.ports.stamp.now
            && e.action == task.action.id && e.session == task.action.session && e.actor == task.action.actor
            && e.body == Canvas(task.action.command.Draft())
  {
    var authors := RunsHaveAuthors(run);
    t := authors[i];
    assert WroteEvent(Exec(run).value.tasks[t], Exec(run).value.log[i]);
  }

  /** If the executions of a run drew different event ids, no two Canvas events share one. */
  lemma {:induction false} EventIdsDiffer(run: seq<Step>, i: nat, j: nat)
    requires Exec(run).Some? && i < j < |Exec(run).value.log|
    requires Exec(run).value.log[i].body.Canvas? && Exec(run).value.log[j].body.Canvas?
    requires forall t, u :: 0 <= t < u < |Exec(run).value.tasks|
                            && Exec(run).value.tasks[t].section.Ran? && Exec(run).value.tasks[u].section.Ran? ==>
                            Exec(run).value.tasks[t].section.ports.stamp.id != Exec(run).value.tasks[u].section.ports.stamp.id
    ensures Exec(run).value.log[i].id != Exec(run).value.log[j].id
  {
    var authors := RunsHaveAuthors(run);
    var s := Exec(run).value;
    var t, u := authors[i], authors[j];
    assert WroteEvent(s.tasks[t], s.log[i]) && WroteEvent(s.tasks[u], s.log[j]);
    assert t < u || u < t;
  }

  // ---------------------------------------------------------------------------
  // What an execution's outcome says.

  predicate OutcomeTrue(task: Task, outcome: Outcome, log: seq<Event>) {
    var valid := task.action.command.Draft().Valid();
    match outcome
    case Ok(events) => valid && task.Persisted() && forall e :: e in events ==> e in log && WroteEvent(task, e)
    case Err(HandlerNotFound) => task.section.NotRun?
    case Err(ValidationFailed) => !valid && task.section.NotRun?
    case Err(AuthorizationFailed) => valid && task.section.NotRun?
    case Err(ScopeRejected) => false
    case Err(CoordinationUnavailable) => valid && task.section.NotRun?
    case Err(CoordinationFailed) => valid && task.section.NotRun?
    case Err(HandlerFailed(_)) => valid && task.section.Ran? && !task.section.persisted
    case Err(PipelineFailed) => valid && task.section.Ran?
    case Err(Abandoned) => !task.Persisted()
  }

  predicate PhaseTrue(task: Task, log: seq<Event>) {
    match task.phase
    case Submitted => task.section.NotRun?
    case Validated => task.section.NotRun? && task.action.command.Draft().Valid()
    case Authorized => task.section.NotRun? && task.action.command.Draft().Valid()
    case Leased => task.section.NotRun? && task.action.command.Draft().Valid()
    case Handled(_) => task.section.Ran? && !task.section.persisted && task.action.command.Draft().Valid()
    case Settled(outcome) => task.section.Ran? && OutcomeTrue(task, outcome, log)
    case Finished(outcome) => OutcomeTrue(task, outcome, log)
  }

  ghost predicate PhasesTrue(s: State) {
    forall t :: 0 <= t < |s.tasks| ==> PhaseTrue(s.tasks[t], s.log)
  }

  lemma {:induction false} OtherPhasesStand(task: Task, log: seq<Event>, longer: seq<Event>)
    requires PhaseTrue(task, log) && log <= longer
    ensures PhaseTrue(task, longer)
  {
    assert forall e :: e in log ==> e in longer;
  }

  lemma {:induction false} MovedPhaseTrue(s: State, step: Step, t: TaskId)
    requires AnswersCurrent(s.tasks, s.log) && PhasesTrue(s) && Enabled(s, step)
    requires !step.Submit? && !step.OtherHandlers? && t == step.task
    ensures PhaseTrue(Next(s, step).tasks[t], Next(s, step).log)
  {
    var task := s.tasks[t];
    assert AnswerCurrent(task, s.log) && PhaseTrue(task, s.log);
    if step.Dispatch? {
      HandledEventIsOwn(task.action, task.section.ports, s.log);
    }
  }

  lemma {:induction false} PhasesStayTrue(s: State, step: Step)
    requires AnswersCurrent(s.tasks, s.log) && PhasesTrue(s) && Enabled(s, step)
    ensures PhasesTrue(Next(s, step))
  {
    var s' := Next(s, step);
    forall t | 0 <= t < |s'.tasks| ensures PhaseTrue(s'.tasks[t], s'.log) {
      if !step.Submit? && !step.OtherHandlers? && t == step.task {
        MovedPhaseTrue(s, step, t);
      } else if t < |s.tasks| {
        OtherPhasesStand(s.tasks[t], s.log, s'.log);
      }
    }
  }

  /**
   * In every run a finished execution's outcome is true: success means its events are in
   * the log, a failure before dispatch means it persisted nothing, and a validation failure
   * is reported exactly of invalid payloads that got that far.
   */
  lemma {:induction false} OutcomesTellTheTruth(run: seq<Step>)
    requires Exec(run).Some?
    ensures PhasesTrue(Exec(run).value)
    decreases |run|
  {
    if run != [] {
      var n := |run| - 1;
      OutcomesTellTheTruth(run[..n]);
      RunsKeepInv(run[..n]);
      PhasesStayTrue(Exec(run[..n]).value, run[n]);
    }
  }

  // ---------------------------------------------------------------------------
  // An execution nobody interleaves with.

  /** The steps before the lease, one after the other, until one of them fails. */
  function AloneToLease(s: State, a: Action, env: Environment): State
    requires a.command.Stroke() !in s.leases
  {
    var t := |s.tasks|;
    var validated := Next(Next(s, Submit(a)), Validate(t, env.registered));
    if validated.tasks[t].phase.Finished? then validated else
    var authorized := Next(validated, Authorize(t, env.allowed));
    if authorized.tasks[t].phase.Finished? then authorized else
    Next(authorized, Acquire(t, env.coordinated, env.coordinated && env.granted))
  }

  /** They finish with the first failure, leaving everything else alone, or hold the lease. */
  lemma {:induction false} LeasedUnlessRefused(s: State, a: Action, env: Environment)
    requires a.command.Stroke() !in s.leases
    ensures var s', t := AloneToLease(s, a, env), |s.tasks|;
            && |s'.tasks| == t + 1 && s'.tasks[..t] == s.tasks && s'.log == s.log
            && s'.tasks[t].action == a && s'.tasks[t].section == NotRun
            && (if PassesGate(a, env) && env.coordinated && env.granted
                then s'.tasks[t].phase == Leased && s'.leases == s.leases[a.command.Stroke() := t]
                else s'.leases == s.leases && s'.tasks[t].phase == Finished(Err(
                       if !env.registered then HandlerNotFound
                       else if !a.command.Draft().Valid() then ValidationFailed
                       else if !env.allowed then AuthorizationFailed
                       else if !env.coordinated then CoordinationUnavailable
                       else CoordinationFailed)))
  {
  }

  /** The steps of one execution, one after the other, until it finishes. */
  function Alone(s: State, a: Action, env: Environment): State
    requires a.command.Stroke() !in s.leases && (env.dispatched ==> env.persisted)
  {
    var t, leased := |s.tasks|, AloneToLease(s, a, env);
    if |leased.tasks| <= t || !leased.tasks[t].phase.Leased? then leased else
    var handled := Next(leased, RunHandler(t, env.ports));
    if handled.tasks[t].phase.Settled? then Next(handled, Release(t)) else
    Next(Next(handled, Dispatch(t, env.persisted, env.dispatched)), Release(t))
  }

  /** Taken alone, the steps come to what `execute` returns, persist what it persists and give the lease back. */
  lemma {:induction false} AloneIsExecute(s: State, a: Action, env: Environment)
    requires a.command.Stroke() !in s.leases && (env.dispatched ==> env.persisted)
    ensures var s', handled := Alone(s, a, env), Handle(a, env.ports, s.log);
            && |s'.tasks| == |s.tasks| + 1 && s'.tasks[..|s.tasks|] == s.tasks && s'.leases == s.leases
            && s'.tasks[|s.tasks|].action == a
            && s'.tasks[|s.tasks|].phase == Finished(
                 if !env.registered then Err(HandlerNotFound)
                 else if !a.command.Draft().Valid() then Err(ValidationFailed)
                 else if !env.allowed then Err(AuthorizationFailed)
                 else if !env.coordinated then Err(CoordinationUnavailable)
                 else if !env.granted then Err(CoordinationFailed)
                 else if handled.Err? then Err(HandlerFailed(handled.error))
                 else if env.dispatched then Ok(handled.value) else Err(PipelineFailed))
            && s'.log == if PassesGate(a, env) && env.coordinated && env.granted && env.persisted then s.log + Effect(a, env.ports, s.log) else s.log
  {
    LeasedUnlessRefused(s, a, env);
    assert s.leases[a.command.Stroke() := |s.tasks|] - {a.command.Stroke()} == s.leases;
    assert s.log + [] == s.log;
  }
}
