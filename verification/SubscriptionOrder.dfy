/** The order of messages each subscription puts on the outbound queue. */
module SubscriptionOrder {
  import opened Prelude
  import opened Coordinator

  /** What a queued command means to one subscription. */
  datatype Mark = Accepted | Event(event: SourceEvent) | Closed

  function MarksOf(q: Queued, id: SubId): seq<Mark> {
    if !q.command.Application? then [] else
    match q.command.message
    case SubscriptionAccepted(_, sub) => if sub == id then [Accepted] else []
    case SubscriptionClosed(_, sub) => if sub == id then [Closed] else []
    case EventMessage(e) => if q.origin == ForSub(id) then [Event(e)] else []
    case _ => []
  }

  /** The subscription's messages on the outbound queue, in order. */
  function Marks(queue: seq<Queued>, id: SubId): seq<Mark> {
    if queue == [] then [] else
    Marks(queue[..|queue| - 1], id) + MarksOf(queue[|queue| - 1], id)
  }

  function Events(events: seq<SourceEvent>): (r: seq<Mark>)
    ensures |r| == |events| && forall i :: 0 <= i < |r| ==> r[i] == Event(events[i])
  {
    seq(|events|, i requires 0 <= i < |events| => Event(events[i]))
  }

  /** Accepted, then the events sent so far, then Closed if that was queued. */
  function Expected(p: Pump): seq<Mark>
    requires p.sent <= |p.pulled|
  {
    [Accepted] + Events(p.pulled[..p.sent]) + if p.closed then [Closed] else []
  }

  /** A pump has queued all it pulled, except an event that found the queue full and made it stop. */
  predicate PumpSound(p: Pump) {
    && p.sent <= |p.pulled| <= p.sent + 1
    && (p.status.Pulling? ==> p.sent == |p.pulled|)
    && (p.closed ==> p.status.Stopped?)
  }

  predicate SubHolds(s: State, id: SubId) {
    && (id in s.live ==> id in s.pumps && !s.pumps[id].closed)
    && (s.phase.Joining? && s.phase.sub == id ==> id in s.pumps && id !in s.live && !s.pumps[id].closed)
    && (if id in s.pumps then PumpSound(s.pumps[id]) && Marks(s.out.queue, id) == Expected(s.pumps[id])
        else Marks(s.out.queue, id) == [])
  }

  /** What one step may do as far as one subscription is concerned. */
  datatype Change = Nothing | Opens | Pulls(event: SourceEvent) | Moves | Closes

  predicate SameStanding(s: State, s': State, id: SubId) {
    && (id in s'.live ==> id in s.live)
    && (s'.phase.Joining? && s'.phase.sub == id ==> (s.phase.Joining? && s.phase.sub == id && id !in s'.live) || (id in s.live && id !in s'.live))
  }

  function AddedMarks(s: State, s': State, id: SubId): seq<Mark> {
    var added := Added(s.out.queue, s'.out.queue);
    if added == [] then [] else MarksOf(added[0], id)
  }

  predicate SubStep(s: State, s': State, id: SubId, change: Change) {
    && Grew(s.out.queue, s'.out.queue)
    && match change
       case Nothing =>
         && SameStanding(s, s', id) && AddedMarks(s, s', id) == []
         && (id in s'.pumps <==> id in s.pumps) && (id in s.pumps ==> s'.pumps[id] == s.pumps[id])
       case Opens =>
         && id !in s.pumps && AddedMarks(s, s', id) == [Accepted] && id in s'.pumps
         && s'.pumps[id] == Pump([], 0, Pulling, false, false) && !s'.phase.Joining?
       case Pulls(e) =>
         && SameStanding(s, s', id) && id in s.pumps && id in s'.pumps && s.pumps[id].status.Pulling?
         && var p, p' := s.pumps[id], s'.pumps[id];
            && p'.pulled == p.pulled + [e] && p'.closed == p.closed
            && ( || (p'.sent == p.sent + 1 && p'.status.Pulling? && AddedMarks(s, s', id) == [Event(e)])
                 || (p'.sent == p.sent && p'.status.Reporting? && AddedMarks(s, s', id) == []))
       case Moves =>
         && SameStanding(s, s', id) && AddedMarks(s, s', id) == [] && id in s.pumps && id in s'.pumps
         && var p, p' := s.pumps[id], s'.pumps[id];
            && p'.pulled == p.pulled && p'.sent == p.sent && p'.closed == p.closed
            && (p'.status == p.status || (!p.status.Stopped? && !p'.status.Pulling?))
       case Closes =>
         && id in s.pumps && id in s'.pumps && s.phase.Joining? && s.phase.sub == id && s.pumps[id].status.Stopped?
         && s'.pumps[id] == s.pumps[id].(closed := true) && AddedMarks(s, s', id) == [Closed]
         && id !in s'.live && !s'.phase.Joining?
  }

  lemma {:induction false} MarksGrow(s: State, s': State, id: SubId)
    requires Grew(s.out.queue, s'.out.queue)
    ensures Marks(s'.out.queue, id) == Marks(s.out.queue, id) + AddedMarks(s, s', id)
  {
    var added := Added(s.out.queue, s'.out.queue);
    if added != [] {
      assert s'.out.queue[..|s.out.queue|] == s.out.queue;
    } else {
      assert s'.out.queue == s.out.queue;
    }
  }

  lemma {:induction false} PullExtends(p: Pump, p': Pump, e: SourceEvent)
    requires p.sent == |p.pulled| && !p.closed && !p'.closed && p'.pulled == p.pulled + [e]
    requires p'.sent == p.sent || p'.sent == p.sent + 1
    ensures Expected(p') == if p'.sent == p.sent then Expected(p) else Expected(p) + [Event(e)]
  {
    assert p'.pulled[..p.sent] == p.pulled[..p.sent];
    if p'.sent == p.sent + 1 {
      assert Events(p'.pulled[..p'.sent]) == Events(p.pulled[..p.sent]) + [Event(e)];
    }
  }

  lemma {:induction false} SubKept(s: State, s': State, id: SubId, change: Change)
    requires SubHolds(s, id) && SubStep(s, s', id, change)
    ensures SubHolds(s', id)
  {
    MarksGrow(s, s', id);
    match change
    case Nothing => assert Marks(s.out.queue, id) + [] == Marks(s.out.queue, id);
    case Moves => assert Marks(s.out.queue, id) + [] == Marks(s.out.queue, id);
    case Opens => assert Events([]) == [];
    case Pulls(e) =>
      PullExtends(s.pumps[id], s'.pumps[id], e);
      assert Marks(s.out.queue, id) + [] == Marks(s.out.queue, id);
    case Closes =>
  }

  // Every step is one of these changes, for every subscription.

  lemma {:induction false} SubscribeIsSubStep(cfg: Config, s: State, m: Inbound, id: SubId) returns (change: Change)
    requires s.phase.Looping? && m.Subscribe? && (id in s.live ==> id in s.pumps)
    requires m.source.Some? ==> m.source.value in s.live || m.source.value !in s.pumps
    ensures SubStep(s, AfterInbound(HandleSubscribe(cfg, s, m)), id, change)
  {
    change := if id in HandleSubscribe(cfg, s, m).state.pumps && id !in s.pumps then Opens else Nothing;
  }

  lemma {:induction false} UnsubscribeIsSubStep(cfg: Config, s: State, m: Inbound, id: SubId) returns (change: Change)
    requires s.phase.Looping? && m.Unsubscribe?
    ensures SubStep(s, AfterInbound(HandleUnsubscribe(cfg, s, m)), id, change)
  {
    change := if m.sub == id && id in s.pumps then Moves else Nothing;
  }

  lemma {:induction false} QueryIsSubStep(cfg: Config, s: State, m: Inbound, id: SubId)
    requires s.phase.Looping? && m.QueryMessage?
    ensures SubStep(s, AfterInbound(HandleQuery(cfg, s, m)), id, Nothing)
  {
  }

  lemma {:induction false} InboundIsSubStep(cfg: Config, s: State, m: Inbound, id: SubId) returns (change: Change)
    requires s.phase.Looping? && (id in s.live ==> id in s.pumps)
    requires m.Subscribe? && m.source.Some? ==> m.source.value in s.live || m.source.value !in s.pumps
    ensures SubStep(s, AfterInbound(HandleInbound(cfg, s, m)), id, change)
  {
    match m
    case Subscribe(_, _, _) => change := SubscribeIsSubStep(cfg, s, m, id);
    case Unsubscribe(_, _) => change := UnsubscribeIsSubStep(cfg, s, m, id);
    case QueryMessage(_, _, _) => QueryIsSubStep(cfg, s, m, id); change := Nothing;
    case _ => change := Nothing;
  }

  lemma {:induction false} ReplyIsSubStep(cfg: Config, s: State, r: Report, id: SubId)
    requires s.phase.Looping? && (r.ActionCompleted? || r.QueryCompleted?)
    ensures SubStep(s, if r.ActionCompleted? then ReplyToAction(cfg, s, r) else ReplyToQuery(cfg, s, r), id, Nothing)
  {
  }

  lemma {:induction false} FollowIsSubStep(cfg: Config, s: State, r: Report, id: SubId) returns (change: Change)
    requires s.phase.Looping? && !r.ActionCompleted? && !r.QueryCompleted?
    ensures SubStep(s, FollowReport(cfg, s, r), id, change)
  {
    change := if (r.SubscriptionFinished? || r.EventSourceFailed?) && r.sub == id && id in s.pumps then Moves else Nothing;
  }

  lemma {:induction false} ReportIsSubStep(cfg: Config, s: State, id: SubId) returns (change: Change)
    requires s.phase.Looping? && s.reports != []
    ensures SubStep(s, TakeReport(cfg, s), id, change)
  {
    var r, rest := s.reports[0], s.(reports := s.reports[1..]);
    if r.ActionCompleted? || r.QueryCompleted? {
      ReplyIsSubStep(cfg, rest, r, id);
      change := Nothing;
    } else {
      change := FollowIsSubStep(cfg, rest, r, id);
    }
  }

  lemma {:induction false} InputIsSubStep(cfg: Config, s: State, step: Step, id: SubId)
    requires Enabled(cfg, s, step) && IsInput(step)
    ensures SubStep(s, InputStep(cfg, s, step), id, Nothing)
  {
  }

  lemma {:induction false} ControlIsSubStep(cfg: Config, s: State, step: Step, id: SubId) returns (change: Change)
    requires Enabled(cfg, s, step) && IsControl(step)
    requires s.phase.Joining? ==> s.phase.sub !in s.live
    ensures SubStep(s, ControlStep(cfg, s, step), id, change)
  {
    change := if step.PumpJoined? && s.phase.sub == id && s.phase.notify && HasRoom(cfg, s.out) then Closes else Nothing;
  }

  lemma {:induction false} OtherPumpIsSubStep(cfg: Config, s: State, step: Step, id: SubId)
    requires Enabled(cfg, s, step) && IsPumpStep(step) && step.sub != id
    requires s.phase.Joining? ==> s.phase.sub !in s.live
    ensures SubStep(s, PumpStep(cfg, s, step), id, Nothing)
  {
  }

  lemma {:induction false} PullIsSubStep(cfg: Config, s: State, step: Step)
    requires Enabled(cfg, s, step) && step.PullEvent?
    requires s.phase.Joining? ==> s.phase.sub !in s.live
    ensures SubStep(s, PumpStep(cfg, s, step), step.sub, Pulls(step.event))
  {
  }

  lemma {:induction false} PumpIsSubStep(cfg: Config, s: State, step: Step, id: SubId) returns (change: Change)
    requires Enabled(cfg, s, step) && IsPumpStep(step)
    requires s.phase.Joining? ==> s.phase.sub !in s.live
    ensures SubStep(s, PumpStep(cfg, s, step), id, change)
  {
    if step.sub != id {
      OtherPumpIsSubStep(cfg, s, step, id);
      change := Nothing;
    } else if step.PullEvent? {
      PullIsSubStep(cfg, s, step);
      change := Pulls(step.event);
    } else {
      change := Moves;
    }
  }

  lemma {:induction false} TaskIsSubStep(cfg: Config, s: State, step: Step, id: SubId)
    requires Enabled(cfg, s, step) && IsQuietTask(step)
    requires s.phase.Joining? ==> s.phase.sub !in s.live
    ensures SubStep(s, TaskStep(cfg, s, step), id, Nothing)
  {
    assert TaskStep(cfg, s, step).out.queue == s.out.queue;
  }

  ghost predicate AllSubsHold(s: State) {
    forall id :: SubHolds(s, id)
  }

  lemma {:induction false} StepIsSubStep(cfg: Config, s: State, step: Step, id: SubId) returns (change: Change)
    requires Enabled(cfg, s, step) && SubHolds(s, id)
    requires s.phase.Joining? ==> s.phase.sub !in s.live
    ensures SubStep(s, Next(cfg, s, step), id, change)
  {
    if step.Receive? {
      change := InboundIsSubStep(cfg, s, step.message, id);
    } else if step.HandleReport? {
      change := ReportIsSubStep(cfg, s, id);
    } else if IsInput(step) {
      InputIsSubStep(cfg, s, step, id);
      change := Nothing;
    } else if IsControl(step) {
      change := ControlIsSubStep(cfg, s, step, id);
    } else if IsPumpStep(step) {
      change := PumpIsSubStep(cfg, s, step, id);
    } else {
      TaskIsSubStep(cfg, s, step, id);
      change := Nothing;
    }
  }

  lemma {:induction false} RunsKeepSubs(cfg: Config, run: seq<Step>)
    requires Exec(cfg, run).Some?
    ensures AllSubsHold(Exec(cfg, run).value)
    decreases |run|
  {
    if run != [] {
      var n := |run| - 1;
      RunsKeepSubs(cfg, run[..n]);
      var before, after := Exec(cfg, run[..n]).value, Exec(cfg, run).value;
      assert before.phase.Joining? ==> SubHolds(before, before.phase.sub);
      forall id ensures SubHolds(after, id) {
        assert SubHolds(before, id);
        var change := StepIsSubStep(cfg, before, run[n], id);
        SubKept(before, after, id, change);
      }
    }
  }

  /**
   * In every state of every run the outbound queue holds, for each subscription: nothing,
   * or Accepted, then events forming a gap-free prefix of what its source yielded, then at
   * most one Closed, with no event of that subscription after it.
   */
  lemma {:induction false} SubscriptionsStayInOrder(cfg: Config, states: seq<State>, steps: seq<Step>, i: nat, id: SubId)
    requires IsRun(cfg, states, steps) && i < |states|
    ensures var s := states[i]; var marks := Marks(s.out.queue, id);
            || marks == []
            || (&& id in s.pumps
                && exists n :: 0 <= n <= |s.pumps[id].pulled|
                               && (|| marks == [Accepted] + Events(s.pumps[id].pulled[..n])
                                   || marks == [Accepted] + Events(s.pumps[id].pulled[..n]) + [Closed]))
  {
    RunReaches(cfg, states, steps, i);
    RunsKeepSubs(cfg, steps[..i]);
    var s := states[i];
    assert SubHolds(s, id);
    if id in s.pumps {
      var p := s.pumps[id];
      assert Expected(p) == [Accepted] + Events(p.pulled[..p.sent]) + if p.closed then [Closed] else [];
    }
  }
}
