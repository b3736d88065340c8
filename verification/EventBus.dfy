/**
 * The in-memory event bus: one bounded queue per subscription, filled by publishers
 * and drained by its consumer, with a counter for what did not fit.
 */
module EventBus {
  import opened Prelude
  import opened ProtocolEvents

  /** How one `next_event` call came out; an abandoned call is one whose future was dropped while waiting. */
  datatype Call = Received(event: Event) | Lagged(missed: u64) | EndOfStream | RefusedClosed | Abandoned

  /**
   * One subscription: channel, lag counter and consumer flags, with the history the
   * claims speak of. `offered` lists the matching publishes in the order they reached
   * this queue, and `kept` the positions of those that were not dropped.
   */
  datatype Subscription = Subscription(
    queue: seq<Event>, lagged: u64, uncounted: nat, closed: bool, receiveAfterLag: bool, receiving: bool,
    offered: seq<Event>, kept: seq<nat>, received: seq<Event>, reported: nat, calls: seq<Call>)

  const FRESH := Subscription([], 0, 0, false, false, false, [], [], [], 0, [])

  /** `try_send` on an open channel: a full queue drops the event, not yet counted. */
  function TrySend(capacity: nat, s: Subscription, e: Event): Subscription {
    var offered := s.(offered := s.offered + [e]);
    if |s.queue| < capacity
    then offered.(queue := s.queue + [e], kept := s.kept + [|s.offered|])
    else offered.(uncounted := s.uncounted + 1)
  }

  /** The `fetch_update` that follows a failed `try_send`. */
  function CountDrop(s: Subscription): Subscription
    requires s.uncounted > 0
  {
    s.(uncounted := s.uncounted - 1, lagged := SaturatingAdd(s.lagged, 1))
  }

  /** A publisher's delivery with the failed send and its count taken as one. */
  function Offer(capacity: nat, s: Subscription, e: Event): Subscription {
    var sent := TrySend(capacity, s, e);
    if sent.uncounted > s.uncounted then CountDrop(sent) else sent
  }

  /** `next_event` up to the point where it reports lag or starts to receive. */
  function BeginCall(s: Subscription): Subscription {
    if s.closed then s.(calls := s.calls + [RefusedClosed])
    else if !s.receiveAfterLag && s.lagged > 0 then
      s.(lagged := 0, receiveAfterLag := true, reported := s.reported + s.lagged, calls := s.calls + [Lagged(s.lagged)])
    else s.(receiveAfterLag := false, receiving := true)
  }

  /** `recv` yields the oldest queued event. */
  function Deliver(s: Subscription): Subscription
    requires s.queue != []
  {
    s.(queue := s.queue[1..], received := s.received + [s.queue[0]], receiving := false, calls := s.calls + [Received(s.queue[0])])
  }

  datatype Step =
    | SendStep(event: Event)
    | CountStep
    | OfferStep(event: Event)
    | CallStep
    | DeliverStep
    | EndStep
    | AbandonStep
    | CloseStep

  predicate Enabled(s: Subscription, step: Step) {
    match step
    case SendStep(_) => !s.closed
    case OfferStep(_) => !s.closed
    case CountStep => s.uncounted > 0
    case CallStep => !s.receiving
    case DeliverStep => s.receiving && s.queue != []
    case EndStep => s.receiving && s.queue == []
    case AbandonStep => s.receiving
    case CloseStep => !s.receiving
  }

  function Next(capacity: nat, s: Subscription, step: Step): Subscription
    requires Enabled(s, step)
  {
    match step
    case SendStep(e) => TrySend(capacity, s, e)
    case CountStep => CountDrop(s)
    case OfferStep(e) => Offer(capacity, s, e)
    case CallStep => BeginCall(s)
    case DeliverStep => Deliver(s)
    case EndStep => s.(receiving := false, calls := s.calls + [EndOfStream])
    case AbandonStep => s.(receiving := false, calls := s.calls + [Abandoned])
    case CloseStep => s.(closed := true)
  }

  /** The subscription after any interleaving of publishers' and consumer's steps. */
  function Exec(capacity: nat, run: seq<Step>): Option<Subscription> {
    if run == [] then Some(FRESH) else
    var before := Exec(capacity, run[..|run| - 1]);
    if before.Some? && Enabled(before.value, run[|run| - 1]) then Some(Next(capacity, before.value, run[|run| - 1])) else None
  }

  // ---------------------------------------------------------------------------
  // Conservation and order.

  /** `positions` picks out of `all`, left to right, exactly `picked`. */
  ghost predicate Picks(all: seq<Event>, positions: seq<nat>, picked: seq<Event>) {
    && |positions| == |picked|
    && (forall i, j :: 0 <= i < j < |positions| ==> positions[i] < positions[j])
    && (forall i :: 0 <= i < |positions| ==> positions[i] < |all| && picked[i] == all[positions[i]])
  }

  ghost predicate Accounted(capacity: nat, s: Subscription) {
    && |s.queue| <= capacity
    && Picks(s.offered, s.kept, s.received + s.queue)
    && (|s.offered| <= U64_MAX ==> |s.offered| == |s.received| + |s.queue| + s.reported + s.lagged + s.uncounted)
  }

  lemma {:induction false} PicksOneMore(all: seq<Event>, positions: seq<nat>, picked: seq<Event>, e: Event)
    requires Picks(all, positions, picked)
    ensures Picks(all + [e], positions, picked) && Picks(all + [e], positions + [|all|], picked + [e])
  {
    assert forall i :: 0 <= i < |positions| ==> (all + [e])[positions[i]] == all[positions[i]];
  }

  lemma {:induction false} SendAccounted(capacity: nat, s: Subscription, e: Event)
    requires Accounted(capacity, s)
    ensures Accounted(capacity, TrySend(capacity, s, e))
  {
    PicksOneMore(s.offered, s.kept, s.received + s.queue, e);
    assert s.received + (s.queue + [e]) == (s.received + s.queue) + [e];
  }

  lemma {:induction false} CountAccounted(capacity: nat, s: Subscription)
    requires Accounted(capacity, s) && s.uncounted > 0
    ensures Accounted(capacity, CountDrop(s))
  {
  }

  lemma {:induction false} AccountedKept(capacity: nat, s: Subscription, step: Step)
    requires Accounted(capacity, s) && Enabled(s, step)
    ensures Accounted(capacity, Next(capacity, s, step))
  {
    match step
    case SendStep(e) => SendAccounted(capacity, s, e);
    case OfferStep(e) =>
      SendAccounted(capacity, s, e);
      var sent := TrySend(capacity, s, e);
      if sent.uncounted > s.uncounted {
        CountAccounted(capacity, sent);
      }
    case CountStep => CountAccounted(capacity, s);
    case DeliverStep => assert (s.received + [s.queue[0]]) + s.queue[1..] == s.received + s.queue;
    case _ =>
  }

  /**
   * In every run, matching publishes = received + queued + reported missed + current lag
   * + drops not yet counted (until 2^64 of them); what was received, then queued, is a
   * subsequence of the publishes in send order; the queue stays within its capacity.
   */
  lemma {:induction false} EveryPublishAccounted(capacity: nat, run: seq<Step>)
    requires Exec(capacity, run).Some?
    ensures Accounted(capacity, Exec(capacity, run).value)
    decreases |run|
  {
    if run != [] {
      var n := |run| - 1;
      EveryPublishAccounted(capacity, run[..n]);
      AccountedKept(capacity, Exec(capacity, run[..n]).value, run[n]);
    }
  }

  // ---------------------------------------------------------------------------
  // What the consumer's calls said.

  function EventsOf(calls: seq<Call>): seq<Event> {
    if calls == [] then [] else
    EventsOf(calls[..|calls| - 1]) + if calls[|calls| - 1].Received? then [calls[|calls| - 1].event] else []
  }

  function MissedIn(calls: seq<Call>): nat {
    if calls == [] then 0 else
    MissedIn(calls[..|calls| - 1]) + if calls[|calls| - 1].Lagged? then calls[|calls| - 1].missed else 0
  }

  /** The calls returned exactly what was received and reported, and a report is never of nothing. */
  ghost predicate CallsTell(s: Subscription) {
    && EventsOf(s.calls) == s.received && MissedIn(s.calls) == s.reported
    && forall i :: 0 <= i < |s.calls| && s.calls[i].Lagged? ==> s.calls[i].missed > 0
  }

  lemma {:induction false} OneMoreCall(calls: seq<Call>, c: Call)
    ensures EventsOf(calls + [c]) == EventsOf(calls) + (if c.Received? then [c.event] else [])
    ensures MissedIn(calls + [c]) == MissedIn(calls) + if c.Lagged? then c.missed else 0
  {
    assert (calls + [c])[..|calls|] == calls;
  }

  lemma {:induction false} TellingOneMore(s: Subscription, s': Subscription, c: Call)
    requires CallsTell(s) && s'.calls == s.calls + [c] && (c.Lagged? ==> c.missed > 0)
    requires s'.received == s.received + (if c.Received? then [c.event] else [])
    requires s'.reported == s.reported + (if c.Lagged? then c.missed else 0)
    ensures CallsTell(s')
  {
    OneMoreCall(s.calls, c);
  }

  lemma {:induction false} CallsKeepTelling(capacity: nat, s: Subscription, step: Step)
    requires CallsTell(s) && Enabled(s, step)
    ensures CallsTell(Next(capacity, s, step))
  {
    var s' := Next(capacity, s, step);
    assert s.received + [] == s.received;
    match step
    case CallStep =>
      if s.closed {
        TellingOneMore(s, s', RefusedClosed);
      } else if !s.receiveAfterLag && s.lagged > 0 {
        TellingOneMore(s, s', Lagged(s.lagged));
      }
    case DeliverStep => TellingOneMore(s, s', Received(s.queue[0]));
    case EndStep => TellingOneMore(s, s', EndOfStream);
    case AbandonStep => TellingOneMore(s, s', Abandoned);
    case _ =>
  }

  /** In every run the events returned are those received, in order, and the reported misses add up. */
  lemma {:induction false} CallsTellEverything(capacity: nat, run: seq<Step>)
    requires Exec(capacity, run).Some?
    ensures CallsTell(Exec(capacity, run).value)
    decreases |run|
  {
    if run != [] {
      var n := |run| - 1;
      CallsTellEverything(capacity, run[..n]);
      CallsKeepTelling(capacity, Exec(capacity, run[..n]).value, run[n]);
    }
  }

  /** An event is dropped only when the queue is full, and a count adds one, stopping at the largest u64. */
  lemma {:induction false} DropsOnlyWhenFull(capacity: nat, s: Subscription, e: Event)
    requires |s.queue| <= capacity
    ensures var sent := TrySend(capacity, s, e);
            if |s.queue| == capacity then sent.queue == s.queue && sent.uncounted == s.uncounted + 1
            else sent.queue == s.queue + [e] && sent.uncounted == s.uncounted
    ensures s.uncounted > 0 ==> CountDrop(s).lagged == if s.lagged == 0xFFFF_FFFF_FFFF_FFFF then s.lagged else s.lagged + 1
  {
  }

  // ---------------------------------------------------------------------------
  // Before the first lag report.

  predicate ReportedLag(s: Subscription) {
    exists i :: 0 <= i < |s.calls| && s.calls[i].Lagged?
  }

  /** A call starting here can tell whether something was dropped: a drop is counted, or there is none. */
  predicate SeesDrops(s: Subscription) {
    s.closed || s.lagged > 0 || s.uncounted == 0
  }

  /** Every call does; so it is whenever a failed send and its count are one step. */
  ghost predicate CallsSeeDrops(capacity: nat, run: seq<Step>) {
    forall i :: 0 <= i < |run| && run[i].CallStep? && Exec(capacity, run[..i]).Some? ==> SeesDrops(Exec(capacity, run[..i]).value)
  }

  /** The first n kept publishes are the first n publishes. */
  predicate KeptFirst(s: Subscription, n: nat) {
    n <= |s.kept| && forall i :: 0 <= i < n ==> s.kept[i] == i
  }

  /**
   * While no lag has been reported: with no drop outstanding nothing at all is missing;
   * with one, what was received is gap-free, and so is the one event a call already
   * waiting may still take, because the queue was full when the drop happened.
   */
  ghost predicate Contiguous(s: Subscription) {
    if s.lagged == 0 && s.uncounted == 0
    then KeptFirst(s, |s.kept|) && |s.kept| == |s.offered|
    else KeptFirst(s, if s.receiving then |s.received| + 1 else |s.received|)
  }

  lemma {:induction false} ContiguousKept(capacity: nat, s: Subscription, step: Step)
    requires capacity > 0 && Accounted(capacity, s) && Contiguous(s) && Enabled(s, step)
    requires step.CallStep? ==> s.closed || (s.uncounted == 0 && s.lagged == 0)
    requires !s.receiveAfterLag
    ensures Contiguous(Next(capacity, s, step)) && !Next(capacity, s, step).receiveAfterLag
  {
    assert |s.kept| == |s.received| + |s.queue|;
  }

  lemma {:induction false} LaggedCallReports(s: Subscription)
    ensures !s.closed && !s.receiveAfterLag && s.lagged > 0 ==> ReportedLag(BeginCall(s))
  {
    if !s.closed && !s.receiveAfterLag && s.lagged > 0 {
      assert BeginCall(s).calls[|s.calls|].Lagged?;
    }
  }

  lemma {:induction false} ContiguousUntilReport(capacity: nat, run: seq<Step>)
    requires capacity > 0 && CallsSeeDrops(capacity, run)
    requires Exec(capacity, run).Some? && !ReportedLag(Exec(capacity, run).value)
    ensures Contiguous(Exec(capacity, run).value) && !Exec(capacity, run).value.receiveAfterLag
    decreases |run|
  {
    if run != [] {
      var n := |run| - 1;
      var before, after := Exec(capacity, run[..n]).value, Exec(capacity, run).value;
      assert before.calls <= after.calls;
      forall i | 0 <= i < n && run[..n][i].CallStep? && Exec(capacity, run[..n][..i]).Some?
        ensures SeesDrops(Exec(capacity, run[..n][..i]).value)
      {
        assert run[..n][..i] == run[..i] && run[i].CallStep?;
      }
      ContiguousUntilReport(capacity, run[..n]);
      EveryPublishAccounted(capacity, run[..n]);
      LaggedCallReports(before);
      ContiguousKept(capacity, before, run[n]);
    }
  }

  /**
   * Everything received before the first lag report is a gap-free prefix of the matching
   * publishes, provided no call starts while the only drops are uncounted ones.
   */
  lemma {:induction false} GapFreeUntilReport(capacity: nat, run: seq<Step>)
    requires capacity > 0 && CallsSeeDrops(capacity, run)
    requires Exec(capacity, run).Some? && !ReportedLag(Exec(capacity, run).value)
    ensures Exec(capacity, run).value.received <= Exec(capacity, run).value.offered
  {
    ContiguousUntilReport(capacity, run);
    EveryPublishAccounted(capacity, run);
    var s := Exec(capacity, run).value;
    forall i | 0 <= i < |s.received| ensures i < |s.offered| && s.received[i] == s.offered[i] {
      assert (s.received + s.queue)[i] == s.received[i] && s.kept[i] == i;
    }
    assert |s.received| <= |s.offered| by {
      if s.received != [] {
        assert s.kept[|s.received| - 1] < |s.offered|;
      }
    }
  }

  /** Runs in which publishers deliver and count in one step meet that proviso. */
  lemma {:induction false} AtomicOffersAreSeen(capacity: nat, run: seq<Step>)
    requires forall i :: 0 <= i < |run| ==> !run[i].SendStep? && !run[i].CountStep?
    ensures CallsSeeDrops(capacity, run)
    ensures Exec(capacity, run).Some? ==> Exec(capacity, run).value.uncounted == 0
    decreases |run|
  {
    if run != [] {
      var n := |run| - 1;
      AtomicOffersAreSeen(capacity, run[..n]);
      forall i | 0 <= i < |run| && run[i].CallStep? && Exec(capacity, run[..i]).Some?
        ensures SeesDrops(Exec(capacity, run[..i]).value)
      {
        if i < n {
          assert run[..n][..i] == run[..i] && run[..n][i].CallStep?;
        }
      }
    }
  }

  // ---------------------------------------------------------------------------
  // Lag reports never follow each other directly.

  /** No two adjacent calls both reported lag, and exactly after a report the next call skips the check. */
  ghost predicate ReportsSpaced(s: Subscription) {
    && (s.receiveAfterLag && !s.closed ==> !s.receiving && s.calls != [] && s.calls[|s.calls| - 1].Lagged?)
    && (s.calls != [] && s.calls[|s.calls| - 1].Lagged? ==> s.receiveAfterLag || s.receiving)
    && (forall i :: 0 <= i < |s.calls| - 1 ==> !(s.calls[i].Lagged? && s.calls[i + 1].Lagged?))
  }

  lemma {:induction false} SpacedKept(capacity: nat, s: Subscription, step: Step)
    requires ReportsSpaced(s) && Enabled(s, step)
    ensures ReportsSpaced(Next(capacity, s, step))
  {
    var s' := Next(capacity, s, step);
    assert s'.calls == s.calls || (|s'.calls| == |s.calls| + 1 && s'.calls[..|s.calls|] == s.calls);
    forall i | 0 <= i < |s'.calls| - 1 ensures !(s'.calls[i].Lagged? && s'.calls[i + 1].Lagged?) {
      assert s'.calls[i] == s.calls[i];
      assert i + 1 < |s.calls| ==> s'.calls[i + 1] == s.calls[i + 1];
    }
  }

  /** In every run, two calls in a row never both report lag. */
  lemma {:induction false} NoTwoReportsInARow(capacity: nat, run: seq<Step>)
    requires Exec(capacity, run).Some?
    ensures ReportsSpaced(Exec(capacity, run).value)
    decreases |run|
  {
    if run != [] {
      var n := |run| - 1;
      NoTwoReportsInARow(capacity, run[..n]);
      SpacedKept(capacity, Exec(capacity, run[..n]).value, run[n]);
    }
  }

  /** Two completed calls can only both report lag with a call abandoned between them. */
  lemma {:induction false} ConsecutiveReportsNeedAbandonedCall(capacity: nat, run: seq<Step>, i: nat, j: nat)
    requires Exec(capacity, run).Some? && i < j < |Exec(capacity, run).value.calls|
    requires var calls := Exec(capacity, run).value.calls;
             calls[i].Lagged? && calls[j].Lagged? && forall m :: i < m < j ==> calls[m].Abandoned?
    ensures i + 1 < j
  {
    NoTwoReportsInARow(capacity, run);
  }

  /**
   * After a report, with only abandoned calls since, the next call on an open
   * subscription reports lag again exactly when there is some and a call was abandoned.
   */
  lemma {:induction false} ReportsAgainExactlyAfterAbandonedCall(capacity: nat, run: seq<Step>, i: nat)
    requires Exec(capacity, run).Some? && i < |Exec(capacity, run).value.calls|
    requires var s := Exec(capacity, run).value;
             && !s.receiving && !s.closed && s.calls[i].Lagged?
             && forall m :: i < m < |s.calls| ==> s.calls[m].Abandoned?
    ensures var s := Exec(capacity, run).value;
            BeginCall(s).calls == s.calls + [Lagged(s.lagged)] <==> s.lagged > 0 && i + 1 < |s.calls|
  {
    NoTwoReportsInARow(capacity, run);
  }

  // ---------------------------------------------------------------------------
  // Where the claims stop.

  lemma {:induction false} ExecOneMore(capacity: nat, run: seq<Step>, step: Step)
    requires Exec(capacity, run).Some? && Enabled(Exec(capacity, run).value, step)
    ensures Exec(capacity, run + [step]) == Some(Next(capacity, Exec(capacity, run).value, step))
  {
    assert (run + [step])[..|run|] == run;
  }

  lemma {:induction false} Add(capacity: nat, run: seq<Step>, step: Step) returns (longer: seq<Step>)
    requires Exec(capacity, run).Some? && Enabled(Exec(capacity, run).value, step)
    ensures Exec(capacity, longer) == Some(Next(capacity, Exec(capacity, run).value, step))
  {
    ExecOneMore(capacity, run, step);
    longer := run + [step];
  }

  /** A consumer that has been told of no lag. */
  predicate Unwarned(s: Subscription) {
    !s.closed && !s.receiving && !s.receiveAfterLag && s.lagged == 0 && !ReportedLag(s)
  }

  /** One call that takes the oldest event. */
  lemma {:induction false} TakeOne(capacity: nat, run: seq<Step>)
    requires Exec(capacity, run).Some? && Unwarned(Exec(capacity, run).value) && Exec(capacity, run).value.queue != []
    ensures Exec(capacity, run + [CallStep] + [DeliverStep]).Some?
    ensures var s, s' := Exec(capacity, run).value, Exec(capacity, run + [CallStep] + [DeliverStep]).value;
            && s' == s.(queue := s.queue[1..], received := s.received + [s.queue[0]], calls := s'.calls) && Unwarned(s')
  {
    ExecOneMore(capacity, run, CallStep);
    ExecOneMore(capacity, run + [CallStep], DeliverStep);
  }

  lemma {:induction false} DrainQueue(capacity: nat, run: seq<Step>) returns (longer: seq<Step>)
    requires Exec(capacity, run).Some? && Unwarned(Exec(capacity, run).value)
    ensures run <= longer && Exec(capacity, longer).Some?
    ensures var s, s' := Exec(capacity, run).value, Exec(capacity, longer).value;
            && s' == s.(queue := [], received := s.received + s.queue, calls := s'.calls) && Unwarned(s')
    decreases |Exec(capacity, run).value.queue|
  {
    var s := Exec(capacity, run).value;
    if s.queue == [] {
      longer := run;
      assert s.received + s.queue == s.received;
    } else {
      TakeOne(capacity, run);
      longer := DrainQueue(capacity, run + [CallStep] + [DeliverStep]);
      assert s.received + s.queue == (s.received + [s.queue[0]]) + s.queue[1..];
    }
  }

  /**
   * The proviso is needed everywhere: from any reachable state in which a call would start
   * without seeing the drops, some continuation delivers past a gap without a report.
   */
  lemma {:induction false} UnseenDropCanHideGap(capacity: nat, run: seq<Step>, c: Event) returns (longer: seq<Step>)
    requires capacity > 0 && Exec(capacity, run).Some? && Unwarned(Exec(capacity, run).value)
    requires !SeesDrops(Exec(capacity, run).value) && |Exec(capacity, run).value.offered| <= U64_MAX
    requires var s := Exec(capacity, run).value; |s.kept| < |s.offered| ==> c != s.offered[|s.kept|]
    ensures run <= longer && Exec(capacity, longer).Some? && !ReportedLag(Exec(capacity, longer).value)
    ensures var s, s' := Exec(capacity, run).value, Exec(capacity, longer).value;
            s'.offered == s.offered + [c] && s'.received == s.received + s.queue + [c] && !(s'.received <= s'.offered)
  {
    var s := Exec(capacity, run).value;
    EveryPublishAccounted(capacity, run);
    longer := DrainQueue(capacity, run);
    ExecOneMore(capacity, longer, SendStep(c));
    longer := longer + [SendStep(c)];
    TakeOne(capacity, longer);
    longer := longer + [CallStep] + [DeliverStep];
    var s' := Exec(capacity, longer).value;
    assert s'.received == s.received + s.queue + [c] && s'.offered == s.offered + [c];
    assert s'.received[|s.kept|] == c && s'.offered[|s.kept|] == s.offered[|s.kept|];
  }

  /**
   * With the failed send and its count as two steps, a call in between hides the gap:
   * the consumer receives a then c, never having been told of b.
   */
  lemma {:induction false} UncountedDropHidesGap(a: Event, b: Event, c: Event) returns (run: seq<Step>)
    requires b != c
    ensures Exec(1, run).Some? && !ReportedLag(Exec(1, run).value) && !CallsSeeDrops(1, run)
    ensures Exec(1, run).value.offered == [a, b, c] && Exec(1, run).value.received == [a, c]
    ensures !(Exec(1, run).value.received <= Exec(1, run).value.offered)
  {
    var start := [SendStep(a)] + [SendStep(b)];
    assert Exec(1, []) == Some(FRESH) && [] + [SendStep(a)] == [SendStep(a)];
    ExecOneMore(1, [], SendStep(a));
    ExecOneMore(1, [SendStep(a)], SendStep(b));
    run := UnseenDropCanHideGap(1, start, c);
    if CallsSeeDrops(1, run) {
      GapFreeUntilReport(1, run);
    }
  }

  /** An idle open subscription of capacity one with one event queued. */
  predicate Idle(s: Subscription, lagged: u64, calls: seq<Call>) {
    |s.queue| == 1 && s.lagged == lagged && s.uncounted == 0 && !s.closed && !s.receiveAfterLag && !s.receiving && s.calls == calls
  }

  lemma {:induction false} OverflowOnce(e: Event) returns (run: seq<Step>)
    ensures Exec(1, run).Some? && Idle(Exec(1, run).value, 1, [])
  {
    assert Exec(1, []) == Some(FRESH);
    run := Add(1, [], OfferStep(e));
    run := Add(1, run, OfferStep(e));
  }

  lemma {:induction false} ReportThenAbandon(e: Event) returns (run: seq<Step>)
    ensures Exec(1, run).Some? && Idle(Exec(1, run).value, 0, [Lagged(1), Abandoned])
  {
    run := OverflowOnce(e);
    run := Add(1, run, CallStep);
    assert Exec(1, run).value.calls == [Lagged(1)];
    run := Add(1, run, CallStep);
    run := Add(1, run, AbandonStep);
  }

  /** An abandoned call clears the flag, so the completed calls around it can both report lag. */
  lemma {:induction false} AbandonedCallAllowsTwoReports(e: Event) returns (run: seq<Step>)
    ensures Exec(1, run).Some? && Exec(1, run).value.calls == [Lagged(1), Abandoned, Lagged(1)]
  {
    run := ReportThenAbandon(e);
    run := Add(1, run, OfferStep(e));
    run := Add(1, run, CallStep);
  }

  // ---------------------------------------------------------------------------
  // The bus.

  datatype SubscriptionId = SubscriptionId(uuid: nat)

  datatype EventFilter = EventFilter(session: Option<SessionId>, eventTypes: set<string>, actor: Option<ActorId>) {
    predicate Matches(e: Event) {
      && (session.Some? ==> session.value == e.session)
      && (eventTypes == {} || EventType(e) in eventTypes)
      && (actor.Some? ==> actor.value == e.actor)
    }

    /** Blank type names are refused. */
    predicate Valid() {
      forall t :: t in eventTypes ==> !IsBlank(t)
    }
  }

  datatype Channel = Channel(filter: EventFilter, state: Subscription)

  class MemoryEventBus {
    const capacity: nat
    var subscribers: set<SubscriptionId>
    var channels: map<SubscriptionId, Channel>

    /** Every channel is accounted for, and exactly the open ones may be registered. */
    ghost predicate Valid()
      reads this
    {
      && capacity > 0 && subscribers <= channels.Keys
      && (forall id :: id in channels ==> Accounted(capacity, channels[id].state))
      && (forall id :: id in channels && !channels[id].state.closed ==> id in subscribers)
    }

    constructor (queueCapacity: nat)
      requires queueCapacity > 0
      ensures Valid() && capacity == queueCapacity && subscribers == {} && channels == map[]
    {
      capacity := queueCapacity;
      subscribers, channels := {}, map[];
    }

    /** `subscribe`, given the freshly drawn id. */
    method Subscribe(filter: EventFilter, id: SubscriptionId) returns (ok: bool)
      requires Valid() && id !in channels
      modifies this
      ensures Valid()
      ensures ok <==> forall t :: t in filter.eventTypes ==> exists i :: 0 <= i < |t| && t[i] !in {' ', '\t', '\n', '\r'}
      ensures channels == if ok then old(channels)[id := Channel(filter, FRESH)] else old(channels)
      ensures subscribers == if ok then old(subscribers) + {id} else old(subscribers)
    {
      ok := filter.Valid();
      if ok {
        channels := channels[id := Channel(filter, FRESH)];
        subscribers := subscribers + {id};
      }
    }

    /** What one publish does to one registered channel. */
    static function Published(capacity: nat, c: Channel, e: Event): Channel {
      if c.filter.Matches(e) && !c.state.closed then c.(state := Offer(capacity, c.state, e)) else c
    }

    /** Every channel after a publish, given the registered subscriptions it visited. */
    static ghost predicate AllPublished(
      capacity: nat, before: map<SubscriptionId, Channel>, after: map<SubscriptionId, Channel>, visited: set<SubscriptionId>, e: Event)
    {
      && after.Keys == before.Keys
      && forall id :: id in after ==> after[id] == if id in visited then Published(capacity, before[id], e) else before[id]
    }

    static lemma {:induction false} AllStayAccounted(
      capacity: nat, before: map<SubscriptionId, Channel>, after: map<SubscriptionId, Channel>, visited: set<SubscriptionId>, e: Event)
      requires AllPublished(capacity, before, after, visited, e)
      requires forall id :: id in before ==> Accounted(capacity, before[id].state)
      ensures forall id :: id in after ==> Accounted(capacity, after[id].state) && after[id].state.closed == before[id].state.closed
    {
      forall id | id in after ensures Accounted(capacity, after[id].state) && after[id].state.closed == before[id].state.closed {
        PublishedAccounted(capacity, before[id], e);
      }
    }

    static lemma {:induction false} OneMorePublished(
      capacity: nat, before: map<SubscriptionId, Channel>, after: map<SubscriptionId, Channel>, visited: set<SubscriptionId>, e: Event,
      id: SubscriptionId)
      requires AllPublished(capacity, before, after, visited, e) && id in before && id !in visited
      ensures AllPublished(capacity, before, after[id := Published(capacity, before[id], e)], visited + {id}, e)
    {
    }

    /** One visit: a failed send is followed by its count; says whether the channel is closed. */
    method VisitOne(id: SubscriptionId, e: Event) returns (closed: bool)
      requires id in channels
      modifies this`channels
      ensures channels == old(channels)[id := Published(capacity, old(channels)[id], e)]
      ensures closed <==> old(channels)[id].filter.Matches(e) && old(channels)[id].state.closed
    {
      var c := channels[id];
      closed := c.filter.Matches(e) && c.state.closed;
      if c.filter.Matches(e) && !closed {
        var sent := TrySend(capacity, c.state, e);
        if sent.uncounted > c.state.uncounted {
          sent := CountDrop(sent);
        }
        channels := channels[id := c.(state := sent)];
      }
    }

    /** The pass under the read lock: each registered subscription once, in any order. */
    method VisitAll(e: Event) returns (gone: set<SubscriptionId>)
      requires subscribers <= channels.Keys
      modifies this`channels
      ensures AllPublished(capacity, old(channels), channels, subscribers, e)
      ensures forall id :: id in gone <==> id in subscribers && old(channels)[id].filter.Matches(e) && old(channels)[id].state.closed
    {
      var todo := subscribers;
      gone := {};
      ghost var before, visited := channels, {};
      while todo != {}
        invariant todo !! visited && todo + visited == subscribers <= before.Keys
        invariant AllPublished(capacity, before, channels, visited, e)
        invariant forall id :: id in gone <==> id in visited && before[id].filter.Matches(e) && before[id].state.closed
        decreases |todo|
      {
        var id :| id in todo;
        OneMorePublished(capacity, before, channels, visited, e, id);
        var closed := VisitOne(id, e);
        if closed {
          gone := gone + {id};
        }
        todo, visited := todo - {id}, visited + {id};
      }
      assert visited == subscribers;
    }

    /**
     * `publish`: every registered open subscription whose filter matches is offered the
     * event once, whatever order they are visited in; closed ones that match are dropped
     * from the registry; nobody else notices.
     */
    method Publish(e: Event)
      requires Valid()
      modifies this
      ensures Valid() && AllPublished(capacity, old(channels), channels, old(subscribers), e)
      ensures forall id :: id in channels ==>
                             var c, filter := old(channels)[id], old(channels)[id].filter;
                             var takes := && id in old(subscribers) && !c.state.closed
                                          && (filter.session.Some? ==> e.session == filter.session.value)
                                          && (filter.actor.Some? ==> e.actor == filter.actor.value)
                                          && (filter.eventTypes == {} || EventType(e) in filter.eventTypes);
                             if takes then channels[id].state.offered == c.state.offered + [e] else channels[id] == c
      ensures forall id :: id in subscribers <==>
                             && id in old(subscribers)
                             && !(old(channels)[id].filter.Matches(e) && old(channels)[id].state.closed)
    {
      var gone := VisitAll(e);
      AllStayAccounted(capacity, old(channels), channels, subscribers, e);
      subscribers := subscribers - gone;
    }

    static lemma {:induction false} PublishedAccounted(capacity: nat, c: Channel, e: Event)
      requires Accounted(capacity, c.state)
      ensures Accounted(capacity, Published(capacity, c, e).state)
      ensures Published(capacity, c, e).state.closed == c.state.closed
    {
      if c.filter.Matches(e) && !c.state.closed {
        AccountedKept(capacity, c.state, OfferStep(e));
      }
    }

    /** `next_event` up to its outcome, or to waiting on an empty queue. */
    method NextEvent(id: SubscriptionId) returns (r: Option<Call>)
      requires Valid() && id in channels && !channels[id].state.receiving
      modifies this
      ensures Valid() && subscribers == old(subscribers)
      ensures channels == old(channels)[id := old(channels)[id].(state := Called(old(channels)[id].state))]
      ensures var s := old(channels)[id].state;
              if s.closed then r == Some(RefusedClosed)
              else if s.lagged > 0 && !s.receiveAfterLag then r == Some(Lagged(s.lagged)) && channels[id].state.lagged == 0
              else r == if s.queue == [] then None else Some(Received(s.queue[0]))
      ensures r.Some? ==> channels[id].state.calls == old(channels)[id].state.calls + [r.value] && !channels[id].state.receiving
      ensures r.None? ==> channels[id].state.receiving && channels[id].state.queue == []
    {
      var c := channels[id];
      CalledAccounted(capacity, c.state);
      var state := Called(c.state);
      r := if state.receiving then None else Some(state.calls[|state.calls| - 1]);
      channels := channels[id := c.(state := state)];
    }

    /** A call, and the event it takes when one is already queued. */
    static function Called(s: Subscription): Subscription {
      var begun := BeginCall(s);
      if begun.receiving && begun.queue != [] then Deliver(begun) else begun
    }

    static lemma {:induction false} CalledAccounted(capacity: nat, s: Subscription)
      requires Accounted(capacity, s) && !s.receiving
      ensures Accounted(capacity, Called(s)) && Called(s).closed == s.closed
      ensures if Called(s).receiving then Called(s).queue == []
              else Called(s).calls != [] && Called(s).calls == s.calls + [Called(s).calls[|Called(s).calls| - 1]]
    {
      AccountedKept(capacity, s, CallStep);
      var begun := BeginCall(s);
      if begun.receiving && begun.queue != [] {
        AccountedKept(capacity, begun, DeliverStep);
      }
    }

    /** `close`: the channel refuses further sends and leaves the registry. */
    method Close(id: SubscriptionId)
      requires Valid() && id in channels && !channels[id].state.receiving
      modifies this
      ensures Valid() && id !in subscribers && subscribers >= old(subscribers) - {id}
      ensures channels == old(channels)[id := old(channels)[id].(state := old(channels)[id].state.(closed := true))]
    {
      var c := channels[id];
      channels := channels[id := c.(state := c.state.(closed := true))];
      subscribers := subscribers - {id};
    }
  }
}
