/**
 * The whole in-memory bus with concurrent publishers: each visits the registered
 * subscriptions one by one under the read lock, and a send that fails is counted in a
 * step of its own. Subscribing and leaving the registry take the write lock, so they wait
 * until nobody visits.
 */
module EventBusRuns {
  import opened Prelude
  import opened ProtocolEvents
  import opened EventBus

  type PublishId = nat

  datatype Stage = Visiting | Removing | Done

  /** One `publish` call: whom it found registered, whom it has still to visit, and the drop it has still to count. */
  datatype Publish = Publish(
    event: Event, targets: set<SubscriptionId>, todo: set<SubscriptionId>, dropping: Option<SubscriptionId>,
    gone: set<SubscriptionId>, stage: Stage)

  /** A subscription, how many publishes had begun before it, and the publishes that reached its queue, in order. */
  datatype Entry = Entry(channel: Channel, born: nat, order: seq<PublishId>)

  datatype Bus = Bus(entries: map<SubscriptionId, Entry>, registry: set<SubscriptionId>, publishes: seq<Publish>)

  const EMPTY_BUS := Bus(map[], {}, [])

  datatype BusStep =
    | SubscribeStep(id: SubscriptionId, filter: EventFilter)
    | BeginStep(event: Event)
    | VisitStep(publish: PublishId, id: SubscriptionId)
    | CountDropStep(publish: PublishId)
    | EndVisitStep(publish: PublishId)
    | RemoveStep(publish: PublishId)
    | ConsumeStep(id: SubscriptionId, step: Step)
    | DetachStep(id: SubscriptionId)

  /** Nobody holds the read lock. */
  predicate NobodyVisits(publishes: seq<Publish>) {
    forall p :: 0 <= p < |publishes| ==> !publishes[p].stage.Visiting?
  }

  predicate IsConsumer(step: Step) {
    step.CallStep? || step.DeliverStep? || step.EndStep? || step.AbandonStep? || step.CloseStep?
  }

  predicate BusEnabled(b: Bus, step: BusStep) {
    match step
    case SubscribeStep(id, filter) => filter.Valid() && id !in b.entries && NobodyVisits(b.publishes)
    case BeginStep(_) => true
    case VisitStep(p, id) =>
      && p < |b.publishes| && b.publishes[p].stage.Visiting? && b.publishes[p].dropping.None?
      && id in b.publishes[p].todo && id in b.entries
    case CountDropStep(p) => p < |b.publishes| && b.publishes[p].dropping.Some? && b.publishes[p].dropping.value in b.entries
    case EndVisitStep(p) =>
      p < |b.publishes| && b.publishes[p].stage.Visiting? && b.publishes[p].dropping.None? && b.publishes[p].todo == {}
    case RemoveStep(p) => p < |b.publishes| && b.publishes[p].stage.Removing? && NobodyVisits(b.publishes)
    case ConsumeStep(id, consumer) => id in b.entries && IsConsumer(consumer) && Enabled(b.entries[id].channel.state, consumer)
    case DetachStep(id) => id in b.entries && b.entries[id].channel.state.closed && NobodyVisits(b.publishes)
  }

  function WithState(e: Entry, s: Subscription): Entry {
    e.(channel := e.channel.(state := s))
  }

  /** A visit: skip what does not match, note what is closed, else try to send. */
  function NextVisit(capacity: nat, b: Bus, p: PublishId, id: SubscriptionId): Bus
    requires p < |b.publishes| && id in b.entries
  {
    var publish := b.publishes[p].(todo := b.publishes[p].todo - {id});
    var e := b.entries[id];
    if !e.channel.filter.Matches(publish.event) then b.(publishes := b.publishes[p := publish])
    else if e.channel.state.closed then b.(publishes := b.publishes[p := publish.(gone := publish.gone + {id})])
    else
      var sent := TrySend(capacity, e.channel.state, publish.event);
      var dropped := sent.uncounted > e.channel.state.uncounted;
      b.(entries := b.entries[id := WithState(e, sent).(order := e.order + [p])],
         publishes := b.publishes[p := publish.(dropping := if dropped then Some(id) else None)])
  }

  function BusNext(capacity: nat, b: Bus, step: BusStep): Bus
    requires BusEnabled(b, step)
  {
    match step
    case SubscribeStep(id, filter) =>
      b.(entries := b.entries[id := Entry(Channel(filter, FRESH), |b.publishes|, [])], registry := b.registry + {id})
    case BeginStep(e) => b.(publishes := b.publishes + [Publish(e, b.registry, b.registry, None, {}, Visiting)])
    case VisitStep(p, id) => NextVisit(capacity, b, p, id)
    case CountDropStep(p) =>
      var id := b.publishes[p].dropping.value;
      var s := b.entries[id].channel.state;
      b.(entries := b.entries[id := WithState(b.entries[id], if s.uncounted > 0 then CountDrop(s) else s)],
         publishes := b.publishes[p := b.publishes[p].(dropping := None)])
    case EndVisitStep(p) =>
      b.(publishes := b.publishes[p := b.publishes[p].(stage := if b.publishes[p].gone == {} then Done else Removing)])
    case RemoveStep(p) =>
      b.(registry := b.registry - b.publishes[p].gone, publishes := b.publishes[p := b.publishes[p].(stage := Done)])
    case ConsumeStep(id, consumer) =>
      b.(entries := b.entries[id := WithState(b.entries[id], Next(capacity, b.entries[id].channel.state, consumer))])
    case DetachStep(id) => b.(registry := b.registry - {id})
  }

  /** The states a bus goes through from empty on, under any interleaving of publishers and consumers. */
  ghost predicate IsBusRun(capacity: nat, buses: seq<Bus>, steps: seq<BusStep>) {
    && |buses| == |steps| + 1 && buses[0] == EMPTY_BUS
    && forall i {:trigger steps[i]} :: 0 <= i < |steps| ==> BusEnabled(buses[i], steps[i]) && buses[i + 1] == BusNext(capacity, buses[i], steps[i])
  }

  // ---------------------------------------------------------------------------
  // Who visits whom.

  predicate PublishSound(p: Publish, known: set<SubscriptionId>) {
    && p.todo <= p.targets <= known && p.gone <= p.targets - p.todo
    && (p.dropping.Some? ==> p.dropping.value in p.targets - p.todo)
    && (!p.stage.Visiting? ==> p.todo == {} && p.dropping.None?)
  }

  predicate VisitsSound(b: Bus) {
    && b.registry <= b.entries.Keys
    && forall p :: 0 <= p < |b.publishes| ==> PublishSound(b.publishes[p], b.entries.Keys)
  }

  lemma {:induction false} VisitsStaySound(capacity: nat, b: Bus, step: BusStep)
    requires VisitsSound(b) && BusEnabled(b, step)
    ensures VisitsSound(BusNext(capacity, b, step))
  {
    var b' := BusNext(capacity, b, step);
    assert b.entries.Keys <= b'.entries.Keys;
    forall p | 0 <= p < |b'.publishes| ensures PublishSound(b'.publishes[p], b'.entries.Keys) {
      assert p < |b.publishes| ==> PublishSound(b.publishes[p], b.entries.Keys);
    }
  }

  // ---------------------------------------------------------------------------
  // Each channel runs as one subscription.

  /** Some run of the single-subscription machine ends here. */
  ghost predicate Reachable(capacity: nat, s: Subscription) {
    exists run :: Exec(capacity, run) == Some(s)
  }

  lemma {:induction false} ReachableStep(capacity: nat, s: Subscription, step: Step)
    requires Reachable(capacity, s) && Enabled(s, step)
    ensures Reachable(capacity, Next(capacity, s, step))
  {
    var run :| Exec(capacity, run) == Some(s);
    ExecOneMore(capacity, run, step);
  }

  lemma {:induction false} FreshIsReachable(capacity: nat)
    ensures Reachable(capacity, FRESH)
  {
    assert Exec(capacity, []) == Some(FRESH);
  }

  ghost predicate ChannelsRun(capacity: nat, b: Bus) {
    forall id :: id in b.entries ==> Reachable(capacity, b.entries[id].channel.state)
  }

  lemma {:induction false} ChannelsKeepRunning(capacity: nat, b: Bus, step: BusStep)
    requires ChannelsRun(capacity, b) && BusEnabled(b, step)
    ensures ChannelsRun(capacity, BusNext(capacity, b, step))
  {
    FreshIsReachable(capacity);
    match step
    case VisitStep(p, id) =>
      var s := b.entries[id].channel.state;
      if !s.closed {
        ReachableStep(capacity, s, SendStep(b.publishes[p].event));
      }
    case CountDropStep(p) =>
      var s := b.entries[b.publishes[p].dropping.value].channel.state;
      if s.uncounted > 0 {
        ReachableStep(capacity, s, CountStep);
      }
    case ConsumeStep(id, consumer) => ReachableStep(capacity, b.entries[id].channel.state, consumer);
    case _ =>
  }

  // ---------------------------------------------------------------------------
  // What reached a subscription's queue.

  /** This publish has offered its event to this subscription. */
  predicate Reached(p: Publish, id: SubscriptionId, filter: EventFilter) {
    id in p.targets - p.todo && id !in p.gone && filter.Matches(p.event)
  }

  /** `offered` are the events of the publishes that reached the subscription, each once, in the order `order`. */
  ghost predicate InOrder(publishes: seq<Publish>, id: SubscriptionId, filter: EventFilter, order: seq<PublishId>, offered: seq<Event>) {
    && |offered| == |order|
    && (forall i :: 0 <= i < |order| ==> order[i] < |publishes| && offered[i] == publishes[order[i]].event)
    && (forall i, j :: 0 <= i < j < |order| ==> order[i] != order[j])
    && (forall p :: 0 <= p < |publishes| ==> (p in order <==> Reached(publishes[p], id, filter)))
  }

  ghost predicate OrderSound(b: Bus, id: SubscriptionId)
    requires id in b.entries
  {
    var e := b.entries[id];
    InOrder(b.publishes, id, e.channel.filter, e.order, e.channel.state.offered)
  }

  /** Publishes found it registered exactly from its birth on while it is open, and give it up only when closed. */
  ghost predicate BirthSound(b: Bus, id: SubscriptionId)
    requires id in b.entries
  {
    var e := b.entries[id];
    && e.born <= |b.publishes|
    && (!e.channel.state.closed ==> id in b.registry)
    && (forall p :: 0 <= p < |b.publishes| ==>
                      && (id in b.publishes[p].targets ==> e.born <= p)
                      && (!e.channel.state.closed && e.born <= p ==> id in b.publishes[p].targets)
                      && (id in b.publishes[p].gone ==> e.channel.state.closed))
  }

  /** How many publishes have still to count a drop on this subscription. */
  function Dropping(publishes: seq<Publish>, id: SubscriptionId): nat {
    if publishes == [] then 0 else
    Dropping(publishes[..|publishes| - 1], id) + DropsOn(publishes[|publishes| - 1], id)
  }

  function DropsOn(p: Publish, id: SubscriptionId): nat {
    if p.dropping == Some(id) then 1 else 0
  }

  lemma {:induction false} DroppingUpdated(publishes: seq<Publish>, p: PublishId, publish: Publish, id: SubscriptionId)
    requires p < |publishes|
    ensures Dropping(publishes[p := publish], id) + DropsOn(publishes[p], id) == Dropping(publishes, id) + DropsOn(publish, id)
    decreases |publishes|
  {
    var n := |publishes| - 1;
    if p < n {
      DroppingUpdated(publishes[..n], p, publish, id);
      assert publishes[p := publish][..n] == publishes[..n][p := publish];
    } else {
      assert publishes[p := publish][..n] == publishes[..n];
    }
  }

  lemma {:induction false} DroppingBegun(publishes: seq<Publish>, publish: Publish, id: SubscriptionId)
    ensures Dropping(publishes + [publish], id) == Dropping(publishes, id) + DropsOn(publish, id)
  {
    assert (publishes + [publish])[..|publishes|] == publishes;
  }

  lemma {:induction false} NobodyDrops(publishes: seq<Publish>, id: SubscriptionId)
    requires forall p :: 0 <= p < |publishes| ==> publishes[p].dropping != Some(id)
    ensures Dropping(publishes, id) == 0
    decreases |publishes|
  {
    if publishes != [] {
      NobodyDrops(publishes[..|publishes| - 1], id);
    }
  }

  predicate DropsSound(b: Bus, id: SubscriptionId)
    requires id in b.entries
  {
    b.entries[id].channel.state.uncounted == Dropping(b.publishes, id)
  }

  /** A consumer touches neither what was offered nor what is uncounted. */
  lemma {:induction false} ConsumerOffersNothing(capacity: nat, s: Subscription, step: Step)
    requires Enabled(s, step) && IsConsumer(step)
    ensures var s' := Next(capacity, s, step);
            s'.offered == s.offered && s'.uncounted == s.uncounted && (s.closed ==> s'.closed)
  {
  }

  // Each step, seen from one subscription.

  /** Progress that reaches nobody new leaves the order as it is. */
  lemma {:induction false} OrderStands(
    before: seq<Publish>, after: seq<Publish>, id: SubscriptionId, filter: EventFilter, order: seq<PublishId>, offered: seq<Event>)
    requires InOrder(before, id, filter, order, offered) && |before| <= |after|
    requires forall p :: 0 <= p < |before| ==>
                           after[p].event == before[p].event && (Reached(after[p], id, filter) <==> Reached(before[p], id, filter))
    requires forall p :: |before| <= p < |after| ==> after[p].todo == after[p].targets
    ensures InOrder(after, id, filter, order, offered)
  {
  }

  /** A publish that newly reaches the subscription goes to the end of the order. */
  lemma {:induction false} OrderExtends(
    publishes: seq<Publish>, p: PublishId, publish: Publish, id: SubscriptionId, filter: EventFilter, order: seq<PublishId>, offered: seq<Event>)
    requires InOrder(publishes, id, filter, order, offered) && p < |publishes| && publish.event == publishes[p].event
    requires !Reached(publishes[p], id, filter) && Reached(publish, id, filter)
    ensures InOrder(publishes[p := publish], id, filter, order + [p], offered + [publish.event])
  {
    var order' := order + [p];
    assert p !in order;
    assert forall i :: 0 <= i < |order| ==> order'[i] == order[i] && order[i] in order;
    assert forall x :: x in order' <==> x in order || x == p;
  }

  lemma {:induction false} OrderKept(capacity: nat, b: Bus, step: BusStep, id: SubscriptionId)
    requires VisitsSound(b) && BusEnabled(b, step) && id in BusNext(capacity, b, step).entries
    requires id in b.entries ==> OrderSound(b, id)
    ensures OrderSound(BusNext(capacity, b, step), id)
  {
    var b' := BusNext(capacity, b, step);
    assert forall p :: 0 <= p < |b.publishes| ==> PublishSound(b.publishes[p], b.entries.Keys);
    if step.VisitStep? && b'.entries != b.entries && step.id == id {
      var e := b.entries[id];
      OrderExtends(b.publishes, step.publish, b'.publishes[step.publish], id, e.channel.filter, e.order, e.channel.state.offered);
    } else if id in b.entries {
      if step.ConsumeStep? {
        ConsumerOffersNothing(capacity, b.entries[step.id].channel.state, step.step);
      }
      var e := b.entries[id];
      OrderStands(b.publishes, b'.publishes, id, e.channel.filter, e.order, e.channel.state.offered);
    }
  }

  lemma {:induction false} BirthKept(capacity: nat, b: Bus, step: BusStep, id: SubscriptionId)
    requires VisitsSound(b) && BusEnabled(b, step) && id in BusNext(capacity, b, step).entries
    requires id in b.entries ==> BirthSound(b, id)
    ensures BirthSound(BusNext(capacity, b, step), id)
  {
    assert forall p :: 0 <= p < |b.publishes| ==> PublishSound(b.publishes[p], b.entries.Keys);
    if step.ConsumeStep? {
      ConsumerOffersNothing(capacity, b.entries[step.id].channel.state, step.step);
    }
  }

  lemma {:induction false} PublisherKeepsDrops(capacity: nat, b: Bus, step: BusStep, id: SubscriptionId)
    requires BusEnabled(b, step) && (step.VisitStep? || step.CountDropStep?) && id in b.entries && DropsSound(b, id)
    ensures DropsSound(BusNext(capacity, b, step), id)
  {
    var p := step.publish;
    DroppingUpdated(b.publishes, p, BusNext(capacity, b, step).publishes[p], id);
  }

  lemma {:induction false} DropsKept(capacity: nat, b: Bus, step: BusStep, id: SubscriptionId)
    requires VisitsSound(b) && BusEnabled(b, step) && id in BusNext(capacity, b, step).entries
    requires id in b.entries ==> DropsSound(b, id)
    ensures DropsSound(BusNext(capacity, b, step), id)
  {
    var b' := BusNext(capacity, b, step);
    match step
    case SubscribeStep(_, _) =>
      if id !in b.entries {
        assert forall p :: 0 <= p < |b.publishes| ==> PublishSound(b.publishes[p], b.entries.Keys);
        NobodyDrops(b.publishes, id);
      }
    case BeginStep(_) => DroppingBegun(b.publishes, b'.publishes[|b.publishes|], id);
    case ConsumeStep(at, consumer) => ConsumerOffersNothing(capacity, b.entries[at].channel.state, consumer);
    case DetachStep(_) =>
    case EndVisitStep(p) => DroppingUpdated(b.publishes, p, b'.publishes[p], id);
    case RemoveStep(p) => DroppingUpdated(b.publishes, p, b'.publishes[p], id);
    case _ => PublisherKeepsDrops(capacity, b, step, id);
  }

  ghost predicate BusSound(capacity: nat, b: Bus) {
    && VisitsSound(b) && ChannelsRun(capacity, b)
    && forall id :: id in b.entries ==> OrderSound(b, id) && BirthSound(b, id) && DropsSound(b, id)
  }

  lemma {:induction false} BusStaysSound(capacity: nat, b: Bus, step: BusStep, b': Bus)
    requires BusSound(capacity, b) && BusEnabled(b, step) && b' == BusNext(capacity, b, step)
    ensures BusSound(capacity, b')
  {
    VisitsStaySound(capacity, b, step);
    ChannelsKeepRunning(capacity, b, step);
    forall id | id in b'.entries ensures OrderSound(b', id) && BirthSound(b', id) && DropsSound(b', id) {
      OrderKept(capacity, b, step, id);
      BirthKept(capacity, b, step, id);
      DropsKept(capacity, b, step, id);
    }
  }

  lemma {:induction false} RunsKeepBusSound(capacity: nat, buses: seq<Bus>, steps: seq<BusStep>, n: nat)
    requires IsBusRun(capacity, buses, steps) && n < |buses|
    ensures BusSound(capacity, buses[n])
    decreases n
  {
    if n > 0 {
      RunsKeepBusSound(capacity, buses, steps, n - 1);
      BusStaysSound(capacity, buses[n - 1], steps[n - 1], buses[n]);
    }
  }

  // ---------------------------------------------------------------------------
  // Main results.

  /**
   * In every state of every run of the bus, each channel is in a state the
   * single-subscription machine reaches, so everything proved of its runs holds of it.
   */
  lemma {:induction false} EveryChannelIsARun(capacity: nat, buses: seq<Bus>, steps: seq<BusStep>, n: nat, id: SubscriptionId)
    returns (run: seq<Step>)
    requires IsBusRun(capacity, buses, steps) && n < |buses| && id in buses[n].entries
    ensures Exec(capacity, run) == Some(buses[n].entries[id].channel.state)
  {
    RunsKeepBusSound(capacity, buses, steps, n);
    assert Reachable(capacity, buses[n].entries[id].channel.state);
    run :| Exec(capacity, run) == Some(buses[n].entries[id].channel.state);
  }

  /**
   * Conservation over the whole bus, for each open subscription: the publishes begun since
   * it subscribed that match its filter and have visited it are, each once and in the order
   * they reached it, what its queue was offered; and they are as many as were received, are
   * queued, were reported missed, are counted as lag, or are drops still to be counted.
   */
  lemma {:induction false} BusConserves(capacity: nat, buses: seq<Bus>, steps: seq<BusStep>, n: nat, id: SubscriptionId)
    requires IsBusRun(capacity, buses, steps) && n < |buses|
    requires id in buses[n].entries && !buses[n].entries[id].channel.state.closed
    ensures var b, e := buses[n], buses[n].entries[id];
            var s := e.channel.state;
            && (forall p :: p in e.order <==>
                              && e.born <= p < |b.publishes| && id !in b.publishes[p].todo
                              && e.channel.filter.Matches(b.publishes[p].event))
            && (forall i, j :: 0 <= i < j < |e.order| ==> e.order[i] != e.order[j])
            && |s.offered| == |e.order| && (forall i :: 0 <= i < |e.order| ==> e.order[i] < |b.publishes| && s.offered[i] == b.publishes[e.order[i]].event)
            && Picks(s.offered, s.kept, s.received + s.queue) && |s.queue| <= capacity
            && (|e.order| <= U64_MAX ==>
                  |e.order| == |s.received| + |s.queue| + s.reported + s.lagged + Dropping(b.publishes, id))
  {
    RunsKeepBusSound(capacity, buses, steps, n);
    var run := EveryChannelIsARun(capacity, buses, steps, n, id);
    EveryPublishAccounted(capacity, run);
    var b, e := buses[n], buses[n].entries[id];
    assert OrderSound(b, id) && BirthSound(b, id) && DropsSound(b, id);
    forall p ensures p in e.order <==>
                       && e.born <= p < |b.publishes| && id !in b.publishes[p].todo
                       && e.channel.filter.Matches(b.publishes[p].event)
    {
      if 0 <= p < |b.publishes| {
        assert Reached(b.publishes[p], id, e.channel.filter) <==> p in e.order;
      }
    }
  }

  lemma {:induction false} OutStaysOut(capacity: nat, buses: seq<Bus>, steps: seq<BusStep>, i: nat, j: nat, id: SubscriptionId)
    requires IsBusRun(capacity, buses, steps) && i <= j < |buses|
    requires id in buses[i].entries && id !in buses[i].registry
    ensures id in buses[j].entries && id !in buses[j].registry
    decreases j
  {
    if i < j {
      OutStaysOut(capacity, buses, steps, i, j - 1, id);
      assert BusEnabled(buses[j - 1], steps[j - 1]);
    }
  }

  /**
   * A subscription that detached, or that a publish found closed and removed, is visited by
   * no publish begun after that.
   */
  lemma {:induction false} RemovedAreNotVisited(capacity: nat, buses: seq<Bus>, steps: seq<BusStep>, i: nat, j: nat, id: SubscriptionId)
    requires IsBusRun(capacity, buses, steps) && i < j < |steps| && steps[j].BeginStep?
    requires || (steps[i] == DetachStep(id))
             || (steps[i].RemoveStep? && id in buses[i].publishes[steps[i].publish].gone)
    ensures buses[j + 1].publishes == buses[j].publishes + [Publish(steps[j].event, buses[j].registry, buses[j].registry, None, {}, Visiting)]
    ensures id !in buses[j].registry
  {
    RunsKeepBusSound(capacity, buses, steps, i);
    assert BusEnabled(buses[i], steps[i]) && BusEnabled(buses[j], steps[j]);
    if steps[i].RemoveStep? {
      assert PublishSound(buses[i].publishes[steps[i].publish], buses[i].entries.Keys);
    }
    OutStaysOut(capacity, buses, steps, i + 1, j, id);
  }
}
