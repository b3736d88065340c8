/** No admitted query is forgotten, duplicated or answered with another's response. */
module QueryConservation {
  import opened Prelude
  import opened Coordinator
  import ActionReplies

  // ---------------------------------------------------------------------------
  // Where tickets can be.

  function Tickets(n: nat): multiset<nat> {
    if n == 0 then multiset{} else Tickets(n - 1) + multiset{n - 1}
  }

  function CompletedIn(r: Report): multiset<nat> {
    if r.QueryCompleted? then multiset{r.ticket} else multiset{}
  }

  function Held(holding: Option<Report>): multiset<nat> {
    if holding.Some? then CompletedIn(holding.value) else multiset{}
  }

  /** Completed queries whose report the coordinator has not yet taken. */
  function Pending(reports: seq<Report>): multiset<nat> {
    if reports == [] then multiset{} else CompletedIn(reports[0]) + Pending(reports[1..])
  }

  function AnsweredBy(q: Queued): multiset<nat> {
    if q.origin.ForQuery? then multiset{q.origin.ticket} else multiset{}
  }

  /** Queries answered on the outbound queue. */
  function Answered(queue: seq<Queued>): multiset<nat> {
    if queue == [] then multiset{} else Answered(queue[..|queue| - 1]) + AnsweredBy(queue[|queue| - 1])
  }

  /** Every place a ticket can be: waiting, in flight, completed, answered or lost. */
  function Places(q: Queries, reports: seq<Report>, queue: seq<Queued>): multiset<nat> {
    multiset(q.waiting) + multiset(q.inFlight) + Held(q.holding) + Pending(reports) + Answered(queue) + q.lost
  }

  /** How often one ticket occurs in those places. */
  function Count(q: Queries, reports: seq<Report>, queue: seq<Queued>, t: nat): nat {
    multiset(q.waiting)[t] + (if t in q.inFlight then 1 else 0) + Held(q.holding)[t] + Pending(reports)[t] + Answered(queue)[t] + q.lost[t]
  }

  // ---------------------------------------------------------------------------
  // The invariant.

  predicate Recorded(responses: map<nat, Response>, r: Report) {
    r.QueryCompleted? ==> r.ticket in responses && responses[r.ticket] == r.response
  }

  /** A query reply fits the limit, and one given to an admitted query is what its response calls for. */
  predicate ReplySound(cfg: Config, responses: map<nat, Response>, q: Queued) {
    && (q.command.Application? && q.command.message.QueryReply? ==> Fits(cfg, q.command.message))
    && (q.origin.ForQuery? ==>
          && q.origin.ticket in responses && q.command.Application?
          && QueryMessageToSend(cfg, responses[q.origin.ticket]) == Some(q.command.message))
  }

  /** A response belongs to a query that has left the executor, and carries its ids if the executor keeps them. */
  predicate ResponseSound(cfg: Config, q: Queries, ticket: nat)
    requires ticket in q.responses
  {
    && ticket < |q.admitted| && ticket !in q.waiting && ticket !in q.inFlight
    && (cfg.executorKeepsIds ==> Answers(q.responses[ticket], q.admitted[ticket]))
  }

  predicate LaneSound(cfg: Config, q: Queries) {
    && |q.inFlight| <= cfg.maxInFlight
    && (!q.alive ==> q.waiting == [] && q.inFlight == {} && q.holding.None?)
    && (q.holding.Some? ==> q.holding.value.QueryCompleted? && Recorded(q.responses, q.holding.value))
    && forall t :: t in q.responses ==> ResponseSound(cfg, q, t)
  }

  predicate RepliesSound(cfg: Config, responses: map<nat, Response>, reports: seq<Report>, queue: seq<Queued>) {
    && (forall i :: 0 <= i < |reports| ==> Recorded(responses, reports[i]))
    && (forall i :: 0 <= i < |queue| ==> ReplySound(cfg, responses, queue[i]))
  }

  predicate ConservedAt(s: State, t: nat) {
    Count(s.queries, s.reports, s.out.queue, t) == if t < |s.queries.admitted| then 1 else 0
  }

  ghost predicate Conserved(s: State) {
    forall t: nat :: ConservedAt(s, t)
  }

  ghost predicate QueriesHold(cfg: Config, s: State) {
    && Conserved(s)
    && LaneSound(cfg, s.queries)
    && RepliesSound(cfg, s.queries.responses, s.reports, s.out.queue)
  }

  lemma {:induction false} EachTicketOnce(n: nat, t: nat)
    ensures Tickets(n)[t] == if t < n then 1 else 0
  {
    if n > 0 {
      EachTicketOnce(n - 1, t);
    }
  }

  lemma {:induction false} PendingAppend(reports: seq<Report>, r: Report)
    ensures Pending(reports + [r]) == Pending(reports) + CompletedIn(r)
    decreases |reports|
  {
    if reports != [] {
      assert (reports + [r])[1..] == reports[1..] + [r];
      PendingAppend(reports[1..], r);
    }
  }

  lemma {:induction false} AnsweredGrows(before: seq<Queued>, after: seq<Queued>)
    requires Grew(before, after)
    ensures Answered(after) == Answered(before) + if Added(before, after) == [] then multiset{} else AnsweredBy(Added(before, after)[0])
  {
    if Added(before, after) != [] {
      assert after[..|before|] == before;
    } else {
      assert after == before;
    }
  }

  // ---------------------------------------------------------------------------
  // What one step may do as far as queries are concerned.

  /** Reports other than completed queries may be added at the end or taken from the front. */
  predicate OtherReports(before: seq<Report>, after: seq<Report>) {
    || after == before
    || (|after| == |before| + 1 && after == before + [after[|before|]] && !after[|before|].QueryCompleted?)
    || (before != [] && after == before[1..] && !before[0].QueryCompleted?)
  }

  /** Nothing is queued but messages for no admitted query, and query replies that fit. */
  predicate OtherMessages(cfg: Config, before: seq<Queued>, after: seq<Queued>) {
    && Grew(before, after)
    && forall q :: q in Added(before, after) ==> !q.origin.ForQuery? && ReplySound(cfg, map[], q)
  }

  predicate OnlyQueries(s: State, s': State) {
    s'.reports == s.reports && s'.out.queue == s.out.queue
  }

  datatype Change =
    | Nothing
    | Admits(job: QueryJob)
    | Starts
    | Joins(ticket: nat, response: Option<Response>)
    | Stops
    | Reports               // the query worker reports the completed query it holds
    | Replies               // the coordinator answers the oldest report, or gives up

  predicate QueryStep(cfg: Config, s: State, s': State, change: Change) {
    var q, q' := s.queries, s'.queries;
    match change
    case Nothing => q' == q && OtherReports(s.reports, s'.reports) && OtherMessages(cfg, s.out.queue, s'.out.queue)
    case Admits(job) => q.alive && q' == q.(admitted := q.admitted + [job], waiting := q.waiting + [|q.admitted|]) && OnlyQueries(s, s')
    case Starts =>
      && q.alive && q.waiting != [] && |q.inFlight| < cfg.maxInFlight
      && q' == q.(waiting := q.waiting[1..], inFlight := q.inFlight + {q.waiting[0]}) && OnlyQueries(s, s')
    case Joins(ticket, None) =>
      && ticket in q.inFlight && q.alive && OnlyQueries(s, s')
      && q' == q.(inFlight := q.inFlight - {ticket}, lost := q.lost + multiset{ticket})
    case Joins(ticket, Some(response)) =>
      && ticket in q.inFlight && q.alive && q.holding.None? && OnlyQueries(s, s')
      && (cfg.executorKeepsIds ==> ticket < |q.admitted| && Answers(response, q.admitted[ticket]))
      && q' == q.(inFlight := q.inFlight - {ticket}, holding := Some(QueryCompleted(ticket, response)), responses := q.responses[ticket := response])
    case Stops =>
      && q.holding.None? && OnlyQueries(s, s')
      && q' == q.(waiting := [], inFlight := {}, lost := q.lost + multiset(q.waiting) + multiset(q.inFlight), alive := false)
    case Reports =>
      && q.holding.Some? && q' == q.(holding := None) && s'.reports == s.reports + [q.holding.value] && s'.out.queue == s.out.queue
    case Replies =>
      && s.reports != [] && s.reports[0].QueryCompleted? && s'.reports == s.reports[1..]
      && var r := s.reports[0];
         if CanSendQuery(cfg, s, r.response) then
           q' == q && s'.out.queue == s.out.queue + [Queued(Application(QueryMessageToSend(cfg, r.response).value), ForQuery(r.ticket))]
         else q' == q.(lost := q.lost + multiset{r.ticket}) && s'.out.queue == s.out.queue
  }

  // ---------------------------------------------------------------------------
  // Every change keeps the invariant.

  lemma {:induction false} OtherReportsPend(before: seq<Report>, after: seq<Report>)
    requires OtherReports(before, after)
    ensures Pending(after) == Pending(before)
  {
    if |after| == |before| + 1 {
      PendingAppend(before, after[|before|]);
    }
  }

  lemma {:induction false} OtherMessagesAnswerNone(cfg: Config, before: seq<Queued>, after: seq<Queued>)
    requires OtherMessages(cfg, before, after)
    ensures Answered(after) == Answered(before)
  {
    AnsweredGrows(before, after);
  }

  /** A waiting query is not in flight, and one in flight neither waits nor has a response yet. */
  lemma {:induction false} PlacesAreApart(cfg: Config, s: State, t: nat)
    requires ConservedAt(s, t) && LaneSound(cfg, s.queries)
    ensures t in s.queries.waiting ==> t !in s.queries.inFlight
    ensures t in s.queries.inFlight ==> t < |s.queries.admitted| && t !in s.queries.responses
  {
    assert t in s.queries.waiting ==> multiset(s.queries.waiting)[t] > 0;
    assert t in s.queries.responses ==> ResponseSound(cfg, s.queries, t);
  }

  // No step moves a ticket into two places or out of all of them.

  lemma {:induction false} StartConserves(cfg: Config, s: State, s': State, t: nat)
    requires ConservedAt(s, t) && QueryStep(cfg, s, s', Starts)
    ensures ConservedAt(s', t)
  {
    var q, q' := s.queries, s'.queries;
    assert multiset(q.waiting)[t] == (if t == q.waiting[0] then 1 else 0) + multiset(q'.waiting)[t] by {
      assert q.waiting == [q.waiting[0]] + q'.waiting;
    }
  }

  lemma {:induction false} JoinConserves(cfg: Config, s: State, s': State, change: Change, t: nat)
    requires ConservedAt(s, t) && QueryStep(cfg, s, s', change) && change.Joins?
    ensures ConservedAt(s', t)
  {
    var q, q' := s.queries, s'.queries;
    assert Held(q'.holding)[t] + q'.lost[t] == Held(q.holding)[t] + q.lost[t] + if t == change.ticket then 1 else 0;
  }

  lemma {:induction false} StopConserves(cfg: Config, s: State, s': State, t: nat)
    requires ConservedAt(s, t) && QueryStep(cfg, s, s', Stops)
    ensures ConservedAt(s', t)
  {
    var q, q' := s.queries, s'.queries;
    assert q'.lost[t] == q.lost[t] + multiset(q.waiting)[t] + if t in q.inFlight then 1 else 0;
  }

  lemma {:induction false} AdmitConserves(cfg: Config, s: State, s': State, job: QueryJob, t: nat)
    requires ConservedAt(s, t) && QueryStep(cfg, s, s', Admits(job))
    ensures ConservedAt(s', t)
  {
    var ticket: nat := |s.queries.admitted|;
    assert multiset(s'.queries.waiting)[t] == multiset(s.queries.waiting)[t] + if t == ticket then 1 else 0;
  }

  lemma {:induction false} AnswerCounts(queue: seq<Queued>, q: Queued, t: nat)
    ensures Answered(queue + [q])[t] == Answered(queue)[t] + AnsweredBy(q)[t]
  {
    assert (queue + [q])[..|queue|] == queue;
  }

  lemma {:induction false} CompletionCounts(reports: seq<Report>, r: Report, t: nat)
    ensures Pending(reports + [r])[t] == Pending(reports)[t] + CompletedIn(r)[t]
  {
    PendingAppend(reports, r);
  }

  lemma {:induction false} TakeCounts(reports: seq<Report>, t: nat)
    requires reports != [] && reports[0].QueryCompleted?
    ensures Pending(reports)[t] == Pending(reports[1..])[t] + if t == reports[0].ticket then 1 else 0
  {
  }

  lemma {:induction false} AnsweredOrLost(cfg: Config, s: State, s': State, t: nat)
    requires QueryStep(cfg, s, s', Replies)
    ensures Answered(s'.out.queue)[t] + s'.queries.lost[t]
            == Answered(s.out.queue)[t] + s.queries.lost[t] + if t == s.reports[0].ticket then 1 else 0
  {
    var r := s.reports[0];
    if CanSendQuery(cfg, s, r.response) {
      var reply := Queued(Application(QueryMessageToSend(cfg, r.response).value), ForQuery(r.ticket));
      AnswerCounts(s.out.queue, reply, t);
    }
  }

  /** What leaves the pending reports is answered or lost; nothing else moves. */
  lemma {:induction false} PendingLeaves(s: State, s': State, t: nat, one: nat)
    requires ConservedAt(s, t)
    requires s'.queries == s.queries.(lost := s'.queries.lost)
    requires Pending(s.reports)[t] == Pending(s'.reports)[t] + one
    requires Answered(s'.out.queue)[t] + s'.queries.lost[t] == Answered(s.out.queue)[t] + s.queries.lost[t] + one
    ensures ConservedAt(s', t)
  {
    assert multiset(s'.queries.waiting)[t] == multiset(s.queries.waiting)[t];
    assert Held(s'.queries.holding)[t] == Held(s.queries.holding)[t];
  }

  lemma {:induction false} ReplyConserves(cfg: Config, s: State, s': State, t: nat)
    requires ConservedAt(s, t) && QueryStep(cfg, s, s', Replies)
    ensures ConservedAt(s', t)
  {
    TakeCounts(s.reports, t);
    AnsweredOrLost(cfg, s, s', t);
    PendingLeaves(s, s', t, if t == s.reports[0].ticket then 1 else 0);
  }

  lemma {:induction false} NothingConserves(cfg: Config, s: State, s': State, t: nat)
    requires ConservedAt(s, t) && QueryStep(cfg, s, s', Nothing)
    ensures ConservedAt(s', t)
  {
    OtherReportsPend(s.reports, s'.reports);
    OtherMessagesAnswerNone(cfg, s.out.queue, s'.out.queue);
  }

  lemma {:induction false} ReportConserves(cfg: Config, s: State, s': State, t: nat)
    requires ConservedAt(s, t) && QueryStep(cfg, s, s', Reports)
    ensures ConservedAt(s', t)
  {
    CompletionCounts(s.reports, s.queries.holding.value, t);
  }

  lemma {:induction false} StepConserves(cfg: Config, s: State, s': State, change: Change, t: nat)
    requires ConservedAt(s, t) && QueryStep(cfg, s, s', change)
    ensures ConservedAt(s', t)
  {
    match change
    case Nothing => NothingConserves(cfg, s, s', t);
    case Admits(job) => AdmitConserves(cfg, s, s', job, t);
    case Starts => StartConserves(cfg, s, s', t);
    case Joins(_, _) => JoinConserves(cfg, s, s', change, t);
    case Stops => StopConserves(cfg, s, s', t);
    case Reports => ReportConserves(cfg, s, s', t);
    case Replies => ReplyConserves(cfg, s, s', t);
  }

  lemma {:induction false} ResponsesStaySound(cfg: Config, s: State, s': State, change: Change, t: nat)
    requires ConservedAt(s, t) && LaneSound(cfg, s.queries) && QueryStep(cfg, s, s', change) && t in s'.queries.responses
    ensures ResponseSound(cfg, s'.queries, t)
  {
    var q := s.queries;
    PlacesAreApart(cfg, s, t);
    assert t in q.responses ==> ResponseSound(cfg, q, t);
    if change.Starts? {
      assert q.waiting == [q.waiting[0]] + q.waiting[1..];
    }
  }

  lemma {:induction false} StepKeepsLane(cfg: Config, s: State, s': State, change: Change)
    requires QueriesHold(cfg, s) && QueryStep(cfg, s, s', change)
    ensures LaneSound(cfg, s'.queries)
  {
    forall t | t in s'.queries.responses ensures ResponseSound(cfg, s'.queries, t) {
      assert ConservedAt(s, t);
      ResponsesStaySound(cfg, s, s', change, t);
    }
  }

  /** Responses are only added, so what was sound stays so. */
  lemma {:induction false} RepliesStaySound(
    cfg: Config, before: map<nat, Response>, after: map<nat, Response>,
    reports: seq<Report>, reports': seq<Report>, queue: seq<Queued>, queue': seq<Queued>)
    requires RepliesSound(cfg, before, reports, queue)
    requires forall t :: t in before ==> t in after && after[t] == before[t]
    requires forall r :: r in reports' ==> r in reports || Recorded(after, r)
    requires forall q :: q in queue' ==> q in queue || ReplySound(cfg, after, q)
    ensures RepliesSound(cfg, after, reports', queue')
  {
    forall i | 0 <= i < |reports'| ensures Recorded(after, reports'[i]) {
      assert reports'[i] in reports';
    }
    forall i | 0 <= i < |queue'| ensures ReplySound(cfg, after, queue'[i]) {
      assert queue'[i] in queue';
    }
  }

  lemma {:induction false} StepKeepsReplies(cfg: Config, s: State, s': State, change: Change)
    requires QueriesHold(cfg, s) && QueryStep(cfg, s, s', change)
    ensures RepliesSound(cfg, s'.queries.responses, s'.reports, s'.out.queue)
  {
    var q, q' := s.queries, s'.queries;
    if change.Joins? {
      assert ConservedAt(s, change.ticket);
      PlacesAreApart(cfg, s, change.ticket);
    }
    RepliesStaySound(cfg, q.responses, q'.responses, s.reports, s'.reports, s.out.queue, s'.out.queue);
  }

  lemma {:induction false} QueriesKept(cfg: Config, s: State, s': State, change: Change)
    requires QueriesHold(cfg, s) && QueryStep(cfg, s, s', change)
    ensures QueriesHold(cfg, s')
  {
    forall t: nat ensures ConservedAt(s', t) {
      assert ConservedAt(s, t);
      StepConserves(cfg, s, s', change, t);
    }
    StepKeepsLane(cfg, s, s', change);
    StepKeepsReplies(cfg, s, s', change);
  }

  // ---------------------------------------------------------------------------
  // Every step is one of these changes.

  lemma {:induction false} AskIsQueryStep(cfg: Config, s: State, m: Inbound) returns (change: Change)
    requires m.QueryMessage?
    ensures QueryStep(cfg, s, AfterInbound(HandleQuery(cfg, s, m)), change)
  {
    var q, q' := s.queries, HandleQuery(cfg, s, m).state.queries;
    change := if q' == q then Nothing else Admits(q'.admitted[|q.admitted|]);
  }

  lemma {:induction false} InboundIsQueryStep(cfg: Config, s: State, m: Inbound) returns (change: Change)
    ensures QueryStep(cfg, s, AfterInbound(HandleInbound(cfg, s, m)), change)
  {
    if m.QueryMessage? {
      change := AskIsQueryStep(cfg, s, m);
    } else {
      change := Nothing;
    }
  }

  lemma {:induction false} ReportIsQueryStep(cfg: Config, s: State) returns (change: Change)
    requires s.reports != []
    ensures QueryStep(cfg, s, TakeReport(cfg, s), change)
  {
    change := if s.reports[0].QueryCompleted? then Replies else Nothing;
  }

  lemma {:induction false} InputIsQueryStep(cfg: Config, s: State, step: Step)
    requires Enabled(cfg, s, step) && IsInput(step)
    ensures QueryStep(cfg, s, InputStep(cfg, s, step), Nothing)
  {
  }

  lemma {:induction false} ControlIsQueryStep(cfg: Config, s: State, step: Step)
    requires Enabled(cfg, s, step) && IsControl(step)
    ensures QueryStep(cfg, s, ControlStep(cfg, s, step), Nothing)
  {
  }

  lemma {:induction false} PumpIsQueryStep(cfg: Config, s: State, step: Step)
    requires Enabled(cfg, s, step) && IsPumpStep(step) && ActionReplies.ReportersHonest(s)
    ensures QueryStep(cfg, s, PumpStep(cfg, s, step), Nothing)
  {
    assert ActionReplies.PumpHonest(s.pumps[step.sub]);
  }

  lemma {:induction false} TaskIsQueryStep(cfg: Config, s: State, step: Step) returns (change: Change)
    requires Enabled(cfg, s, step) && IsQuietTask(step)
    ensures QueryStep(cfg, s, TaskStep(cfg, s, step), change)
  {
    change := match step
      case StartQuery => Starts
      case JoinQuery(ticket, response) => Joins(ticket, response)
      case StopQueryWorker => Stops
      case ReportQuery => Reports
      case _ => Nothing;
  }

  lemma {:induction false} StepIsQueryStep(cfg: Config, s: State, step: Step) returns (change: Change)
    requires Enabled(cfg, s, step) && ActionReplies.ReportersHonest(s)
    ensures QueryStep(cfg, s, Next(cfg, s, step), change)
  {
    if step.Receive? {
      change := InboundIsQueryStep(cfg, s, step.message);
    } else if step.HandleReport? {
      change := ReportIsQueryStep(cfg, s);
    } else if IsInput(step) {
      InputIsQueryStep(cfg, s, step);
      change := Nothing;
    } else if IsControl(step) {
      ControlIsQueryStep(cfg, s, step);
      change := Nothing;
    } else if IsPumpStep(step) {
      PumpIsQueryStep(cfg, s, step);
      change := Nothing;
    } else {
      change := TaskIsQueryStep(cfg, s, step);
    }
  }

  lemma {:induction false} RunsKeepQueries(cfg: Config, run: seq<Step>)
    requires Exec(cfg, run).Some?
    ensures QueriesHold(cfg, Exec(cfg, run).value)
    decreases |run|
  {
    if run != [] {
      var n := |run| - 1;
      RunsKeepQueries(cfg, run[..n]);
      ActionReplies.RunsKeepReplies(cfg, run[..n]);
      var before, after := Exec(cfg, run[..n]).value, Exec(cfg, run).value;
      var change := StepIsQueryStep(cfg, before, run[n]);
      QueriesKept(cfg, before, after, change);
    }
  }

  /**
   * In every state of every run, the admitted queries are exactly those waiting, in flight, completed but
   * not yet taken, answered, or lost to a failed task or to shutdown, each in one place;
   * and no more than the allowed number are in flight.
   */
  lemma {:induction false} QueriesAreConserved(cfg: Config, states: seq<State>, steps: seq<Step>, i: nat)
    requires IsRun(cfg, states, steps) && i < |states|
    ensures var s := states[i]; var q := s.queries;
            && Places(q, s.reports, s.out.queue) == Tickets(|q.admitted|)
            && |q.inFlight| <= cfg.maxInFlight
            && (s.phase.Finished? ==> Pending(s.reports) + Answered(s.out.queue) + q.lost == Tickets(|q.admitted|))
  {
    RunReaches(cfg, states, steps, i);
    RunsKeepQueries(cfg, steps[..i]);
    FinishedHasNoWorker(cfg, steps[..i]);
    PlacesAreTickets(states[i]);
  }

  /** Every ticket in one place is all tickets, once each. */
  lemma {:induction false} PlacesAreTickets(s: State)
    requires Conserved(s)
    ensures Places(s.queries, s.reports, s.out.queue) == Tickets(|s.queries.admitted|)
  {
    forall t: nat ensures Places(s.queries, s.reports, s.out.queue)[t] == Tickets(|s.queries.admitted|)[t] {
      assert ConservedAt(s, t);
      EachTicketOnce(|s.queries.admitted|, t);
    }
  }

  /** The queries one step gives up: a failed one, all a stopping worker still has, or one whose reply cannot be sent. */
  function LostBy(cfg: Config, s: State, step: Step): multiset<nat> {
    match step
    case JoinQuery(t, None) => multiset{t}
    case StopQueryWorker => multiset(s.queries.waiting) + multiset(s.queries.inFlight)
    case HandleReport =>
      if s.reports != [] && s.reports[0].QueryCompleted? && !CanSendQuery(cfg, s, s.reports[0].response)
      then multiset{s.reports[0].ticket} else multiset{}
    case _ => multiset{}
  }

  /**
   * A step loses exactly those; losing a reply leaves the loop, which is never entered
   * again; and nothing finishes beside a live worker.
   */
  predicate LaneStep(s: State, s': State, lost: multiset<nat>, handling: bool) {
    && s'.queries.lost == s.queries.lost + lost
    && (s'.phase.InLoop() ==> s.phase.InLoop() && (handling ==> lost == multiset{}))
    && (s'.phase.Finished? && (s.phase.Finished? ==> !s.queries.alive) ==> !s'.queries.alive)
  }

  lemma {:induction false} InboundIsLaneStep(cfg: Config, s: State, m: Inbound)
    requires s.phase.Looping?
    ensures LaneStep(s, AfterInbound(HandleInbound(cfg, s, m)), multiset{}, false)
  {
    assert LaneStep(s, HandleInbound(cfg, s, m).state, multiset{}, false);
  }

  lemma {:induction false} ReplyIsLaneStep(cfg: Config, s: State, r: Report)
    requires s.phase.Looping? && r.QueryCompleted?
    ensures LaneStep(s, ReplyToQuery(cfg, s, r), if CanSendQuery(cfg, s, r.response) then multiset{} else multiset{r.ticket}, true)
  {
  }

  lemma {:induction false} FollowIsLaneStep(cfg: Config, s: State, r: Report)
    requires s.phase.Looping? && !r.QueryCompleted?
    ensures LaneStep(s, if r.ActionCompleted? then ReplyToAction(cfg, s, r) else FollowReport(cfg, s, r), multiset{}, true)
  {
  }

  lemma {:induction false} ReportIsLaneStep(cfg: Config, s: State)
    requires s.phase.Looping? && s.reports != []
    ensures LaneStep(s, TakeReport(cfg, s), LostBy(cfg, s, HandleReport), true)
  {
    var r, rest := s.reports[0], s.(reports := s.reports[1..]);
    if r.QueryCompleted? {
      ReplyIsLaneStep(cfg, rest, r);
    } else {
      FollowIsLaneStep(cfg, rest, r);
    }
  }

  lemma {:induction false} InputIsLaneStep(cfg: Config, s: State, step: Step)
    requires Enabled(cfg, s, step) && IsInput(step)
    ensures LaneStep(s, InputStep(cfg, s, step), multiset{}, false)
  {
  }

  lemma {:induction false} ControlIsLaneStep(cfg: Config, s: State, step: Step)
    requires Enabled(cfg, s, step) && IsControl(step)
    ensures LaneStep(s, ControlStep(cfg, s, step), multiset{}, false)
  {
  }

  lemma {:induction false} PumpIsLaneStep(cfg: Config, s: State, step: Step)
    requires Enabled(cfg, s, step) && IsPumpStep(step)
    ensures LaneStep(s, PumpStep(cfg, s, step), multiset{}, false)
  {
    assert PumpStep(cfg, s, step).queries == s.queries;
  }

  lemma {:induction false} TaskIsLaneStep(cfg: Config, s: State, step: Step)
    requires Enabled(cfg, s, step) && IsQuietTask(step)
    ensures LaneStep(s, TaskStep(cfg, s, step), LostBy(cfg, s, step), false)
  {
    assert TaskStep(cfg, s, step).phase == s.phase;
  }

  lemma {:induction false} StepIsLaneStep(cfg: Config, s: State, step: Step)
    requires Enabled(cfg, s, step)
    ensures LaneStep(s, Next(cfg, s, step), LostBy(cfg, s, step), step.HandleReport?)
  {
    if step.Receive? {
      InboundIsLaneStep(cfg, s, step.message);
    } else if step.HandleReport? {
      ReportIsLaneStep(cfg, s);
    } else if IsInput(step) {
      InputIsLaneStep(cfg, s, step);
    } else if IsControl(step) {
      ControlIsLaneStep(cfg, s, step);
    } else if IsPumpStep(step) {
      PumpIsLaneStep(cfg, s, step);
    } else {
      TaskIsLaneStep(cfg, s, step);
    }
  }

  /** The connection is finished only after its query worker stopped. */
  lemma {:induction false} FinishedHasNoWorker(cfg: Config, run: seq<Step>)
    requires Exec(cfg, run).Some?
    ensures Exec(cfg, run).value.phase.Finished? ==> !Exec(cfg, run).value.queries.alive
    decreases |run|
  {
    if run != [] {
      var n := |run| - 1;
      FinishedHasNoWorker(cfg, run[..n]);
      StepIsLaneStep(cfg, Exec(cfg, run[..n]).value, run[n]);
    }
  }

  /** The loop, once left, is never entered again. */
  lemma {:induction false} LoopIsLeftForGood(cfg: Config, states: seq<State>, steps: seq<Step>, k: nat, i: nat)
    requires IsRun(cfg, states, steps) && k <= i < |states| && states[i].phase.InLoop()
    ensures states[k].phase.InLoop()
    decreases i
  {
    if k < i {
      StepIsLaneStep(cfg, states[i - 1], steps[i - 1]);
      LoopIsLeftForGood(cfg, states, steps, k, i - 1);
    }
  }

  /** Step k of the run gave this query up. */
  ghost predicate LosesAt(cfg: Config, states: seq<State>, steps: seq<Step>, k: nat, t: nat)
    requires |states| == |steps| + 1
  {
    k < |steps| && t in LostBy(cfg, states[k], steps[k])
  }

  lemma {:induction false} LossGoesBack(cfg: Config, states: seq<State>, steps: seq<Step>, i: nat, t: nat) returns (k: nat)
    requires IsRun(cfg, states, steps) && i < |states| && t in states[i].queries.lost
    ensures k < i && LosesAt(cfg, states, steps, k, t)
    decreases i
  {
    if i > 0 {
      StepIsLaneStep(cfg, states[i - 1], steps[i - 1]);
      if t in LostBy(cfg, states[i - 1], steps[i - 1]) {
        k := i - 1;
      } else {
        k := LossGoesBack(cfg, states, steps, i - 1, t);
      }
    }
  }

  lemma {:induction false} LostStaysLost(cfg: Config, states: seq<State>, steps: seq<Step>, k: nat, i: nat, t: nat)
    requires IsRun(cfg, states, steps) && k < i < |states| && LosesAt(cfg, states, steps, k, t)
    ensures t in states[i].queries.lost
    decreases i
  {
    StepIsLaneStep(cfg, states[i - 1], steps[i - 1]);
    if k < i - 1 {
      LostStaysLost(cfg, states, steps, k, i - 1, t);
    }
  }

  /**
   * In every state of every run a query counts as lost exactly when an earlier step gave
   * that very query up: its task failed, the worker stopped while it waited or ran, or its
   * reply could not be sent. While the coordinator loops, the last was not the cause.
   */
  lemma {:induction false} LostExactlyWhenGivenUp(cfg: Config, states: seq<State>, steps: seq<Step>, i: nat, t: nat)
    requires IsRun(cfg, states, steps) && i < |states|
    ensures t in states[i].queries.lost <==> exists k :: 0 <= k < i && LosesAt(cfg, states, steps, k, t)
    ensures states[i].phase.InLoop() ==> forall k :: 0 <= k < i && LosesAt(cfg, states, steps, k, t) ==> !steps[k].HandleReport?
  {
    if t in states[i].queries.lost {
      var k := LossGoesBack(cfg, states, steps, i, t);
    }
    forall k | 0 <= k < i && LosesAt(cfg, states, steps, k, t)
      ensures t in states[i].queries.lost && (states[i].phase.InLoop() ==> !steps[k].HandleReport?)
    {
      LostStaysLost(cfg, states, steps, k, i, t);
      StepIsLaneStep(cfg, states[k], steps[k]);
      if states[i].phase.InLoop() {
        LoopIsLeftForGood(cfg, states, steps, k + 1, i);
      }
    }
  }

  lemma {:induction false} AnswerIsCounted(queue: seq<Queued>, i: nat)
    requires i < |queue| && queue[i].origin.ForQuery?
    ensures Answered(queue)[queue[i].origin.ticket] >= 1
    decreases |queue|
  {
    if i < |queue| - 1 {
      AnswerIsCounted(queue[..|queue| - 1], i);
    }
  }

  /** Two entries of the queue answering one ticket would make it counted twice. */
  lemma {:induction false} TwoAnswersCount(queue: seq<Queued>, i: nat, j: nat)
    requires i < j < |queue| && queue[i].origin.ForQuery? && queue[j].origin == queue[i].origin
    ensures Answered(queue)[queue[i].origin.ticket] >= 2
    decreases |queue|
  {
    var n := |queue| - 1;
    if j < n {
      TwoAnswersCount(queue[..n], i, j);
    } else {
      AnswerIsCounted(queue[..n], i);
    }
  }

  /**
   * In every state of every run each admitted query got at most one reply. It is the response the
   * executor returned for that very query or, when that is too large, the correlated
   * error; with an executor that keeps ids it carries the query's own request id and type;
   * and every query reply, refusals included, is within the message limit.
   */
  lemma {:induction false} QueryRepliesAreCorrelated(cfg: Config, states: seq<State>, steps: seq<Step>, n: nat, i: nat)
    requires IsRun(cfg, states, steps) && n < |states| && i < |states[n].out.queue|
    ensures var s := states[n]; var e := s.out.queue[i];
            && (e.command.Application? && e.command.message.QueryReply? ==>
                  cfg.encodedSize(e.command.message).Some? && cfg.encodedSize(e.command.message).value <= cfg.maxMessageBytes)
            && (e.origin.ForQuery? ==>
                  var t, q := e.origin.ticket, s.queries;
                  && t < |q.admitted| && t in q.responses
                  && (forall j :: 0 <= j < |s.out.queue| && s.out.queue[j].origin == e.origin ==> j == i)
                  && e.command.Application? && e.command.message.QueryReply?
                  && (var reply := e.command.message.response;
                      && (reply == q.responses[t] || (reply == q.responses[t].(body := Internal) && !Fits(cfg, QueryReply(q.responses[t]))))
                      && (cfg.executorKeepsIds ==> reply.request == q.admitted[t].request && reply.queryType == q.admitted[t].queryType)))
  {
    RunReaches(cfg, states, steps, n);
    RunsKeepQueries(cfg, steps[..n]);
    var s := states[n];
    var e := s.out.queue[i];
    assert ReplySound(cfg, s.queries.responses, e);
    if e.origin.ForQuery? {
      var t := e.origin.ticket;
      assert ResponseSound(cfg, s.queries, t);
      assert ConservedAt(s, t);
      forall j | 0 <= j < |s.out.queue| && s.out.queue[j].origin == e.origin ensures j == i {
        if j < i {
          TwoAnswersCount(s.out.queue, j, i);
        } else if i < j {
          TwoAnswersCount(s.out.queue, i, j);
        }
      }
    }
  }
}
