/**
 * What a connection says and to what: which command each step queues, which messages are
 * taken and which refused, and where identity, version, jobs and reports come from.
 */
module CoordinatorAnswers {
  import opened Prelude
  import opened Connection
  import opened Coordinator
  import opened ConnectionLifecycle
  import SubscriptionOrder

  // ---------------------------------------------------------------------------
  // What a step says.

  /** The writer still listens and its channel is not full. */
  predicate CanQueue(cfg: Config, s: State) {
    s.out.writer != Gone && |s.out.queue| - s.out.taken < cfg.outboundCapacity
  }

  function Say(m: Outbound): Option<Queued> {
    Some(Queued(Application(m), General))
  }

  /** The form in which a query's response can be sent: whole, as an error of the same ids when too long, or not at all. */
  function Sendable(cfg: Config, r: Response): Option<Outbound> {
    match cfg.encodedSize(QueryReply(r))
    case None => None
    case Some(size) =>
      if size <= cfg.maxMessageBytes then Some(QueryReply(r)) else
      var short := QueryReply(Response(r.request, r.queryType, Internal));
      match cfg.encodedSize(short)
      case None => None
      case Some(size') => if size' <= cfg.maxMessageBytes then Some(short) else None
  }

  /** A query goes to the worker: an executor exists, is at work, and has room. */
  predicate TakesQuery(cfg: Config, s: State) {
    cfg.hasQueryExecutor && s.queries.alive && |s.queries.waiting| < cfg.queryCapacity
  }

  predicate SpeaksQueries(cfg: Config, s: State, version: Version) {
    s.negotiated == Some(cfg.queryVersion) && version == cfg.queryVersion
  }

  /** The answer a message calls for at once. */
  function SaysToMessage(cfg: Config, s: State, m: Inbound): Option<Queued> {
    var ready := s.conn.state == Ready;
    match m
    case Hello(offersJson, version) =>
      if s.conn.state == Negotiating && offersJson && version.Some? then Say(HelloAccepted(version.value)) else None
    case Authenticate(_) => None
    case PingMessage(nonce) => Say(Pong(nonce))
    case ActionMessage(_) => None
    case QueryMessage(request, queryType, version) =>
      if !ready then None
      else if !SpeaksQueries(cfg, s, version) then Say(OtherError(Some(request)))
      else if TakesQuery(cfg, s) then None
      else
        var refusal := Sendable(cfg, Response(request, queryType, Unavailable));
        if refusal.Some? then Say(refusal.value) else None
    case Subscribe(request, authorized, source) =>
      if ready && authorized && source.Some? && source.value !in s.live
      then Some(Queued(Application(SubscriptionAccepted(request, source.value)), ForSub(source.value))) else None
    case Unsubscribe(request, id) => if ready && id !in s.live then Say(OtherError(Some(request))) else None
  }

  /** The answer a report calls for. */
  function SaysToReport(cfg: Config, r: Report): Option<Queued> {
    match r
    case ActionCompleted(request, action, Some(events)) => Say(Acknowledgement(request, action, events))
    case ActionCompleted(request, _, None) => Say(ExecutionError(request))
    case QueryCompleted(ticket, response) =>
      var reply := Sendable(cfg, response);
      if reply.Some? then Some(Queued(Application(reply.value), ForQuery(ticket))) else None
    case SlowConsumer(_) => Say(OtherError(None))
    case _ => None
  }

  function SaysAt(cfg: Config, s: State, step: Step): Option<Queued> {
    match step
    case Receive(m) => SaysToMessage(cfg, s, m)
    case HandleReport => if s.reports == [] then None else SaysToReport(cfg, s.reports[0])
    case BadText => Say(OtherError(None))
    case BadFrame => Say(OtherError(None))
    case PingFrame(payload) => Some(Queued(NativePong(payload), General))
    case Heartbeat => Some(Queued(NativePing, General))
    case ReportError => Say(OtherError(None))
    case PumpJoined =>
      if s.phase.Joining? && s.phase.notify
      then Some(Queued(Application(SubscriptionClosed(s.phase.cause, s.phase.sub)), ForSub(s.phase.sub))) else None
    case QueueLastError => if s.phase.Leaving? && s.phase.queueError then Say(OtherError(None)) else None
    case QueueClose => Some(Queued(Close, General))
    case PullEvent(id, e) => Some(Queued(Application(EventMessage(e)), ForSub(id)))
    case PullError(_, _) => Say(OtherError(None))
    case _ => None
  }

  /** The queue grew by what was to be said, if it could be queued. */
  predicate Said(cfg: Config, s: State, s': State, what: Option<Queued>) {
    s'.out.queue == s.out.queue + if what.Some? && CanQueue(cfg, s) then [what.value] else []
  }

  /** Live subscriptions have a pump. */
  predicate LiveHavePumps(s: State) {
    s.live <= s.pumps.Keys
  }

  lemma {:induction false} SendableIsSent(cfg: Config, r: Response)
    ensures Sendable(cfg, r) == QueryMessageToSend(cfg, r)
  {
  }

  lemma {:induction false} QuerySaid(cfg: Config, s: State, m: Inbound)
    requires m.QueryMessage? && LifecycleHolds(s) && s.phase.Looping?
    ensures Said(cfg, s, AfterInbound(HandleQuery(cfg, s, m)), SaysToMessage(cfg, s, m))
  {
    SendableIsSent(cfg, Response(m.request, m.queryType, Unavailable));
    assert s.out.queue + [] == s.out.queue;
  }

  lemma {:induction false} SubscriptionSaid(cfg: Config, s: State, m: Inbound)
    requires (m.Subscribe? || m.Unsubscribe?) && LifecycleHolds(s) && LiveHavePumps(s) && s.phase.Looping?
    ensures Said(cfg, s, AfterInbound(HandleInbound(cfg, s, m)), SaysToMessage(cfg, s, m))
  {
    assert s.out.queue + [] == s.out.queue;
  }

  lemma {:induction false} MessageSaid(cfg: Config, s: State, m: Inbound)
    requires LifecycleHolds(s) && LiveHavePumps(s) && s.phase.Looping?
    ensures Said(cfg, s, AfterInbound(HandleInbound(cfg, s, m)), SaysToMessage(cfg, s, m))
  {
    if m.QueryMessage? {
      QuerySaid(cfg, s, m);
    } else if m.Subscribe? || m.Unsubscribe? {
      SubscriptionSaid(cfg, s, m);
    } else {
      assert s.out.queue + [] == s.out.queue;
    }
  }

  lemma {:induction false} ReportSaid(cfg: Config, s: State)
    requires s.reports != []
    ensures Said(cfg, s, TakeReport(cfg, s), SaysToReport(cfg, s.reports[0]))
  {
    assert s.out.queue + [] == s.out.queue;
    if s.reports[0].QueryCompleted? {
      SendableIsSent(cfg, s.reports[0].response);
    }
  }

  lemma {:induction false} InputSaid(cfg: Config, s: State, step: Step)
    requires Enabled(cfg, s, step) && IsInput(step)
    ensures Said(cfg, s, InputStep(cfg, s, step), SaysAt(cfg, s, step))
  {
    assert s.out.queue + [] == s.out.queue;
  }

  lemma {:induction false} ControlSaid(cfg: Config, s: State, step: Step)
    requires Enabled(cfg, s, step) && IsControl(step)
    ensures Said(cfg, s, ControlStep(cfg, s, step), SaysAt(cfg, s, step))
  {
    assert s.out.queue + [] == s.out.queue;
  }

  lemma {:induction false} PumpSaid(cfg: Config, s: State, step: Step)
    requires Enabled(cfg, s, step) && IsPumpStep(step)
    ensures Said(cfg, s, PumpStep(cfg, s, step), SaysAt(cfg, s, step))
  {
    assert s.out.queue + [] == s.out.queue;
  }

  lemma {:induction false} TaskSaid(cfg: Config, s: State, step: Step)
    requires Enabled(cfg, s, step) && IsQuietTask(step)
    ensures Said(cfg, s, TaskStep(cfg, s, step), SaysAt(cfg, s, step))
  {
    assert s.out.queue + [] == s.out.queue;
  }

  lemma {:induction false} StepSaid(cfg: Config, s: State, step: Step)
    requires Enabled(cfg, s, step) && LifecycleHolds(s) && LiveHavePumps(s)
    ensures Said(cfg, s, Next(cfg, s, step), SaysAt(cfg, s, step))
  {
    if step.Receive? {
      MessageSaid(cfg, s, step.message);
    } else if step.HandleReport? {
      ReportSaid(cfg, s);
    } else if IsInput(step) {
      InputSaid(cfg, s, step);
    } else if IsControl(step) {
      ControlSaid(cfg, s, step);
    } else if IsPumpStep(step) {
      PumpSaid(cfg, s, step);
    } else {
      TaskSaid(cfg, s, step);
    }
  }

  // ---------------------------------------------------------------------------
  // Which messages are taken.

  /** The message does what it asks for, given what its ports answered. */
  predicate Takes(cfg: Config, s: State, m: Inbound) {
    var ready := s.conn.state == Ready;
    match m
    case Hello(offersJson, version) => s.conn.state == Negotiating && offersJson && version.Some? && CanQueue(cfg, s)
    case Authenticate(actor) => s.conn.state == Authenticating && actor.Some?
    case PingMessage(_) => CanQueue(cfg, s)
    case ActionMessage(job) =>
      ready && s.conn.identity == Some(job.actor) && s.acts.alive && |s.acts.admitted| - |s.acts.runs| < cfg.actionCapacity
    case QueryMessage(request, queryType, version) =>
      && ready
      && if !SpeaksQueries(cfg, s, version) then CanQueue(cfg, s)
         else TakesQuery(cfg, s) || (CanQueue(cfg, s) && Sendable(cfg, Response(request, queryType, Unavailable)).Some?)
    case Subscribe(_, authorized, source) => ready && authorized && source.Some? && source.value !in s.live && CanQueue(cfg, s)
    case Unsubscribe(_, id) => ready && (id in s.live || CanQueue(cfg, s))
  }

  /** What taking or refusing a message means for the coordinator's own course and for its subscriptions. */
  predicate TakenOrRefused(cfg: Config, s: State, m: Inbound, s': State) {
    && (if Takes(cfg, s, m) then
          s'.phase == if m.Unsubscribe? && m.sub in s.live then Joining(m.sub, true, Some(m.request)) else Looping
        else
          s'.phase == Erring(m.Hello? && s.conn.state == Negotiating && m.offersJson && m.negotiated.None?))
    && (if m.Subscribe? && Takes(cfg, s, m) then
          s'.live == s.live + {m.source.value} && s'.pumps == s.pumps[m.source.value := Pump([], 0, Pulling, false, false)]
        else if m.Unsubscribe? && Takes(cfg, s, m) && m.sub in s.live then
          s'.live == s.live - {m.sub} && m.sub in s.pumps && s'.pumps == s.pumps[m.sub := s.pumps[m.sub].(cancelled := true)]
        else s'.live == s.live && s'.pumps == s.pumps)
  }

  lemma {:induction false} QueryTaken(cfg: Config, s: State, m: Inbound)
    requires m.QueryMessage? && LifecycleHolds(s) && s.phase.Looping?
    ensures TakenOrRefused(cfg, s, m, AfterInbound(HandleQuery(cfg, s, m)))
  {
    SendableIsSent(cfg, Response(m.request, m.queryType, Unavailable));
  }

  lemma {:induction false} MessageTaken(cfg: Config, s: State, m: Inbound)
    requires LifecycleHolds(s) && LiveHavePumps(s) && s.phase.Looping?
    ensures TakenOrRefused(cfg, s, m, AfterInbound(HandleInbound(cfg, s, m)))
  {
    if m.QueryMessage? {
      QueryTaken(cfg, s, m);
    }
  }

  // ---------------------------------------------------------------------------
  // Where jobs, identity and version come from.

  /** What a step may change of the jobs admitted, the bound actor and the version: only what its message says. */
  predicate FromMessage(cfg: Config, s: State, step: Step, s': State) {
    && s'.acts.admitted == s.acts.admitted + (
         match step
         case Receive(ActionMessage(job)) => if Takes(cfg, s, step.message) then [job] else []
         case _ => [])
    && s'.queries.admitted == s.queries.admitted + (
         match step
         case Receive(QueryMessage(request, queryType, version)) =>
           if s.conn.state == Ready && s.conn.identity.Some? && SpeaksQueries(cfg, s, version) && TakesQuery(cfg, s)
           then [QueryJob(request, queryType, s.conn.identity.value)] else []
         case _ => [])
    && s'.conn.identity == (
         match step
         case Receive(Authenticate(actor)) => if s.conn.state == Authenticating && actor.Some? then actor else s.conn.identity
         case _ => s.conn.identity)
    && s'.negotiated == (
         match step
         case Receive(Hello(offersJson, version)) =>
           if s.conn.state == Negotiating && offersJson && version.Some? then version else s.negotiated
         case _ => s.negotiated)
  }

  lemma {:induction false} QueryFromMessage(cfg: Config, s: State, m: Inbound)
    requires m.QueryMessage? && LifecycleHolds(s) && s.phase.Looping?
    ensures FromMessage(cfg, s, Receive(m), AfterInbound(HandleQuery(cfg, s, m)))
  {
    assert s.acts.admitted + [] == s.acts.admitted && s.queries.admitted + [] == s.queries.admitted;
  }

  lemma {:induction false} InboundFromMessage(cfg: Config, s: State, m: Inbound)
    requires LifecycleHolds(s) && s.phase.Looping?
    ensures FromMessage(cfg, s, Receive(m), AfterInbound(HandleInbound(cfg, s, m)))
  {
    assert s.acts.admitted + [] == s.acts.admitted && s.queries.admitted + [] == s.queries.admitted;
    if m.QueryMessage? {
      QueryFromMessage(cfg, s, m);
    }
  }

  /** Everything but handling a message leaves them alone. */
  predicate SameSources(s: State, s': State) {
    && s'.acts.admitted == s.acts.admitted && s'.queries.admitted == s.queries.admitted
    && s'.conn.identity == s.conn.identity && s'.negotiated == s.negotiated
  }

  lemma {:induction false} ReportKeepsSources(cfg: Config, s: State)
    requires s.reports != []
    ensures SameSources(s, TakeReport(cfg, s))
  {
  }

  lemma {:induction false} InputKeepsSources(cfg: Config, s: State, step: Step)
    requires Enabled(cfg, s, step) && IsInput(step)
    ensures SameSources(s, InputStep(cfg, s, step))
  {
  }

  lemma {:induction false} ControlKeepsSources(cfg: Config, s: State, step: Step)
    requires Enabled(cfg, s, step) && IsControl(step)
    ensures SameSources(s, ControlStep(cfg, s, step))
  {
    ShutdownAlwaysCloses(s.conn);
  }

  lemma {:induction false} PumpKeepsSources(cfg: Config, s: State, step: Step)
    requires Enabled(cfg, s, step) && IsPumpStep(step)
    ensures SameSources(s, PumpStep(cfg, s, step))
  {
  }

  lemma {:induction false} QueryTaskKeepsSources(cfg: Config, s: State, step: Step)
    requires Enabled(cfg, s, step) && (step.StartQuery? || step.JoinQuery? || step.ReportQuery? || step.StopQueryWorker?)
    ensures SameSources(s, TaskStep(cfg, s, step))
  {
    assert NextQuery(s, step).admitted == s.queries.admitted;
  }

  lemma {:induction false} TaskKeepsSources(cfg: Config, s: State, step: Step)
    requires Enabled(cfg, s, step) && IsQuietTask(step)
    ensures SameSources(s, TaskStep(cfg, s, step))
  {
    if step.StartQuery? || step.JoinQuery? || step.ReportQuery? || step.StopQueryWorker? {
      QueryTaskKeepsSources(cfg, s, step);
    }
  }

  lemma {:induction false} OthersKeepSources(cfg: Config, s: State, step: Step)
    requires Enabled(cfg, s, step) && !step.Receive?
    ensures SameSources(s, Next(cfg, s, step))
  {
    if step.HandleReport? {
      ReportKeepsSources(cfg, s);
    } else if IsInput(step) {
      InputKeepsSources(cfg, s, step);
    } else if IsControl(step) {
      ControlKeepsSources(cfg, s, step);
    } else if IsPumpStep(step) {
      PumpKeepsSources(cfg, s, step);
    } else {
      TaskKeepsSources(cfg, s, step);
    }
  }

  lemma {:induction false} StepFromMessage(cfg: Config, s: State, step: Step)
    requires Enabled(cfg, s, step) && LifecycleHolds(s)
    ensures FromMessage(cfg, s, step, Next(cfg, s, step))
  {
    if step.Receive? {
      InboundFromMessage(cfg, s, step.message);
    } else {
      OthersKeepSources(cfg, s, step);
      assert s.acts.admitted + [] == s.acts.admitted && s.queries.admitted + [] == s.queries.admitted;
    }
  }

  // ---------------------------------------------------------------------------
  // Why the loop is left, and what a pump reports.

  predicate SaysError(q: Option<Queued>) {
    q.Some? && q.value.command.Application? && q.value.command.message.OtherError?
  }

  /** The step itself told the client of the failure; a failed source did so when its pump reported it. */
  predicate ToldAlready(cfg: Config, s: State, step: Step) {
    || (SaysError(SaysAt(cfg, s, step)) && CanQueue(cfg, s))
    || (step.HandleReport? && s.reports != [] && s.reports[0].EventSourceFailed? && s.reports[0].errorQueued)
  }

  /** A last error is due exactly when the loop failed and the client was not told yet. */
  predicate LastErrorDue(cfg: Config, s: State, step: Step) {
    !step.PeerClosed? && !ToldAlready(cfg, s, step)
  }

  /** How input and timers move the coordinator on. */
  lemma {:induction false} InputMovesOn(cfg: Config, s: State, step: Step)
    requires Enabled(cfg, s, step) && IsInput(step)
    ensures var s' := InputStep(cfg, s, step);
            match step
            case QuietInput => s' == s
            case BadText => s'.phase == if CanQueue(cfg, s) then Looping else Leaving(true)
            case PingFrame(_) => s'.phase == if CanQueue(cfg, s) then Looping else Leaving(true)
            case Heartbeat => s'.phase == if CanQueue(cfg, s) then Looping else Leaving(true)
            case _ => s'.phase == Leaving(LastErrorDue(cfg, s, step))
  {
  }

  /** How it moves on between messages, and through its shutdown to the end. */
  lemma {:induction false} ControlMovesOn(cfg: Config, s: State, step: Step)
    requires Enabled(cfg, s, step) && IsControl(step)
    ensures var s' := ControlStep(cfg, s, step);
            match step
            case ReportError => s'.phase == if s.phase.fatal || !CanQueue(cfg, s) then Leaving(LastErrorDue(cfg, s, step)) else Looping
            case PumpJoined =>
              s'.phase == if !s.phase.notify || CanQueue(cfg, s) then Looping else if s.phase.cause.Some? then Erring(false) else Leaving(true)
            case QueueLastError => s'.phase == SendingClose
            case QueueClose => s'.phase == Cancelling && s'.conn.state == Closed
            case CancelTasks => s'.phase == Draining && s'.cancelled
            case Finish => s'.phase == Finished && !s.acts.alive && !s.queries.alive
  {
    ShutdownAlwaysCloses(s.conn);
  }

  /** A report that ends the loop leaves a last error to tell unless the client knows already. */
  lemma {:induction false} ReportLeavesDuly(cfg: Config, s: State)
    requires s.reports != [] && s.phase.Looping?
    ensures TakeReport(cfg, s).phase.Leaving? ==> TakeReport(cfg, s).phase.queueError == LastErrorDue(cfg, s, HandleReport)
  {
  }

  /** What each step of a pump leaves it with. */
  lemma {:induction false} PumpReportsWhatHappened(cfg: Config, s: State, step: Step)
    requires Enabled(cfg, s, step) && IsPumpStep(step)
    ensures var p, s' := s.pumps[step.sub], Next(cfg, s, step);
            && step.sub in s'.pumps && s'.pumps.Keys == s.pumps.Keys && s'.live == s.live
            && s'.pumps[step.sub].status ==
               (match step
                case PullEvent(id, _) => if CanQueue(cfg, s) then Pulling else Reporting(SlowConsumer(id))
                case PullEnd(id) => Reporting(SubscriptionFinished(id))
                case PullError(id, lagged) => Reporting(EventSourceFailed(id, lagged, CanQueue(cfg, s)))
                case _ => Stopped)
            && s'.reports == s.reports + if step.ReportPump? then [p.status.report] else []
  {
    assert s.reports + [] == s.reports;
  }

  /** What the workers, the writer and the reader leave behind; the connection, its phase and its pumps are not theirs. */
  lemma {:induction false} TasksDoTheirPart(cfg: Config, s: State, step: Step)
    requires Enabled(cfg, s, step) && IsQuietTask(step)
    ensures var s' := TaskStep(cfg, s, step);
            && s'.phase == s.phase && s'.conn == s.conn && s'.negotiated == s.negotiated && s'.pumps == s.pumps && s'.live == s.live
  {
  }

  /** How far the writer and the workers then are, and whether everyone was told to stop. */
  lemma {:induction false} TasksMoveOn(cfg: Config, s: State, step: Step)
    requires Enabled(cfg, s, step) && IsQuietTask(step)
    ensures var s' := TaskStep(cfg, s, step);
            && s'.out.queue == s.out.queue && s'.out.taken == s.out.taken + (if step.WriterTakes? then 1 else 0)
            && s'.out.writer == (match step case WriterFails => Failing case WriterCancels => Cancelled case WriterStops => Gone case _ => s.out.writer)
            && s'.cancelled == (s.cancelled || step.WriterCancels?)
            && s'.acts.alive == (s.acts.alive && !step.StopActionWorker?)
            && s'.queries.alive == (s.queries.alive && !step.StopQueryWorker?)
  {
  }

  /** What each of them reports. */
  lemma {:induction false} TasksReportTheirPart(cfg: Config, s: State, step: Step)
    requires Enabled(cfg, s, step) && IsQuietTask(step) && |s.acts.results| <= |s.acts.runs| <= |s.acts.results| + 1
    ensures var added := match step
                         case EndAction(result) => [ActionCompleted(s.acts.runs[|s.acts.results|].request, s.acts.runs[|s.acts.results|].action, result)]
                         case ReportQuery => [s.queries.holding.value]
                         case WriterFails => [WriterFailed]
                         case ReaderStops => [ReaderFailed]
                         case _ => [];
            TaskStep(cfg, s, step).reports == s.reports + added
  {
    assert s.reports + [] == s.reports;
  }

  /** Taking a report drops it from the front, and a finished or failed source's pump is told to stop and waited for. */
  lemma {:induction false} ReportFollowed(cfg: Config, s: State)
    requires s.reports != [] && s.phase.Looping? && LiveHavePumps(s)
    ensures var r, s' := s.reports[0], TakeReport(cfg, s);
            && s'.reports == s.reports[1..]
            && (match r
                case SubscriptionFinished(id) => s'.phase == if id in s.live then Joining(id, true, None) else Looping
                case EventSourceFailed(id, fatal, _) =>
                  if fatal then s'.phase.Leaving? else s'.phase == if id in s.live then Joining(id, false, None) else Looping
                case ActionCompleted(_, _, _) => s'.phase.Leaving? <==> !CanQueue(cfg, s)
                case QueryCompleted(_, response) => s'.phase.Leaving? <==> !CanQueue(cfg, s) || Sendable(cfg, response).None?
                case _ => s'.phase.Leaving?)
            && (s'.phase.Joining? ==> s'.live == s.live - {s'.phase.sub} && s'.pumps[s'.phase.sub].cancelled)
  {
    if s.reports[0].QueryCompleted? {
      SendableIsSent(cfg, s.reports[0].response);
    }
  }

  // ---------------------------------------------------------------------------
  // Main results, over whole runs.

  lemma {:induction false} LiveAlwaysHavePumps(cfg: Config, states: seq<State>, steps: seq<Step>, n: nat)
    requires IsRun(cfg, states, steps) && n < |states|
    ensures LiveHavePumps(states[n])
  {
    RunReaches(cfg, states, steps, n);
    SubscriptionOrder.RunsKeepSubs(cfg, steps[..n]);
    forall id | id in states[n].live ensures id in states[n].pumps {
      assert SubscriptionOrder.SubHolds(states[n], id);
    }
  }

  /** In every run each step queues exactly what it has to say, when that can be queued, and nothing else. */
  lemma {:induction false} EveryStepSaysItsPart(cfg: Config, states: seq<State>, steps: seq<Step>, n: nat)
    requires IsRun(cfg, states, steps) && n < |steps|
    ensures Said(cfg, states[n], states[n + 1], SaysAt(cfg, states[n], steps[n]))
  {
    LifecycleAlwaysHolds(cfg, states, steps, n);
    LiveAlwaysHavePumps(cfg, states, steps, n);
    StepSaid(cfg, states[n], steps[n]);
  }

  /**
   * In every run a message that can be taken is taken, and any other is answered with an
   * error; only a Hello without a common version ends the connection.
   */
  lemma {:induction false} MessagesTakenExactly(cfg: Config, states: seq<State>, steps: seq<Step>, n: nat)
    requires IsRun(cfg, states, steps) && n < |steps| && steps[n].Receive?
    ensures TakenOrRefused(cfg, states[n], steps[n].message, states[n + 1])
  {
    LifecycleAlwaysHolds(cfg, states, steps, n);
    LiveAlwaysHavePumps(cfg, states, steps, n);
    MessageTaken(cfg, states[n], steps[n].message);
  }

  /** The bound actor is the one the resolver returned for an Authenticate message of an authenticating connection. */
  lemma {:induction false} ActorIsTheResolvedOne(cfg: Config, states: seq<State>, steps: seq<Step>, n: nat) returns (i: nat)
    requires IsRun(cfg, states, steps) && n < |states| && states[n].conn.identity.Some?
    ensures i < n && states[i].conn.state == Authenticating && steps[i] == Receive(Authenticate(states[n].conn.identity))
    decreases n
  {
    if n > 0 {
      LifecycleAlwaysHolds(cfg, states, steps, n - 1);
      StepFromMessage(cfg, states[n - 1], steps[n - 1]);
      if states[n].conn.identity == states[n - 1].conn.identity {
        i := ActorIsTheResolvedOne(cfg, states, steps, n - 1);
      } else {
        i := n - 1;
      }
    }
  }

  /** The negotiated version is the one the policy chose for a Hello of a negotiating connection. */
  lemma {:induction false} VersionIsTheChosenOne(cfg: Config, states: seq<State>, steps: seq<Step>, n: nat) returns (i: nat)
    requires IsRun(cfg, states, steps) && n < |states| && states[n].negotiated.Some?
    ensures i < n && states[i].conn.state == Negotiating && steps[i] == Receive(Hello(true, states[n].negotiated))
    decreases n
  {
    if n > 0 {
      LifecycleAlwaysHolds(cfg, states, steps, n - 1);
      StepFromMessage(cfg, states[n - 1], steps[n - 1]);
      if states[n].negotiated == states[n - 1].negotiated {
        i := VersionIsTheChosenOne(cfg, states, steps, n - 1);
      } else {
        i := n - 1;
      }
    }
  }

  lemma {:induction false} OnlyHelloSaysHello(cfg: Config, s: State, step: Step)
    ensures var q := SaysAt(cfg, s, step);
            q.Some? && IsHello(q.value) ==>
              s.conn.state == Negotiating && step == Receive(Hello(true, Some(q.value.command.message.version)))
  {
  }

  /** The version, once negotiated, stays; a HelloAccepted is queued with the version it brings. */
  lemma {:induction false} VersionStays(cfg: Config, s: State, step: Step, s': State)
    requires FromMessage(cfg, s, step, s') && LifecycleHolds(s)
    ensures s.negotiated.Some? ==> s'.negotiated == s.negotiated
    ensures var q := SaysAt(cfg, s, step); q.Some? && IsHello(q.value) ==> s'.negotiated == Some(q.value.command.message.version)
  {
    OnlyHelloSaysHello(cfg, s, step);
  }

  /** Every HelloAccepted on the queue names the negotiated version. */
  lemma {:induction false} HelloNamesTheVersion(cfg: Config, states: seq<State>, steps: seq<Step>, n: nat, j: nat)
    requires IsRun(cfg, states, steps) && n < |states| && j < |states[n].out.queue|
    requires IsHello(states[n].out.queue[j])
    ensures states[n].negotiated == Some(states[n].out.queue[j].command.message.version)
    decreases n
  {
    if n > 0 {
      var before, step := states[n - 1], steps[n - 1];
      EveryStepSaysItsPart(cfg, states, steps, n - 1);
      LifecycleAlwaysHolds(cfg, states, steps, n - 1);
      StepFromMessage(cfg, before, step);
      VersionStays(cfg, before, step, states[n]);
      if j < |before.out.queue| {
        assert states[n].out.queue[j] == before.out.queue[j];
        HelloNamesTheVersion(cfg, states, steps, n - 1, j);
      }
    }
  }

  /** The admitted actions are the jobs of action messages, in the order those arrived. */
  lemma {:induction false} ActionsComeFromMessages(cfg: Config, states: seq<State>, steps: seq<Step>, n: nat) returns (at: seq<nat>)
    requires IsRun(cfg, states, steps) && n < |states|
    ensures |at| == |states[n].acts.admitted|
    ensures forall i, j :: 0 <= i < j < |at| ==> at[i] < at[j]
    ensures forall i :: 0 <= i < |at| ==> at[i] < n && steps[at[i]] == Receive(ActionMessage(states[n].acts.admitted[i]))
    decreases n
  {
    at := [];
    if n > 0 {
      at := ActionsComeFromMessages(cfg, states, steps, n - 1);
      LifecycleAlwaysHolds(cfg, states, steps, n - 1);
      StepFromMessage(cfg, states[n - 1], steps[n - 1]);
      if |states[n].acts.admitted| > |states[n - 1].acts.admitted| {
        at := at + [n - 1];
      }
    }
  }

  /** The admitted queries carry the request id and type of query messages, in arrival order, and the actor bound when they arrived. */
  lemma {:induction false} QueriesComeFromMessages(cfg: Config, states: seq<State>, steps: seq<Step>, n: nat) returns (at: seq<nat>)
    requires IsRun(cfg, states, steps) && n < |states|
    ensures |at| == |states[n].queries.admitted|
    ensures forall i, j :: 0 <= i < j < |at| ==> at[i] < at[j]
    ensures forall i :: 0 <= i < |at| ==>
                          var job := states[n].queries.admitted[i];
                          && at[i] < n && steps[at[i]] == Receive(QueryMessage(job.request, job.queryType, cfg.queryVersion))
                          && states[at[i]].conn.state == Ready && states[at[i]].conn.identity == Some(job.actor)
    decreases n
  {
    at := [];
    if n > 0 {
      at := QueriesComeFromMessages(cfg, states, steps, n - 1);
      LifecycleAlwaysHolds(cfg, states, steps, n - 1);
      StepFromMessage(cfg, states[n - 1], steps[n - 1]);
      if |states[n].queries.admitted| > |states[n - 1].queries.admitted| {
        at := at + [n - 1];
      }
    }
  }
}
