/**
 * One WebSocket connection: the coordinator loop with its action worker, query worker,
 * event pumps and writer, as a machine whose steps belong to different tasks and
 * interleave freely.
 */
module Coordinator {
  import opened Prelude
  import opened Connection

  type Version = nat
  datatype SubId = SubId(uuid: nat)
  datatype SourceEvent = SourceEvent(id: EventId)

  // ---------------------------------------------------------------------------
  // Messages.

  datatype Response = Response(request: MessageId, queryType: string, body: ResponseBody)
  datatype ResponseBody = Success(payload: nat) | Unavailable | Internal

  datatype Outbound =
    | HelloAccepted(version: Version)
    | Acknowledgement(request: MessageId, action: ActionId, events: seq<EventId>)
    | ExecutionError(request: MessageId)
    | OtherError(about: Option<MessageId>)
    | Pong(nonce: nat)
    | QueryReply(response: Response)
    | SubscriptionAccepted(request: MessageId, sub: SubId)
    | SubscriptionClosed(cause: Option<MessageId>, sub: SubId)
    | EventMessage(event: SourceEvent)

  datatype WriterCommand = Application(message: Outbound) | NativePing | NativePong(payload: seq<int>) | Close

  /** For whom a command was queued: the wire messages do not say, the claims need it. */
  datatype Origin = General | ForSub(sub: SubId) | ForQuery(ticket: nat)

  datatype Queued = Queued(command: WriterCommand, origin: Origin)

  datatype ActionJob = ActionJob(request: MessageId, action: ActionId, actor: ActorId)
  datatype QueryJob = QueryJob(request: MessageId, queryType: string, actor: ActorId)

  /** Inbound messages, with what the ports answer while they are handled. */
  datatype Inbound =
    | Hello(offersJson: bool, negotiated: Option<Version>)
    | Authenticate(resolved: Option<ActorId>)
    | PingMessage(nonce: nat)
    | ActionMessage(job: ActionJob)
    | QueryMessage(request: MessageId, queryType: string, version: Version)
    | Subscribe(request: MessageId, authorized: bool, source: Option<SubId>)
    | Unsubscribe(request: MessageId, sub: SubId)

  /** What workers and pumps report to the coordinator. */
  datatype Report =
    | ActionCompleted(request: MessageId, action: ActionId, result: Option<seq<EventId>>)
    | QueryCompleted(ticket: nat, response: Response)
    | SubscriptionFinished(sub: SubId)
    | EventSourceFailed(sub: SubId, fatal: bool, errorQueued: bool)
    | SlowConsumer(sub: SubId)
    | WriterFailed
    | ReaderFailed

  // ---------------------------------------------------------------------------
  // State.

  /** Limits and ports fixed for the connection. */
  datatype Config = Config(
    outboundCapacity: nat, reportCapacity: nat, actionCapacity: nat, queryCapacity: nat, maxInFlight: nat,
    maxMessageBytes: nat, hasQueryExecutor: bool, queryVersion: Version, executorKeepsIds: bool,
    encodedSize: Outbound -> Option<nat>)

  /**
   * Where the coordinator itself is. Erring is about to tell the client of a failed
   * message; Joining waits for one pump and then, if asked to, reports it closed; the
   * rest is its shutdown.
   */
  datatype Phase =
    | Looping
    | Erring(fatal: bool)
    | Joining(sub: SubId, notify: bool, cause: Option<MessageId>)
    | Leaving(queueError: bool)
    | SendingClose
    | Cancelling
    | Draining
    | Finished
  {
    predicate InLoop() { Looping? || Erring? || Joining? }
  }

  /** The writer: at work; after a failed write it reports, then cancels, and only then drops its receiver. */
  datatype WriterStage = Writing | Failing | Cancelled | Gone

  /** The writer channel: everything ever queued, how much the writer has taken, and how far the writer is. */
  datatype Outbox = Outbox(queue: seq<Queued>, taken: nat, writer: WriterStage) {
    predicate Open() { !writer.Gone? }
  }

  /** The action lane: the jobs admitted, those run so far, and the outcomes reported. */
  datatype Actions = Actions(admitted: seq<ActionJob>, runs: seq<ActionJob>, results: seq<Option<seq<EventId>>>, alive: bool)

  /** The query lane: tickets number the admitted jobs; `responses` is what the executor returned for each. */
  datatype Queries = Queries(
    admitted: seq<QueryJob>, waiting: seq<nat>, inFlight: set<nat>, holding: Option<Report>, responses: map<nat, Response>,
    lost: multiset<nat>, alive: bool)

  datatype PumpStatus = Pulling | Reporting(report: Report) | Stopped

  /** One pump: what it pulled from its source, how much of it was queued, and whether its Closed message was. */
  datatype Pump = Pump(pulled: seq<SourceEvent>, sent: nat, status: PumpStatus, cancelled: bool, closed: bool)

  datatype State = State(
    phase: Phase, conn: Lifecycle, negotiated: Option<Version>, out: Outbox, acts: Actions, queries: Queries,
    reports: seq<Report>, pumps: map<SubId, Pump>, live: set<SubId>, cancelled: bool)

  const INIT := State(
    Looping, NEW_CONNECTION, None, Outbox([], 0, Writing), Actions([], [], [], true),
    Queries([], [], {}, None, map[], multiset{}, true), [], map[], {}, false)

  // ---------------------------------------------------------------------------
  // Queueing to the writer.

  predicate HasRoom(cfg: Config, out: Outbox) {
    out.Open() && |out.queue| < out.taken + cfg.outboundCapacity
  }

  /** `try_send`: nothing happens when the writer is gone or behind. */
  function Push(cfg: Config, out: Outbox, q: Queued): (r: Outbox)
    ensures Grew(out.queue, r.queue) && Added(out.queue, r.queue) == (if HasRoom(cfg, out) then [q] else [])
  {
    if HasRoom(cfg, out) then out.(queue := out.queue + [q]) else out
  }

  function PushMessage(cfg: Config, s: State, m: Outbound, origin: Origin): State {
    s.(out := Push(cfg, s.out, Queued(Application(m), origin)))
  }

  predicate Fits(cfg: Config, m: Outbound) {
    cfg.encodedSize(m).Some? && cfg.encodedSize(m).value <= cfg.maxMessageBytes
  }

  /** `queue_query_response`: the response, a correlated error when it is too large, or nothing. */
  function QueryMessageToSend(cfg: Config, r: Response): Option<Outbound> {
    var fallback := QueryReply(r.(body := Internal));
    if Fits(cfg, QueryReply(r)) then Some(QueryReply(r))
    else if cfg.encodedSize(QueryReply(r)).Some? && Fits(cfg, fallback) then Some(fallback)
    else None
  }

  predicate CanSendQuery(cfg: Config, s: State, r: Response) {
    QueryMessageToSend(cfg, r).Some? && HasRoom(cfg, s.out)
  }

  function SendQuery(cfg: Config, s: State, r: Response, origin: Origin): State {
    if CanSendQuery(cfg, s, r) then PushMessage(cfg, s, QueryMessageToSend(cfg, r).value, origin) else s
  }

  // ---------------------------------------------------------------------------
  // The coordinator's handling of one inbound message.

  /** The state after handling, and whether it failed: not at all, recoverably, or fatally. */
  datatype Verdict = Fine | Failed | Fatal
  datatype Handled = Handled(state: State, verdict: Verdict)

  function HandleHello(cfg: Config, s: State, m: Inbound): Handled
    requires m.Hello?
  {
    if !s.conn.state.Negotiating? || !m.offersJson then Handled(s, Failed)
    else if m.negotiated.None? then Handled(s, Fatal)
    else
      var authenticating := TransitionTo(s.conn, Authenticating);
      if authenticating.Err? then Handled(s, Fatal)
      else
        var moved := s.(conn := authenticating.value, negotiated := m.negotiated);
        if HasRoom(cfg, s.out) then Handled(PushMessage(cfg, moved, HelloAccepted(m.negotiated.value), General), Fine)
        else Handled(moved, Failed)
  }

  function HandleAuthenticate(s: State, m: Inbound): Handled
    requires m.Authenticate?
  {
    if !s.conn.state.Authenticating? || m.resolved.None? then Handled(s, Failed)
    else
      var bound := BindIdentity(s.conn, m.resolved.value);
      if bound.Err? then Handled(s, Failed)
      else if MarkReady(bound.value).Err? then Handled(s.(conn := bound.value), Failed)
      else Handled(s.(conn := MarkReady(bound.value).value), Fine)
  }

  /** `validate_action_binding` and admission to the action queue. */
  function HandleAction(cfg: Config, s: State, m: Inbound): Handled
    requires m.ActionMessage?
  {
    if !s.conn.state.Ready? || s.conn.identity != Some(m.job.actor) then Handled(s, Failed)
    else if s.acts.alive && |s.acts.admitted| < |s.acts.runs| + cfg.actionCapacity then
      Handled(s.(acts := s.acts.(admitted := s.acts.admitted + [m.job])), Fine)
    else Handled(s, Failed)
  }

  function HandleQuery(cfg: Config, s: State, m: Inbound): Handled
    requires m.QueryMessage?
  {
    if !s.conn.state.Ready? then Handled(s, Failed)
    else if s.negotiated.None? then Handled(s, Fatal)
    else if s.negotiated.value != cfg.queryVersion || m.version != cfg.queryVersion then
      Handled(PushMessage(cfg, s, OtherError(Some(m.request)), General), if HasRoom(cfg, s.out) then Fine else Failed)
    else if s.conn.identity.None? then Handled(s, Failed)
    else if cfg.hasQueryExecutor && s.queries.alive && |s.queries.waiting| < cfg.queryCapacity then
      var job := QueryJob(m.request, m.queryType, s.conn.identity.value);
      Handled(s.(queries := s.queries.(admitted := s.queries.admitted + [job],
                                       waiting := s.queries.waiting + [|s.queries.admitted|])), Fine)
    else
      var refusal := Response(m.request, m.queryType, Unavailable);
      Handled(SendQuery(cfg, s, refusal, General), if CanSendQuery(cfg, s, refusal) then Fine else Failed)
  }

  function HandleSubscribe(cfg: Config, s: State, m: Inbound): Handled
    requires m.Subscribe?
  {
    if !s.conn.state.Ready? || s.conn.identity.None? || !m.authorized || m.source.None? then Handled(s, Failed)
    else if m.source.value in s.live then Handled(s, Failed)
    else if s.negotiated.None? then Handled(s, Fatal)
    else if !HasRoom(cfg, s.out) then Handled(s, Failed)
    else
      var id := m.source.value;
      var accepted := PushMessage(cfg, s, SubscriptionAccepted(m.request, id), ForSub(id));
      Handled(accepted.(pumps := s.pumps[id := Pump([], 0, Pulling, false, false)], live := s.live + {id}), Fine)
  }

  /** Removes a subscription, cancels its pump and goes on to wait for it. */
  function StartJoin(s: State, id: SubId, notify: bool, cause: Option<MessageId>): State
    requires id in s.pumps
  {
    s.(live := s.live - {id}, pumps := s.pumps[id := s.pumps[id].(cancelled := true)], phase := Joining(id, notify, cause))
  }

  function HandleUnsubscribe(cfg: Config, s: State, m: Inbound): Handled
    requires m.Unsubscribe?
  {
    if !s.conn.state.Ready? then Handled(s, Failed)
    else if m.sub in s.live && m.sub in s.pumps then
      Handled(StartJoin(s, m.sub, true, Some(m.request)), Fine)
    else Handled(PushMessage(cfg, s, OtherError(Some(m.request)), General), if HasRoom(cfg, s.out) then Fine else Failed)
  }

  function HandleInbound(cfg: Config, s: State, m: Inbound): Handled {
    match m
    case Hello(_, _) => HandleHello(cfg, s, m)
    case Authenticate(_) => HandleAuthenticate(s, m)
    case PingMessage(nonce) => Handled(PushMessage(cfg, s, Pong(nonce), General), if HasRoom(cfg, s.out) then Fine else Failed)
    case ActionMessage(_) => HandleAction(cfg, s, m)
    case QueryMessage(_, _, _) => HandleQuery(cfg, s, m)
    case Subscribe(_, _, _) => HandleSubscribe(cfg, s, m)
    case Unsubscribe(_, _) => HandleUnsubscribe(cfg, s, m)
  }

  function AfterInbound(h: Handled): State {
    match h.verdict
    case Fine => h.state
    case Failed => h.state.(phase := Erring(false))
    case Fatal => h.state.(phase := Erring(true))
  }

  /** A handling error is queued to the client; it ends the loop when fatal or when even that does not fit. */
  function TellError(cfg: Config, s: State): State
    requires s.phase.Erring?
  {
    var room := HasRoom(cfg, s.out);
    PushMessage(cfg, s, OtherError(None), General).(phase := if s.phase.fatal || !room then Leaving(!room) else Looping)
  }

  // ---------------------------------------------------------------------------
  // The coordinator's handling of one report.

  /** An acknowledgement naming the events of a success, or the error of a failure. */
  function ActionReply(request: MessageId, action: ActionId, result: Option<seq<EventId>>): Outbound {
    if result.Some? then Acknowledgement(request, action, result.value) else ExecutionError(request)
  }

  function ReplyToAction(cfg: Config, s: State, r: Report): State
    requires r.ActionCompleted?
  {
    var reply := ActionReply(r.request, r.action, r.result);
    if HasRoom(cfg, s.out) then PushMessage(cfg, s, reply, General) else s.(phase := Leaving(true))
  }

  function ReplyToQuery(cfg: Config, s: State, r: Report): State
    requires r.QueryCompleted?
  {
    if CanSendQuery(cfg, s, r.response) then SendQuery(cfg, s, r.response, ForQuery(r.ticket))
    else s.(phase := Leaving(true), queries := s.queries.(lost := s.queries.lost + multiset{r.ticket}))
  }

  function FollowReport(cfg: Config, s: State, r: Report): State
    requires !r.ActionCompleted? && !r.QueryCompleted?
  {
    match r
    case SubscriptionFinished(id) =>
      if id in s.live && id in s.pumps then StartJoin(s, id, true, None) else s
    case EventSourceFailed(id, fatal, errorQueued) =>
      if fatal then s.(phase := Leaving(!errorQueued))
      else if id in s.live && id in s.pumps then StartJoin(s, id, false, None)
      else s
    case SlowConsumer(_) =>
      PushMessage(cfg, s, OtherError(None), General).(phase := Leaving(!HasRoom(cfg, s.out)))
    case WriterFailed => s.(phase := Leaving(true))
    case ReaderFailed => s.(phase := Leaving(true))
  }

  function TakeReport(cfg: Config, s: State): State
    requires s.reports != []
  {
    var r, rest := s.reports[0], s.(reports := s.reports[1..]);
    if r.ActionCompleted? then ReplyToAction(cfg, rest, r)
    else if r.QueryCompleted? then ReplyToQuery(cfg, rest, r)
    else FollowReport(cfg, rest, r)
  }

  /**
   * The pump that was waited for is done: its Closed message, if one is due, is queued
   * now. When it does not fit, a source's end is fatal and an Unsubscribe merely fails.
   */
  function FinishJoin(cfg: Config, s: State): State
    requires s.phase.Joining? && s.phase.sub in s.pumps
  {
    var id := s.phase.sub;
    if !s.phase.notify then s.(phase := Looping)
    else if HasRoom(cfg, s.out) then
      PushMessage(cfg, s, SubscriptionClosed(s.phase.cause, id), ForSub(id)).(
        phase := Looping, pumps := s.pumps[id := s.pumps[id].(closed := true)])
    else s.(phase := if s.phase.cause.Some? then Erring(false) else Leaving(true))
  }

  // ---------------------------------------------------------------------------
  // Steps of every task.

  datatype Step =
    // coordinator
    | Receive(message: Inbound)
    | BadText
    | PingFrame(payload: seq<int>)
    | QuietInput
    | PeerClosed
    | BadFrame
    | Heartbeat
    | TimedOut
    | ReportError
    | HandleReport
    | PumpJoined
    | QueueLastError
    | QueueClose
    | CancelTasks
    | Finish
    // action worker
    | StartAction
    | EndAction(result: Option<seq<EventId>>)
    | StopActionWorker
    // query worker
    | StartQuery
    | JoinQuery(ticket: nat, response: Option<Response>)
    | ReportQuery
    | StopQueryWorker
    // pumps
    | PullEvent(sub: SubId, event: SourceEvent)
    | PullEnd(sub: SubId)
    | PullError(sub: SubId, lagged: bool)
    | ReportPump(sub: SubId)
    | StopPump(sub: SubId)
    // writer and reader
    | WriterTakes
    | WriterFails
    | WriterCancels
    | WriterStops
    | ReaderStops

  /** Steps of the coordinator on input and on its own timer. */
  predicate IsInput(step: Step) {
    step.BadText? || step.PingFrame? || step.QuietInput? || step.PeerClosed? || step.BadFrame? || step.Heartbeat? || step.TimedOut?
  }

  /** Steps of the coordinator between messages and while shutting down. */
  predicate IsControl(step: Step) {
    step.ReportError? || step.PumpJoined? || step.QueueLastError? || step.QueueClose? || step.CancelTasks? || step.Finish?
  }

  predicate IsPumpStep(step: Step) {
    step.PullEvent? || step.PullEnd? || step.PullError? || step.ReportPump? || step.StopPump?
  }

  /** Steps of the workers, the writer and the reader: none of them queues anything. */
  predicate IsQuietTask(step: Step) {
    || step.StartAction? || step.EndAction? || step.StopActionWorker?
    || step.StartQuery? || step.JoinQuery? || step.ReportQuery? || step.StopQueryWorker?
    || step.WriterTakes? || step.WriterFails? || step.WriterCancels? || step.WriterStops? || step.ReaderStops?
  }

  predicate PumpIs(s: State, id: SubId, pulling: bool) {
    id in s.pumps && if pulling then s.pumps[id].status.Pulling? else s.pumps[id].status.Reporting?
  }

  predicate ReportsHaveRoom(cfg: Config, s: State) {
    |s.reports| < cfg.reportCapacity
  }

  predicate Enabled(cfg: Config, s: State, step: Step) {
    match step
    case Receive(m) =>
      // Event sources draw fresh identifiers: one may repeat a live subscription, never a finished one.
      s.phase.Looping? && (m.Subscribe? && m.source.Some? ==> m.source.value in s.live || m.source.value !in s.pumps)
    case BadText => s.phase.Looping?
    case PingFrame(_) => s.phase.Looping?
    case QuietInput => s.phase.Looping?
    case PeerClosed => s.phase.Looping?
    case BadFrame => s.phase.Looping?
    case Heartbeat => s.phase.Looping?
    case TimedOut => s.phase.Looping?
    case ReportError => s.phase.Erring?
    case HandleReport => s.phase.Looping? && s.reports != []
    case PumpJoined => s.phase.Joining? && s.phase.sub in s.pumps && s.pumps[s.phase.sub].status.Stopped?
    case QueueLastError => s.phase.Leaving?
    case QueueClose => s.phase.SendingClose? && (HasRoom(cfg, s.out) || !s.out.Open())
    case CancelTasks => s.phase.Cancelling?
    case Finish =>
      && s.phase.Draining? && !s.acts.alive && !s.queries.alive
      && forall id :: id in s.live && id in s.pumps ==> s.pumps[id].status.Stopped?
    case StartAction => s.acts.alive && |s.acts.runs| == |s.acts.results| < |s.acts.admitted|
    case EndAction(_) => s.acts.alive && |s.acts.runs| == |s.acts.results| + 1 && ReportsHaveRoom(cfg, s)
    case StopActionWorker => s.cancelled && s.acts.alive
    case StartQuery =>
      s.queries.alive && s.queries.holding.None? && s.queries.waiting != [] && |s.queries.inFlight| < cfg.maxInFlight
    case JoinQuery(ticket, response) =>
      && s.queries.alive && s.queries.holding.None? && ticket in s.queries.inFlight
      && (cfg.executorKeepsIds && response.Some? ==> ticket < |s.queries.admitted| && Answers(response.value, s.queries.admitted[ticket]))
    case ReportQuery => s.queries.alive && s.queries.holding.Some? && ReportsHaveRoom(cfg, s)
    case StopQueryWorker => s.cancelled && s.queries.alive && s.queries.holding.None?
    case PullEvent(id, _) => PumpIs(s, id, true)
    case PullEnd(id) => PumpIs(s, id, true)
    case PullError(id, _) => PumpIs(s, id, true)
    case ReportPump(id) => PumpIs(s, id, false) && ReportsHaveRoom(cfg, s)
    case StopPump(id) => PumpIs(s, id, true) && (s.cancelled || s.pumps[id].cancelled)
    case WriterTakes => s.out.writer.Writing? && s.out.taken < |s.out.queue|
    case WriterFails => s.out.writer.Writing? && ReportsHaveRoom(cfg, s)
    case WriterCancels => s.out.writer.Failing?
    case WriterStops => s.out.writer.Writing? || s.out.writer.Cancelled?
    case ReaderStops => ReportsHaveRoom(cfg, s)
  }

  /** The response carries the job's own request id and query type. */
  predicate Answers(r: Response, job: QueryJob) {
    r.request == job.request && r.queryType == job.queryType
  }

  function NextAction(s: State, step: Step): Actions
    requires step.StartAction? ==> |s.acts.runs| < |s.acts.admitted|
  {
    match step
    case StartAction => s.acts.(runs := s.acts.runs + [s.acts.admitted[|s.acts.runs|]])
    case EndAction(result) => s.acts.(results := s.acts.results + [result])
    case _ => s.acts.(alive := false)
  }

  function NextQuery(s: State, step: Step): Queries
    requires step.StartQuery? ==> s.queries.waiting != []
  {
    var q := s.queries;
    match step
    case StartQuery => q.(waiting := q.waiting[1..], inFlight := q.inFlight + {q.waiting[0]})
    case JoinQuery(ticket, None) => q.(inFlight := q.inFlight - {ticket}, lost := q.lost + multiset{ticket})
    case JoinQuery(ticket, Some(response)) =>
      q.(inFlight := q.inFlight - {ticket}, holding := Some(QueryCompleted(ticket, response)), responses := q.responses[ticket := response])
    case ReportQuery => q.(holding := None)
    case _ => q.(waiting := [], inFlight := {}, lost := q.lost + multiset(q.waiting) + multiset(q.inFlight), alive := false)
  }

  function NextPump(cfg: Config, s: State, step: Step): Pump
    requires IsPumpStep(step) && step.sub in s.pumps
  {
    var p := s.pumps[step.sub];
    match step
    case PullEvent(id, e) =>
      if HasRoom(cfg, s.out) then p.(pulled := p.pulled + [e], sent := p.sent + 1)
      else p.(pulled := p.pulled + [e], status := Reporting(SlowConsumer(id)))
    case PullEnd(id) => p.(status := Reporting(SubscriptionFinished(id)))
    case PullError(id, lagged) => p.(status := Reporting(EventSourceFailed(id, lagged, HasRoom(cfg, s.out))))
    case _ => p.(status := Stopped)
  }

  function InputStep(cfg: Config, s: State, step: Step): State
    requires IsInput(step)
  {
    var room := HasRoom(cfg, s.out);
    match step
    case BadText => PushMessage(cfg, s, OtherError(None), General).(phase := if room then Looping else Leaving(true))
    case PingFrame(payload) => s.(out := Push(cfg, s.out, Queued(NativePong(payload), General)), phase := if room then Looping else Leaving(true))
    case QuietInput => s
    case PeerClosed => s.(phase := Leaving(false))
    case BadFrame => PushMessage(cfg, s, OtherError(None), General).(phase := Leaving(!room))
    case Heartbeat => s.(out := Push(cfg, s.out, Queued(NativePing, General)), phase := if room then Looping else Leaving(true))
    case TimedOut => s.(phase := Leaving(true))
  }

  function ControlStep(cfg: Config, s: State, step: Step): State
    requires IsControl(step) && Enabled(cfg, s, step)
  {
    match step
    case ReportError => TellError(cfg, s)
    case PumpJoined => FinishJoin(cfg, s)
    case QueueLastError => (if s.phase.queueError then PushMessage(cfg, s, OtherError(None), General) else s).(phase := SendingClose)
    case QueueClose => s.(out := Push(cfg, s.out, Queued(Close, General)), conn := Shutdown(s.conn), phase := Cancelling)
    case CancelTasks => s.(cancelled := true, phase := Draining)
    case Finish => s.(phase := Finished)
  }

  function PumpStep(cfg: Config, s: State, step: Step): State
    requires IsPumpStep(step) && Enabled(cfg, s, step)
  {
    var id := step.sub;
    var moved := s.(pumps := s.pumps[id := NextPump(cfg, s, step)]);
    match step
    case PullEvent(_, e) => PushMessage(cfg, moved, EventMessage(e), ForSub(id))
    case PullError(_, _) => PushMessage(cfg, moved, OtherError(None), General)
    case ReportPump(_) => moved.(reports := s.reports + [s.pumps[id].status.report])
    case _ => moved
  }

  function TaskStep(cfg: Config, s: State, step: Step): State
    requires IsQuietTask(step) && Enabled(cfg, s, step)
  {
    match step
    case StartAction => s.(acts := NextAction(s, step))
    case EndAction(result) =>
      var job := s.acts.runs[|s.acts.runs| - 1];
      s.(acts := NextAction(s, step), reports := s.reports + [ActionCompleted(job.request, job.action, result)])
    case StopActionWorker => s.(acts := NextAction(s, step))
    case StartQuery => s.(queries := NextQuery(s, step))
    case JoinQuery(_, _) => s.(queries := NextQuery(s, step))
    case ReportQuery => s.(queries := NextQuery(s, step), reports := s.reports + [s.queries.holding.value])
    case StopQueryWorker => s.(queries := NextQuery(s, step))
    case WriterTakes => s.(out := s.out.(taken := s.out.taken + 1))
    case WriterFails => s.(out := s.out.(writer := Failing), reports := s.reports + [WriterFailed])
    case WriterCancels => s.(out := s.out.(writer := Cancelled), cancelled := true)
    case WriterStops => s.(out := s.out.(writer := Gone))
    case ReaderStops => s.(reports := s.reports + [ReaderFailed])
  }

  function Next(cfg: Config, s: State, step: Step): State
    requires Enabled(cfg, s, step)
  {
    if step.Receive? then AfterInbound(HandleInbound(cfg, s, step.message))
    else if step.HandleReport? then TakeReport(cfg, s)
    else if IsInput(step) then InputStep(cfg, s, step)
    else if IsControl(step) then ControlStep(cfg, s, step)
    else if IsPumpStep(step) then PumpStep(cfg, s, step)
    else TaskStep(cfg, s, step)
  }

  /** The state after a run from a new connection, or nothing when some step was not enabled. */
  function Exec(cfg: Config, run: seq<Step>): Option<State> {
    if run == [] then Some(INIT) else
    var before := Exec(cfg, run[..|run| - 1]);
    if before.Some? && Enabled(cfg, before.value, run[|run| - 1]) then Some(Next(cfg, before.value, run[|run| - 1])) else None
  }

  /** The states a connection goes through: from a new one, each follows from the last by one enabled step. */
  ghost predicate IsRun(cfg: Config, states: seq<State>, steps: seq<Step>) {
    && |states| == |steps| + 1 && states[0] == INIT
    && forall i {:trigger steps[i]} :: 0 <= i < |steps| ==> Enabled(cfg, states[i], steps[i]) && states[i + 1] == Next(cfg, states[i], steps[i])
  }

  /** Every state of a run is the one its steps so far lead to. */
  lemma {:induction false} RunReaches(cfg: Config, states: seq<State>, steps: seq<Step>, i: nat)
    requires IsRun(cfg, states, steps) && i < |states|
    ensures Exec(cfg, steps[..i]) == Some(states[i])
    decreases i
  {
    if i > 0 {
      RunReaches(cfg, states, steps, i - 1);
      assert steps[..i][..i - 1] == steps[..i - 1];
      assert steps[..i][i - 1] == steps[i - 1];
    }
  }

  /** What was queued between two states that queued at most one command. */
  function Added(before: seq<Queued>, after: seq<Queued>): seq<Queued> {
    if |after| == |before| + 1 then [after[|before|]] else []
  }

  /** Every step queues at most one command, behind everything queued before. */
  predicate Grew(before: seq<Queued>, after: seq<Queued>) {
    after == before + Added(before, after)
  }
}
