/** Actions are admitted for the bound actor, run one at a time, and answered in arrival order. */
module ActionReplies {
  import opened Prelude
  import opened Connection
  import opened Coordinator
  import opened ConnectionLifecycle

  function RepliedBy(q: Queued): seq<Outbound> {
    if q.command.Application? && (q.command.message.Acknowledgement? || q.command.message.ExecutionError?)
    then [q.command.message] else []
  }

  /** The acknowledgements and execution errors on the outbound queue, in order. */
  function Replies(queue: seq<Queued>): seq<Outbound> {
    if queue == [] then [] else Replies(queue[..|queue| - 1]) + RepliedBy(queue[|queue| - 1])
  }

  function ReportedBy(r: Report): seq<Outbound> {
    if r.ActionCompleted? then [ActionReply(r.request, r.action, r.result)] else []
  }

  /** The answers still to be given for completed actions, in order. */
  function Completions(reports: seq<Report>): seq<Outbound> {
    if reports == [] then [] else ReportedBy(reports[0]) + Completions(reports[1..])
  }

  /** The answers the jobs run so far deserve: the i-th job's own ids with its own outcome. */
  function Reported(a: Actions): (r: seq<Outbound>)
    requires |a.results| <= |a.runs|
    ensures |r| == |a.results|
    ensures forall i :: 0 <= i < |r| ==> r[i] == ActionReply(a.runs[i].request, a.runs[i].action, a.results[i])
  {
    seq(|a.results|, i requires 0 <= i < |a.results| => ActionReply(a.runs[i].request, a.runs[i].action, a.results[i]))
  }

  /** Jobs run in admission order, each once and at most one beyond those reported. */
  predicate RunsInOrder(a: Actions) {
    a.runs <= a.admitted && |a.results| <= |a.runs| <= |a.results| + 1
  }

  predicate ActsForActor(s: State) {
    forall i :: 0 <= i < |s.acts.admitted| ==> s.conn.identity == Some(s.acts.admitted[i].actor)
  }

  /** Answered, then completed, are the reported jobs; after the loop is left nothing more is answered. */
  predicate Balanced(inLoop: bool, replies: seq<Outbound>, completions: seq<Outbound>, reported: seq<Outbound>) {
    if inLoop then replies + completions == reported else replies <= reported
  }

  predicate RepliesHold(s: State) {
    && RunsInOrder(s.acts)
    && Balanced(s.phase.InLoop(), Replies(s.out.queue), Completions(s.reports), Reported(s.acts))
  }

  lemma {:induction false} RepliesGrow(before: seq<Queued>, after: seq<Queued>)
    requires Grew(before, after)
    ensures Replies(after) == Replies(before) + if Added(before, after) == [] then [] else RepliedBy(Added(before, after)[0])
  {
    if Added(before, after) != [] {
      assert after[..|before|] == before;
    } else {
      assert after == before;
      assert Replies(before) + [] == Replies(before);
    }
  }

  lemma {:induction false} CompletionsAppend(reports: seq<Report>, r: Report)
    ensures Completions(reports + [r]) == Completions(reports) + ReportedBy(r)
    decreases |reports|
  {
    if reports == [] {
      assert [r][1..] == [];
      assert ReportedBy(r) + [] == [] + ReportedBy(r);
    } else {
      assert (reports + [r])[1..] == reports[1..] + [r];
      CompletionsAppend(reports[1..], r);
    }
  }

  /** What one step may do as far as actions are concerned. */
  datatype Change =
    | Nothing                       // no action is touched, though other reports may come or go
    | Admits(job: ActionJob)
    | Starts
    | Completes(report: Report)     // the worker reports the job it ran
    | Answers                       // the coordinator answers the oldest report, or gives up

  predicate Unanswered(s: State, s': State) {
    forall q :: q in Added(s.out.queue, s'.out.queue) ==> RepliedBy(q) == []
  }

  /** Reports other than completions may be added at the end or taken from the front. */
  predicate OtherReports(s: State, s': State) {
    || s'.reports == s.reports
    || (|s'.reports| == |s.reports| + 1 && s'.reports == s.reports + [s'.reports[|s.reports|]] && !s'.reports[|s.reports|].ActionCompleted?)
    || (s.reports != [] && s'.reports == s.reports[1..] && !s.reports[0].ActionCompleted?)
  }

  predicate ActionStep(s: State, s': State, change: Change) {
    && Grew(s.out.queue, s'.out.queue) && (s'.phase.InLoop() ==> s.phase.InLoop())
    && match change
       case Nothing =>
         && s'.acts == s.acts.(alive := s'.acts.alive) && OtherReports(s, s') && Unanswered(s, s')
       case Admits(job) =>
         && s'.acts == s.acts.(admitted := s.acts.admitted + [job]) && s'.reports == s.reports && Unanswered(s, s')
         && s'.conn == s.conn && s.conn.identity == Some(job.actor) && s.conn.state.Ready?
       case Starts =>
         && |s.acts.runs| == |s.acts.results| < |s.acts.admitted|
         && s'.acts == s.acts.(runs := s.acts.runs + [s.acts.admitted[|s.acts.runs|]])
         && s'.reports == s.reports && Unanswered(s, s')
       case Completes(r) =>
         && |s.acts.runs| == |s.acts.results| + 1 && r.ActionCompleted? && s'.acts == s.acts.(results := s.acts.results + [r.result])
         && r.request == s.acts.runs[|s.acts.results|].request && r.action == s.acts.runs[|s.acts.results|].action
         && s'.reports == s.reports + [r] && Unanswered(s, s')
       case Answers =>
         && s.phase.InLoop() && s.reports != [] && s.reports[0].ActionCompleted? && s'.reports == s.reports[1..] && s'.acts == s.acts
         && ( || (Added(s.out.queue, s'.out.queue) != [] && RepliedBy(Added(s.out.queue, s'.out.queue)[0]) == ReportedBy(s.reports[0]))
              || (Added(s.out.queue, s'.out.queue) == [] && !s'.phase.InLoop()))
  }

  lemma {:induction false} OtherReportsComplete(s: State, s': State)
    requires OtherReports(s, s')
    ensures Completions(s'.reports) == Completions(s.reports)
  {
    if |s'.reports| == |s.reports| + 1 {
      CompletionsAppend(s.reports, s'.reports[|s.reports|]);
    }
  }

  lemma {:induction false} ReportedGrows(a: Actions, a': Actions, r: Report)
    requires RunsInOrder(a) && |a.runs| == |a.results| + 1 && r.ActionCompleted? && a' == a.(results := a.results + [r.result])
    requires r.request == a.runs[|a.results|].request && r.action == a.runs[|a.results|].action
    ensures RunsInOrder(a') && Reported(a') == Reported(a) + ReportedBy(r)
  {
  }

  lemma {:induction false} StartKeepsReported(a: Actions, a': Actions)
    requires RunsInOrder(a) && |a.runs| == |a.results| < |a.admitted|
    requires a' == a.(runs := a.runs + [a.admitted[|a.runs|]])
    ensures RunsInOrder(a') && Reported(a') == Reported(a)
  {
    assert a'.runs[..|a.runs|] == a.runs;
  }

  /** Standing still or leaving the loop keeps the balance, with or without a new completion. */
  lemma {:induction false} BalanceKept(
    inLoop: bool, inLoop': bool, replies: seq<Outbound>, completions: seq<Outbound>, reported: seq<Outbound>, r: seq<Outbound>)
    requires inLoop' ==> inLoop
    requires Balanced(inLoop, replies, completions, reported)
    ensures Balanced(inLoop', replies, completions + r, reported + r)
  {
    assert replies + (completions + r) == (replies + completions) + r;
  }

  /** The oldest completion is answered, or the loop is left without answering it. */
  lemma {:induction false} BalanceAnswered(
    inLoop': bool, replies: seq<Outbound>, completions: seq<Outbound>, reported: seq<Outbound>, r: Outbound, rest: seq<Outbound>)
    requires completions == [r] + rest && Balanced(true, replies, completions, reported)
    ensures Balanced(inLoop', replies + [r], rest, reported) && Balanced(false, replies, rest, reported)
  {
    assert (replies + [r]) + rest == replies + completions;
  }

  lemma {:induction false} QuietChangeKept(s: State, s': State, change: Change)
    requires RepliesHold(s) && ActionStep(s, s', change) && (change.Nothing? || change.Admits? || change.Starts?)
    ensures RunsInOrder(s'.acts) && Reported(s'.acts) == Reported(s.acts) && Completions(s'.reports) == Completions(s.reports)
  {
    match change
    case Nothing => OtherReportsComplete(s, s');
    case Admits(_) =>
    case Starts => StartKeepsReported(s.acts, s'.acts);
  }

  lemma {:induction false} NoReplyAdded(s: State, s': State)
    requires Grew(s.out.queue, s'.out.queue) && Unanswered(s, s')
    ensures Replies(s'.out.queue) == Replies(s.out.queue)
  {
    RepliesGrow(s.out.queue, s'.out.queue);
    assert Replies(s.out.queue) + [] == Replies(s.out.queue);
  }

  lemma {:induction false} CompletionKept(s: State, s': State, change: Change)
    requires RepliesHold(s) && ActionStep(s, s', change) && change.Completes?
    ensures RepliesHold(s')
  {
    NoReplyAdded(s, s');
    ReportedGrows(s.acts, s'.acts, change.report);
    CompletionsAppend(s.reports, change.report);
    BalanceKept(s.phase.InLoop(), s'.phase.InLoop(), Replies(s.out.queue), Completions(s.reports), Reported(s.acts), ReportedBy(change.report));
  }

  lemma {:induction false} RepliesKept(s: State, s': State, change: Change)
    requires RepliesHold(s) && ActionStep(s, s', change)
    ensures RepliesHold(s')
  {
    if change.Completes? {
      CompletionKept(s, s', change);
    } else if change.Answers? {
      AnswersKept(s, s');
    } else {
      NoReplyAdded(s, s');
      QuietChangeKept(s, s', change);
    }
  }

  lemma {:induction false} AnswersKept(s: State, s': State)
    requires RepliesHold(s) && ActionStep(s, s', Answers)
    ensures RepliesHold(s')
  {
    RepliesGrow(s.out.queue, s'.out.queue);
    var replies, completions, r := Replies(s.out.queue), Completions(s.reports), ReportedBy(s.reports[0])[0];
    assert replies + [] == replies;
    BalanceAnswered(s'.phase.InLoop(), replies, completions, Reported(s.acts), r, Completions(s'.reports));
  }

  // Every step is one of these changes.

  lemma {:induction false} AdmissionIsActionStep(cfg: Config, s: State, m: Inbound) returns (change: Change)
    requires s.phase.Looping? && m.ActionMessage?
    ensures ActionStep(s, AfterInbound(HandleAction(cfg, s, m)), change) && !change.Answers?
  {
    change := if HandleAction(cfg, s, m).verdict.Fine? then Admits(m.job) else Nothing;
  }

  lemma {:induction false} OtherInboundIsActionStep(cfg: Config, s: State, m: Inbound)
    requires s.phase.Looping? && !m.ActionMessage?
    ensures ActionStep(s, AfterInbound(HandleInbound(cfg, s, m)), Nothing)
  {
    var h := HandleInbound(cfg, s, m);
    assert ActionStep(s, h.state, Nothing);
  }

  lemma {:induction false} InboundIsActionStep(cfg: Config, s: State, m: Inbound) returns (change: Change)
    requires s.phase.Looping?
    ensures ActionStep(s, AfterInbound(HandleInbound(cfg, s, m)), change) && !change.Answers?
  {
    if m.ActionMessage? {
      change := AdmissionIsActionStep(cfg, s, m);
    } else {
      OtherInboundIsActionStep(cfg, s, m);
      change := Nothing;
    }
  }

  lemma {:induction false} ReportIsActionStep(cfg: Config, s: State) returns (change: Change)
    requires s.phase.Looping? && s.reports != []
    ensures ActionStep(s, TakeReport(cfg, s), change)
  {
    change := if s.reports[0].ActionCompleted? then Answers else Nothing;
  }

  lemma {:induction false} InputIsActionStep(cfg: Config, s: State, step: Step)
    requires Enabled(cfg, s, step) && IsInput(step)
    ensures ActionStep(s, InputStep(cfg, s, step), Nothing)
  {
  }

  lemma {:induction false} ControlIsActionStep(cfg: Config, s: State, step: Step)
    requires Enabled(cfg, s, step) && IsControl(step)
    ensures ActionStep(s, ControlStep(cfg, s, step), Nothing)
  {
  }

  /** Pumps report only on their subscription, and the query worker only completed queries. */
  predicate PumpHonest(p: Pump) {
    p.status.Reporting? ==> p.status.report.SubscriptionFinished? || p.status.report.EventSourceFailed? || p.status.report.SlowConsumer?
  }

  predicate ReportersHonest(s: State) {
    && (forall id :: id in s.pumps ==> PumpHonest(s.pumps[id]))
    && (s.queries.holding.Some? ==> s.queries.holding.value.QueryCompleted?)
  }

  /** A step that adds, cancels or closes pumps, or makes one report on its own subscription. */
  predicate HonestStep(s: State, s': State) {
    && (s'.queries.holding == s.queries.holding || s'.queries.holding.None? || s'.queries.holding.value.QueryCompleted?)
    && forall id :: id in s'.pumps ==> PumpHonest(s'.pumps[id]) || (id in s.pumps && s'.pumps[id].status == s.pumps[id].status)
  }

  lemma {:induction false} PumpIsHonestStep(cfg: Config, s: State, step: Step)
    requires Enabled(cfg, s, step) && IsPumpStep(step)
    ensures HonestStep(s, PumpStep(cfg, s, step))
  {
    assert PumpHonest(NextPump(cfg, s, step));
  }

  lemma {:induction false} SubscribingIsHonestStep(cfg: Config, s: State, m: Inbound)
    requires m.Subscribe? || m.Unsubscribe?
    ensures HonestStep(s, AfterInbound(HandleInbound(cfg, s, m)))
  {
    var h := HandleInbound(cfg, s, m);
    assert HonestStep(s, h.state);
  }

  lemma {:induction false} InboundIsHonestStep(cfg: Config, s: State, m: Inbound)
    ensures HonestStep(s, AfterInbound(HandleInbound(cfg, s, m)))
  {
    if m.Subscribe? || m.Unsubscribe? {
      SubscribingIsHonestStep(cfg, s, m);
    } else {
      assert HandleInbound(cfg, s, m).state.pumps == s.pumps;
    }
  }

  lemma {:induction false} ReportIsHonestStep(cfg: Config, s: State)
    requires s.reports != []
    ensures HonestStep(s, TakeReport(cfg, s))
  {
    var r, rest := s.reports[0], s.(reports := s.reports[1..]);
    if !r.ActionCompleted? && !r.QueryCompleted? {
      assert HonestStep(rest, FollowReport(cfg, rest, r));
    }
  }

  lemma {:induction false} InputIsHonestStep(cfg: Config, s: State, step: Step)
    requires Enabled(cfg, s, step) && IsInput(step)
    ensures HonestStep(s, InputStep(cfg, s, step))
  {
    assert InputStep(cfg, s, step).pumps == s.pumps;
  }

  lemma {:induction false} ControlIsHonestStep(cfg: Config, s: State, step: Step)
    requires Enabled(cfg, s, step) && IsControl(step)
    ensures HonestStep(s, ControlStep(cfg, s, step))
  {
    if step.PumpJoined? {
      assert HonestStep(s, FinishJoin(cfg, s));
    } else {
      assert ControlStep(cfg, s, step).pumps == s.pumps;
    }
  }

  lemma {:induction false} TaskIsHonestStep(cfg: Config, s: State, step: Step)
    requires Enabled(cfg, s, step) && IsQuietTask(step)
    ensures HonestStep(s, TaskStep(cfg, s, step))
  {
    assert TaskStep(cfg, s, step).pumps == s.pumps;
  }

  lemma {:induction false} StepIsHonestStep(cfg: Config, s: State, step: Step)
    requires Enabled(cfg, s, step)
    ensures HonestStep(s, Next(cfg, s, step))
  {
    if step.Receive? {
      InboundIsHonestStep(cfg, s, step.message);
    } else if step.HandleReport? {
      ReportIsHonestStep(cfg, s);
    } else if IsInput(step) {
      InputIsHonestStep(cfg, s, step);
    } else if IsControl(step) {
      ControlIsHonestStep(cfg, s, step);
    } else if IsPumpStep(step) {
      PumpIsHonestStep(cfg, s, step);
    } else {
      TaskIsHonestStep(cfg, s, step);
    }
  }

  lemma {:induction false} HonestKept(s: State, s': State)
    requires ReportersHonest(s) && HonestStep(s, s')
    ensures ReportersHonest(s')
  {
    forall id | id in s'.pumps ensures PumpHonest(s'.pumps[id]) {
      assert id in s.pumps ==> PumpHonest(s.pumps[id]);
    }
  }

  lemma {:induction false} ReportPumpIsActionStep(cfg: Config, s: State, step: Step)
    requires Enabled(cfg, s, step) && step.ReportPump? && ReportersHonest(s)
    ensures ActionStep(s, PumpStep(cfg, s, step), Nothing)
  {
    assert PumpHonest(s.pumps[step.sub]);
  }

  lemma {:induction false} PumpIsActionStep(cfg: Config, s: State, step: Step)
    requires Enabled(cfg, s, step) && IsPumpStep(step) && ReportersHonest(s)
    ensures ActionStep(s, PumpStep(cfg, s, step), Nothing)
  {
    if step.ReportPump? {
      ReportPumpIsActionStep(cfg, s, step);
    }
  }

  lemma {:induction false} WorkerIsActionStep(cfg: Config, s: State, step: Step) returns (change: Change)
    requires Enabled(cfg, s, step) && (step.StartAction? || step.EndAction?) && RunsInOrder(s.acts)
    ensures ActionStep(s, TaskStep(cfg, s, step), change)
  {
    if step.StartAction? {
      change := Starts;
    } else {
      var job := s.acts.runs[|s.acts.runs| - 1];
      change := Completes(ActionCompleted(job.request, job.action, step.result));
    }
  }

  lemma {:induction false} TaskIsActionStep(cfg: Config, s: State, step: Step) returns (change: Change)
    requires Enabled(cfg, s, step) && IsQuietTask(step) && RunsInOrder(s.acts) && ReportersHonest(s)
    ensures ActionStep(s, TaskStep(cfg, s, step), change)
  {
    if step.StartAction? || step.EndAction? {
      change := WorkerIsActionStep(cfg, s, step);
    } else {
      change := Nothing;
    }
  }

  lemma {:induction false} StepIsActionStep(cfg: Config, s: State, step: Step) returns (change: Change)
    requires Enabled(cfg, s, step) && RunsInOrder(s.acts) && ReportersHonest(s)
    ensures ActionStep(s, Next(cfg, s, step), change)
  {
    if step.Receive? {
      change := InboundIsActionStep(cfg, s, step.message);
    } else if step.HandleReport? {
      change := ReportIsActionStep(cfg, s);
    } else if IsInput(step) {
      InputIsActionStep(cfg, s, step);
      change := Nothing;
    } else if IsControl(step) {
      ControlIsActionStep(cfg, s, step);
      change := Nothing;
    } else if IsPumpStep(step) {
      PumpIsActionStep(cfg, s, step);
      change := Nothing;
    } else {
      change := TaskIsActionStep(cfg, s, step);
    }
  }

  /** Jobs are admitted only for the bound actor, who never changes. */
  lemma {:induction false} ActorKept(s: State, s': State, change: Change)
    requires ActsForActor(s) && ActionStep(s, s', change)
    requires s.conn.identity.Some? ==> s'.conn.identity == s.conn.identity
    ensures ActsForActor(s')
  {
    forall i | 0 <= i < |s'.acts.admitted| ensures s'.conn.identity == Some(s'.acts.admitted[i].actor) {
      assert i < |s.acts.admitted| ==> s.conn.identity == Some(s.acts.admitted[i].actor);
    }
  }

  lemma {:induction false} StepKeepsReplies(cfg: Config, s: State, step: Step, s': State)
    requires Enabled(cfg, s, step) && s' == Next(cfg, s, step)
    requires RepliesHold(s) && ActsForActor(s) && ReportersHonest(s)
    requires s.conn.identity.Some? ==> s'.conn.identity == s.conn.identity
    ensures RepliesHold(s') && ActsForActor(s') && ReportersHonest(s')
  {
    var change := StepIsActionStep(cfg, s, step);
    RepliesKept(s, s', change);
    ActorKept(s, s', change);
    StepIsHonestStep(cfg, s, step);
    HonestKept(s, s');
  }

  lemma {:induction false} RunsKeepReplies(cfg: Config, run: seq<Step>)
    requires Exec(cfg, run).Some?
    ensures RepliesHold(Exec(cfg, run).value) && ActsForActor(Exec(cfg, run).value) && ReportersHonest(Exec(cfg, run).value)
    decreases |run|
  {
    if run == [] {
      assert Reported(INIT.acts) == [];
    } else {
      var n := |run| - 1;
      RunsKeepReplies(cfg, run[..n]);
      var before, after := Exec(cfg, run[..n]).value, Exec(cfg, run).value;
      ActorNeverChanges(cfg, run, n);
      StepKeepsReplies(cfg, before, run[n], after);
    }
  }

  /**
   * In every state of every run the acknowledgements and execution errors queued are a prefix of the
   * answers due to the admitted actions in arrival order, each with that action's own ids
   * and outcome. The jobs run are a prefix of the admitted ones, so none runs twice; one
   * starts only when every earlier one was reported; and all act for the bound actor.
   */
  lemma {:induction false} ActionsAnsweredInOrder(cfg: Config, states: seq<State>, steps: seq<Step>, n: nat)
    requires IsRun(cfg, states, steps) && n < |states|
    ensures var s := states[n]; var a, replies := s.acts, Replies(s.out.queue);
            && a.runs <= a.admitted && |replies| <= |a.results| <= |a.runs| <= |a.results| + 1
            && (forall i :: 0 <= i < |replies| ==> replies[i] == ActionReply(a.admitted[i].request, a.admitted[i].action, a.results[i]))
            && (forall i :: 0 <= i < |a.admitted| ==> s.conn.identity == Some(a.admitted[i].actor))
  {
    RunReaches(cfg, states, steps, n);
    RunsKeepReplies(cfg, steps[..n]);
    assert Replies(states[n].out.queue) <= Reported(states[n].acts);
  }

  /** An action is admitted only by a message naming the bound actor on a Ready connection. */
  lemma {:induction false} AdmittedOnlyWhenReady(cfg: Config, states: seq<State>, steps: seq<Step>, n: nat)
    requires IsRun(cfg, states, steps) && n < |steps|
    ensures var before, after := states[n], states[n + 1];
            || after.acts.admitted == before.acts.admitted
            || (&& before.conn.state.Ready? && |after.acts.admitted| == |before.acts.admitted| + 1
                && after.acts.admitted[..|before.acts.admitted|] == before.acts.admitted
                && before.conn.identity == Some(after.acts.admitted[|before.acts.admitted|].actor))
  {
    RunReaches(cfg, states, steps, n);
    RunsKeepReplies(cfg, steps[..n]);
    var change := StepIsActionStep(cfg, states[n], steps[n]);
  }
}
