/** What every run of the coordinator keeps about negotiation, identity and shutdown. */
module ConnectionLifecycle {
  import opened Prelude
  import opened Connection
  import opened Coordinator

  predicate IsHello(q: Queued) {
    q.command.Application? && q.command.message.HelloAccepted?
  }

  function Hellos(queue: seq<Queued>): nat {
    if queue == [] then 0 else
    Hellos(queue[..|queue| - 1]) + if IsHello(queue[|queue| - 1]) then 1 else 0
  }

  /** Shutdown has not yet touched the connection. */
  predicate BeforeClose(p: Phase) {
    p.InLoop() || p.Leaving? || p.SendingClose?
  }

  /**
   * Until shutdown: the version is negotiated exactly when the state has left
   * Negotiating, and an identity is bound exactly when Ready. From then on: Closed.
   * HelloAccepted is queued at most once, and not before a version is negotiated.
   */
  predicate LifecycleHolds(s: State) {
    && Coherent(s.conn)
    && (if BeforeClose(s.phase) then
          && (s.conn.state.Negotiating? || s.conn.state.Authenticating? || s.conn.state.Ready?)
          && (s.negotiated.Some? <==> !s.conn.state.Negotiating?)
          && (s.conn.identity.Some? <==> s.conn.state.Ready?)
        else s.conn.state.Closed?)
    && Hellos(s.out.queue) <= (if s.negotiated.Some? then 1 else 0)
  }

  predicate NoHello(s: State, s': State) {
    forall q :: q in Added(s.out.queue, s'.out.queue) ==> !IsHello(q)
  }

  /** How one step may change what the lifecycle depends on. */
  predicate LifecycleStep(s: State, s': State) {
    && Grew(s.out.queue, s'.out.queue)
    && ( || (s'.conn == s.conn && s'.negotiated == s.negotiated && BeforeClose(s'.phase) == BeforeClose(s.phase) && NoHello(s, s'))
         || (&& BeforeClose(s.phase) && BeforeClose(s'.phase) && s.conn.state.Negotiating? && s'.negotiated.Some?
             && s'.conn == s.conn.(state := Authenticating))
         || (&& BeforeClose(s.phase) && BeforeClose(s'.phase) && s.conn.state.Authenticating? && s'.negotiated == s.negotiated
             && s'.conn.state.Ready? && s'.conn.identity.Some? && NoHello(s, s'))
         || (&& BeforeClose(s.phase) && !BeforeClose(s'.phase) && s'.negotiated == s.negotiated
             && s'.conn == Shutdown(s.conn) && NoHello(s, s')))
  }

  lemma {:induction false} LifecycleKept(s: State, s': State)
    requires LifecycleHolds(s) && LifecycleStep(s, s')
    ensures LifecycleHolds(s')
    ensures s.conn.identity.Some? ==> s'.conn.identity == s.conn.identity
  {
    ShutdownAlwaysCloses(s.conn);
    var added := Added(s.out.queue, s'.out.queue);
    if added != [] {
      assert s'.out.queue[..|s.out.queue|] == s.out.queue;
    } else {
      assert s'.out.queue == s.out.queue;
    }
  }

  lemma {:induction false} HandshakeIsLifecycleStep(cfg: Config, s: State, m: Inbound)
    requires s.phase.Looping? && (m.Hello? || m.Authenticate?)
    ensures LifecycleStep(s, AfterInbound(HandleInbound(cfg, s, m)))
  {
  }

  lemma {:induction false} InboundIsLifecycleStep(cfg: Config, s: State, m: Inbound)
    requires s.phase.Looping?
    ensures LifecycleStep(s, AfterInbound(HandleInbound(cfg, s, m)))
  {
    if m.Hello? || m.Authenticate? {
      HandshakeIsLifecycleStep(cfg, s, m);
    }
  }

  lemma {:induction false} ReportIsLifecycleStep(cfg: Config, s: State)
    requires s.phase.Looping? && s.reports != []
    ensures LifecycleStep(s, TakeReport(cfg, s))
  {
    var r, rest := s.reports[0], s.(reports := s.reports[1..]);
    if r.ActionCompleted? {
      assert LifecycleStep(rest, ReplyToAction(cfg, rest, r));
    } else if r.QueryCompleted? {
      assert LifecycleStep(rest, ReplyToQuery(cfg, rest, r));
    } else {
      assert LifecycleStep(rest, FollowReport(cfg, rest, r));
    }
  }

  lemma {:induction false} InputIsLifecycleStep(cfg: Config, s: State, step: Step)
    requires Enabled(cfg, s, step) && IsInput(step)
    ensures LifecycleStep(s, InputStep(cfg, s, step))
  {
  }

  lemma {:induction false} ControlIsLifecycleStep(cfg: Config, s: State, step: Step)
    requires Enabled(cfg, s, step) && IsControl(step)
    ensures LifecycleStep(s, ControlStep(cfg, s, step))
  {
  }

  lemma {:induction false} PumpIsLifecycleStep(cfg: Config, s: State, step: Step)
    requires Enabled(cfg, s, step) && IsPumpStep(step)
    ensures LifecycleStep(s, PumpStep(cfg, s, step))
  {
  }

  lemma {:induction false} TaskIsLifecycleStep(cfg: Config, s: State, step: Step)
    requires Enabled(cfg, s, step) && IsQuietTask(step)
    ensures LifecycleStep(s, TaskStep(cfg, s, step))
  {
    assert TaskStep(cfg, s, step).out.queue == s.out.queue;
  }

  lemma {:induction false} EveryStepIsLifecycleStep(cfg: Config, s: State, step: Step)
    requires Enabled(cfg, s, step)
    ensures LifecycleStep(s, Next(cfg, s, step))
  {
    if step.Receive? {
      InboundIsLifecycleStep(cfg, s, step.message);
    } else if step.HandleReport? {
      ReportIsLifecycleStep(cfg, s);
    } else if IsInput(step) {
      InputIsLifecycleStep(cfg, s, step);
    } else if IsControl(step) {
      ControlIsLifecycleStep(cfg, s, step);
    } else if IsPumpStep(step) {
      PumpIsLifecycleStep(cfg, s, step);
    } else {
      TaskIsLifecycleStep(cfg, s, step);
    }
  }

  /** In every run from a new connection. */
  lemma {:induction false} RunsKeepLifecycle(cfg: Config, run: seq<Step>)
    requires Exec(cfg, run).Some?
    ensures LifecycleHolds(Exec(cfg, run).value)
    decreases |run|
  {
    if run != [] {
      var n := |run| - 1;
      RunsKeepLifecycle(cfg, run[..n]);
      EveryStepIsLifecycleStep(cfg, Exec(cfg, run[..n]).value, run[n]);
      LifecycleKept(Exec(cfg, run[..n]).value, Exec(cfg, run).value);
    }
  }

  /**
   * In every state of every run: until shutdown the version is negotiated exactly when the
   * state has left Negotiating, and an identity is bound exactly when Ready; after shutdown
   * the connection is Closed; HelloAccepted is queued at most once.
   */
  lemma {:induction false} LifecycleAlwaysHolds(cfg: Config, states: seq<State>, steps: seq<Step>, i: nat)
    requires IsRun(cfg, states, steps) && i < |states|
    ensures LifecycleHolds(states[i])
  {
    RunReaches(cfg, states, steps, i);
    RunsKeepLifecycle(cfg, steps[..i]);
  }

  /** Once an actor is bound, the same actor stays bound for the rest of the run. */
  lemma {:induction false} ActorNeverChanges(cfg: Config, run: seq<Step>, n: nat)
    requires n <= |run| && Exec(cfg, run).Some?
    ensures Exec(cfg, run[..n]).Some?
    ensures Exec(cfg, run[..n]).value.conn.identity.Some? ==>
              Exec(cfg, run).value.conn.identity == Exec(cfg, run[..n]).value.conn.identity
    decreases |run|
  {
    if n == |run| {
      assert run[..n] == run;
    } else {
      var m := |run| - 1;
      assert run[..m][..n] == run[..n];
      ActorNeverChanges(cfg, run[..m], n);
      RunsKeepLifecycle(cfg, run[..m]);
      EveryStepIsLifecycleStep(cfg, Exec(cfg, run[..m]).value, run[m]);
      LifecycleKept(Exec(cfg, run[..m]).value, Exec(cfg, run).value);
    }
  }
}
