/**
 * The writer composed with the coordinator: what the connection's runs keep on the queue
 * holds of the frames the writer puts on the wire.
 */
module FramesWritten {
  import opened Prelude
  import opened Coordinator
  import ConnectionLifecycle
  import opened SubscriptionOrder
  import opened ActionReplies
  import Writer

  /** A queued command as the writer sees it, its message encoded by the codec. */
  function CommandOf(encode: Outbound -> Option<string>, c: WriterCommand): Writer.Command {
    match c
    case Application(m) => Writer.Application(encode(m))
    case NativePing => Writer.NativePing([])
    case NativePong(payload) => Writer.NativePong(payload)
    case Close => Writer.Close
  }

  function Commands(encode: Outbound -> Option<string>, queue: seq<Queued>): (r: seq<Writer.Command>)
    ensures |r| == |queue| && forall i :: 0 <= i < |r| ==> r[i] == CommandOf(encode, queue[i].command)
  {
    seq(|queue|, i requires 0 <= i < |queue| => CommandOf(encode, queue[i].command))
  }

  /** What was queued in one state is queued, in the same place, in every later one. */
  lemma {:induction false} QueueOnlyGrows(cfg: Config, states: seq<State>, steps: seq<Step>, i: nat, j: nat)
    requires IsRun(cfg, states, steps) && i <= j < |states|
    ensures states[i].out.queue <= states[j].out.queue && |states[j].out.queue| <= |states[i].out.queue| + (j - i)
    decreases j
  {
    if i < j {
      QueueOnlyGrows(cfg, states, steps, i, j - 1);
      ConnectionLifecycle.EveryStepIsLifecycleStep(cfg, states[j - 1], steps[j - 1]);
    }
  }

  /** The frame carries the command: a message's own encoding as text, a ping or pong with its payload, or the close. */
  predicate FrameFor(encode: Outbound -> Option<string>, c: WriterCommand, frame: Writer.Frame) {
    match c
    case Application(m) => frame.Text? && encode(m) == Some(frame.text)
    case NativePing => frame == Writer.Ping([])
    case NativePong(payload) => frame == Writer.Pong(payload)
    case Close => frame == Writer.CloseFrame
  }

  // ---------------------------------------------------------------------------
  // Prefixes of a queue.

  /** The queued commands whose frames were written. */
  function Written(queue: seq<Queued>, frames: seq<Writer.Frame>): seq<Queued> {
    if |frames| <= |queue| then queue[..|frames|] else queue
  }

  lemma {:induction false} MarksOfPrefix(queue: seq<Queued>, n: nat, id: SubId)
    requires n <= |queue|
    ensures Marks(queue[..n], id) <= Marks(queue, id)
    decreases |queue|
  {
    if n < |queue| {
      var shorter := queue[..|queue| - 1];
      MarksOfPrefix(shorter, n, id);
      assert shorter[..n] == queue[..n];
    } else {
      assert queue[..n] == queue;
    }
  }

  lemma {:induction false} RepliesOfPrefix(queue: seq<Queued>, n: nat)
    requires n <= |queue|
    ensures Replies(queue[..n]) <= Replies(queue)
    decreases |queue|
  {
    if n < |queue| {
      var shorter := queue[..|queue| - 1];
      RepliesOfPrefix(shorter, n);
      assert shorter[..n] == queue[..n];
    } else {
      assert queue[..n] == queue;
    }
  }

  /** Nothing; or Accepted, events gap-free from the source's first, and at most one Closed, last. */
  ghost predicate StreamsFrom(marks: seq<Mark>, source: seq<SourceEvent>) {
    || marks == []
    || exists n :: 0 <= n <= |source| && (marks == [Accepted] + Events(source[..n]) || marks == [Accepted] + Events(source[..n]) + [Closed])
  }

  lemma {:induction false} StreamPrefix(marks: seq<Mark>, shorter: seq<Mark>, source: seq<SourceEvent>)
    requires StreamsFrom(marks, source) && shorter <= marks
    ensures StreamsFrom(shorter, source)
  {
    if shorter != [] && shorter != marks {
      var n :| 0 <= n <= |source| && (marks == [Accepted] + Events(source[..n]) || marks == [Accepted] + Events(source[..n]) + [Closed]);
      var m := |shorter| - 1;
      assert source[..n][..m] == source[..m];
      assert shorter == [Accepted] + Events(source[..m]);
    }
  }

  // ---------------------------------------------------------------------------
  // Main results.

  /**
   * Whatever frames a writer writes in order from the queue of any state of any run, they
   * are the frames of a prefix of what was queued, followed at most by a close when every
   * sender is gone; and nothing queued behind a Close is written.
   */
  lemma {:induction false} FramesAreQueued(
    encode: Outbound -> Option<string>, queue: seq<Queued>, frames: seq<Writer.Frame>)
    requires Writer.InOrder(Commands(encode, queue), frames)
    ensures Written(queue, frames) <= queue
    ensures |frames| == |Written(queue, frames)| || frames == frames[..|queue|] + [Writer.CloseFrame]
    ensures forall i :: 0 <= i < |Written(queue, frames)| ==> FrameFor(encode, queue[i].command, frames[i])
    ensures forall i :: 0 <= i < |Written(queue, frames)| - 1 ==> queue[i].command != Close
  {
    if |frames| > |queue| {
      assert frames[|queue|] == Writer.CloseFrame;
    }
    forall i | 0 <= i < |Written(queue, frames)| ensures FrameFor(encode, queue[i].command, frames[i]) {
      assert Writer.FrameOf(CommandOf(encode, queue[i].command)) == Some(frames[i]);
    }
    forall i | 0 <= i < |Written(queue, frames)| - 1 ensures queue[i].command != Close {
      assert frames[i] != Writer.CloseFrame;
    }
  }

  /**
   * On the wire, each subscription's messages are Accepted, then a gap-free prefix of its
   * source's events, then at most one Closed and nothing after it.
   */
  lemma {:induction false} SubscriptionsWrittenInOrder(
    cfg: Config, states: seq<State>, steps: seq<Step>, i: nat, frames: seq<Writer.Frame>, id: SubId)
    requires IsRun(cfg, states, steps) && i < |states|
    ensures StreamsFrom(Marks(Written(states[i].out.queue, frames), id), if id in states[i].pumps then states[i].pumps[id].pulled else [])
  {
    var queue := states[i].out.queue;
    var n := |Written(queue, frames)|;
    SubscriptionsStayInOrder(cfg, states, steps, i, id);
    assert Written(queue, frames) == queue[..n];
    MarksOfPrefix(queue, n, id);
    StreamPrefix(Marks(queue, id), Marks(queue[..n], id), if id in states[i].pumps then states[i].pumps[id].pulled else []);
  }

  /** On the wire, actions are answered in arrival order, each with its own ids and outcome. */
  lemma {:induction false} RepliesWrittenInOrder(
    cfg: Config, states: seq<State>, steps: seq<Step>, n: nat, frames: seq<Writer.Frame>)
    requires IsRun(cfg, states, steps) && n < |states|
    ensures var a, replies := states[n].acts, Replies(Written(states[n].out.queue, frames));
            && |replies| <= |a.results| <= |a.admitted|
            && forall i :: 0 <= i < |replies| ==> replies[i] == ActionReply(a.admitted[i].request, a.admitted[i].action, a.results[i])
  {
    var queue := states[n].out.queue;
    ActionsAnsweredInOrder(cfg, states, steps, n);
    assert Written(queue, frames) == queue[..|Written(queue, frames)|];
    RepliesOfPrefix(queue, |Written(queue, frames)|);
  }

  /** The writer run on everything a connection queued: its frames keep both orders. */
  method WriteQueue(
    cfg: Config, ghost states: seq<State>, ghost steps: seq<Step>, ghost n: nat, queue: seq<Queued>,
    encode: Outbound -> Option<string>, turns: nat -> Writer.Turn, closing: Writer.WriteEnd)
    returns (frames: seq<Writer.Frame>, result: Result<(), Writer.WriterError>)
    requires IsRun(cfg, states, steps) && n < |states| && queue == states[n].out.queue
    ensures forall i :: 0 <= i < |Written(queue, frames)| ==> FrameFor(encode, queue[i].command, frames[i])
    ensures |frames| <= |Written(queue, frames)| + 1
    ensures forall i :: 0 <= i < |frames| - 1 ==> frames[i] != Writer.CloseFrame
    ensures forall id :: StreamsFrom(Marks(Written(queue, frames), id), if id in states[n].pumps then states[n].pumps[id].pulled else [])
    ensures var a, replies := states[n].acts, Replies(Written(queue, frames));
            && |replies| <= |a.results| <= |a.admitted|
            && forall i :: 0 <= i < |replies| ==> replies[i] == ActionReply(a.admitted[i].request, a.admitted[i].action, a.results[i])
  {
    var sinkClosed;
    frames, sinkClosed, result := Writer.WriterLoop(Commands(encode, queue), turns, closing);
    FramesAreQueued(encode, queue, frames);
    RepliesWrittenInOrder(cfg, states, steps, n, frames);
    forall id ensures StreamsFrom(Marks(Written(queue, frames), id), if id in states[n].pumps then states[n].pumps[id].pulled else []) {
      SubscriptionsWrittenInOrder(cfg, states, steps, n, frames, id);
    }
  }
}
