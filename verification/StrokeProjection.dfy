/**
 * Event side of the Stroke aggregate: the projection and the projector that folds one
 * event into it.
 */
module StrokeProjection {
  import opened Prelude
  import opened ProtocolEvents

  datatype Lifecycle = Active | Completed | Cancelled | Removed

  predicate CanTransitionTo(from: Lifecycle, to: Lifecycle) {
    match (from, to)
    case (Active, Completed) => true
    case (Active, Cancelled) => true
    case (Completed, Removed) => true
    case _ => false
  }

  datatype Chunk = Chunk(index: u64, points: seq<Point>)

  datatype Projection = Projection(
    stroke: StrokeId, canvas: CanvasId, layer: LayerId, session: SessionId, creator: ActorId,
    tool: Tool, style: Style, chunks: seq<Chunk>, lifecycle: Lifecycle, createdAt: Timestamp)
  {
    /** `chunk(index)`: by position, and only when the stored index agrees. */
    function ChunkAt(index: u64): Option<Chunk> {
      if index < |chunks| && chunks[index].index == index then Some(chunks[index]) else None
    }

    /** `last_chunk_index`, which panics on an empty chunk list. */
    function LastChunkIndex(): u64
      requires chunks != []
    {
      chunks[|chunks| - 1].index
    }

    function NextChunkIndex(): Option<u64>
      requires chunks != []
    {
      CheckedAdd(LastChunkIndex(), 1)
    }
  }

  datatype ProjectionError =
    | UnexpectedEvent
    | InvalidEventPayload
    | ProjectionAlreadyExists(stroke: StrokeId)
    | ProjectionMissing
    | SessionMismatch(expectedSession: SessionId, actualSession: SessionId)
    | CanvasMismatch(expectedCanvas: CanvasId, actualCanvas: CanvasId)
    | StrokeMismatch(expectedStroke: StrokeId, actualStroke: StrokeId)
    | InvalidHistoryState(stroke: StrokeId, lifecycle: Lifecycle)
    | InvalidHistoryChunk(stroke: StrokeId, expected: u64, actual: u64)
    | ChunkIndexOverflow(stroke: StrokeId)

  /** `CanvasEventData::try_from(event)`. */
  function Decode(event: Event): Result<EventData, ProjectionError> {
    match event.body
    case Canvas(data) => if data.Valid() then Ok(data) else Err(InvalidEventPayload)
    case Malformed(_) => Err(InvalidEventPayload)
    case Foreign(_) => Err(UnexpectedEvent)
  }

  function ValidateIdentity(p: Projection, session: SessionId, canvas: CanvasId, stroke: StrokeId): Option<ProjectionError> {
    if session != p.session then Some(SessionMismatch(p.session, session))
    else if canvas != p.canvas then Some(CanvasMismatch(p.canvas, canvas))
    else if stroke != p.stroke then Some(StrokeMismatch(p.stroke, stroke))
    else None
  }

  /** A projection the projector can have produced: it still holds chunk zero. */
  predicate HasChunk(p: Option<Projection>) {
    p.Some? ==> p.value.chunks != []
  }

  /**
   * `StrokeProjector::apply`. The `expect` inside `last_chunk_index` is the only
   * demand on the projection, and the result meets it again.
   */
  function Apply(projection: Option<Projection>, event: Event): (r: Result<Projection, ProjectionError>)
    requires HasChunk(projection)
    ensures r.Ok? ==> r.value.chunks != []
  {
    match Decode(event)
    case Err(e) => Err(e)
    case Ok(data) =>
      match data
      case StrokeBegan(b) =>
        if projection.Some? then Err(ProjectionAlreadyExists(projection.value.stroke))
        else Ok(Projection(b.stroke, b.canvas, b.layer, event.session, event.actor, b.tool, b.style,
                           [Chunk(b.chunkIndex, b.points)], Active, event.occurredAt))
      case StrokePointsAppended(a) =>
        if projection.None? then Err(ProjectionMissing) else
        var p := projection.value;
        var mismatch := ValidateIdentity(p, event.session, a.canvas, a.stroke);
        if mismatch.Some? then Err(mismatch.value)
        else if p.lifecycle != Active then Err(InvalidHistoryState(p.stroke, p.lifecycle))
        else if p.NextChunkIndex().None? then Err(ChunkIndexOverflow(p.stroke))
        else if a.chunkIndex != p.NextChunkIndex().value then
          Err(InvalidHistoryChunk(p.stroke, p.NextChunkIndex().value, a.chunkIndex))
        else Ok(p.(chunks := p.chunks + [Chunk(a.chunkIndex, a.points)]))
      case StrokeCompleted(t) => ApplyTerminal(projection, event, t, Completed)
      case StrokeCancelled(t) => ApplyTerminal(projection, event, t, Cancelled)
      case StrokeRemoved(t) =>
        if projection.None? then Err(ProjectionMissing) else
        var p := projection.value;
        var mismatch := ValidateIdentity(p, event.session, t.canvas, t.stroke);
        if mismatch.Some? then Err(mismatch.value)
        else if p.lifecycle != Completed then Err(InvalidHistoryState(p.stroke, p.lifecycle))
        else Ok(p.(lifecycle := Removed))
  }

  function ApplyTerminal(projection: Option<Projection>, event: Event, t: TerminalPayload, target: Lifecycle)
    : (r: Result<Projection, ProjectionError>)
    requires HasChunk(projection)
    ensures r.Ok? ==> r.value.chunks != []
  {
    if projection.None? then Err(ProjectionMissing) else
    var p := projection.value;
    var mismatch := ValidateIdentity(p, event.session, t.canvas, t.stroke);
    if mismatch.Some? then Err(mismatch.value)
    else if p.lifecycle != Active then Err(InvalidHistoryState(p.stroke, p.lifecycle))
    else if t.finalChunkIndex != p.LastChunkIndex() then
      Err(InvalidHistoryChunk(p.stroke, p.LastChunkIndex(), t.finalChunkIndex))
    else Ok(p.(lifecycle := target))
  }

  /** Folding the projector over a history, oldest event first. */
  function Replay(history: seq<Event>): (r: Result<Option<Projection>, ProjectionError>)
    ensures r.Ok? ==> HasChunk(r.value) && (r.value.None? <==> history == [])
  {
    if history == [] then Ok(None) else
    match Replay(history[..|history| - 1])
    case Err(e) => Err(e)
    case Ok(p) =>
      match Apply(p, history[|history| - 1])
      case Err(e) => Err(e)
      case Ok(q) => Ok(Some(q))
  }

  // ---------------------------------------------------------------------------
  // The language of legal histories, written without the projector.

  /** The aggregate an event belongs to. */
  datatype StrokeKey = StrokeKey(session: SessionId, canvas: CanvasId, stroke: StrokeId)

  predicate HasKey(e: Event, key: StrokeKey) {
    && e.body.Canvas?
    && e.session == key.session
    && e.body.data.Canvas() == key.canvas
    && e.body.data.Stroke() == key.stroke
  }

  predicate IsBegan(e: Event) {
    && e.body.Canvas? && e.body.data.StrokeBegan?
    && e.body.data.begin.chunkIndex == 0 && 1 <= |e.body.data.begin.points| <= 256
  }

  predicate IsAppend(e: Event, index: nat) {
    && e.body.Canvas? && e.body.data.StrokePointsAppended?
    && e.body.data.append.chunkIndex == index >= 1 && 1 <= |e.body.data.append.points| <= 256
  }

  predicate IsCompleted(e: Event, last: nat) {
    e.body.Canvas? && e.body.data.StrokeCompleted? && e.body.data.end.finalChunkIndex == last
  }

  predicate IsCancelled(e: Event, last: nat) {
    e.body.Canvas? && e.body.data.StrokeCancelled? && e.body.data.cancel.finalChunkIndex == last
  }

  predicate IsRemoved(e: Event) {
    e.body.Canvas? && e.body.data.StrokeRemoved?
  }

  /** What follows append `k`: nothing, a cancellation, or a completion and perhaps a removal. */
  predicate HasEnding(history: seq<Event>, k: nat)
    requires k < |history|
  {
    || |history| == k + 1
    || (|history| == k + 2 && IsCancelled(history[k + 1], k))
    || (|history| == k + 2 && IsCompleted(history[k + 1], k))
    || (|history| == k + 3 && IsCompleted(history[k + 1], k) && IsRemoved(history[k + 2]))
  }

  /** One Began, appends numbered 1..k in order, then an ending, all about one aggregate. */
  predicate IsStory(history: seq<Event>, key: StrokeKey, k: nat) {
    && k < |history|
    && (forall i :: 0 <= i < |history| ==> HasKey(history[i], key))
    && IsBegan(history[0])
    && (forall i :: 1 <= i <= k ==> IsAppend(history[i], i))
    && HasEnding(history, k)
  }

  /** The points event `i` of a story put into the projection. */
  function PointsOf(e: Event): seq<Point>
    requires e.body.Canvas? && (e.body.data.StrokeBegan? || e.body.data.StrokePointsAppended?)
  {
    if e.body.data.StrokeBegan? then e.body.data.begin.points else e.body.data.append.points
  }

  function EndingLifecycle(history: seq<Event>, k: nat): Lifecycle
    requires k < |history|
  {
    if |history| == k + 1 then Active
    else if |history| == k + 3 then Removed
    else if IsCompleted(history[k + 1], k) then Completed
    else Cancelled
  }

  /** The projection described by a story, read off the story itself. */
  predicate Tells(history: seq<Event>, key: StrokeKey, k: nat, p: Projection)
    requires IsStory(history, key, k)
  {
    var begin := history[0].body.data.begin;
    && p.session == key.session && p.canvas == key.canvas && p.stroke == key.stroke
    && p.layer == begin.layer && p.tool == begin.tool && p.style == begin.style
    && p.creator == history[0].actor && p.createdAt == history[0].occurredAt
    && |p.chunks| == k + 1
    && (forall i :: 0 <= i <= k ==> p.chunks[i].index == i && p.chunks[i].points == PointsOf(history[i]))
    && p.lifecycle == EndingLifecycle(history, k)
  }

  /** A story of one event is its Began. */
  lemma {:induction false} BeganTells(e: Event, key: StrokeKey)
    requires HasKey(e, key) && IsBegan(e)
    ensures IsStory([e], key, 0)
    ensures Apply(None, e).Ok? && Tells([e], key, 0, Apply(None, e).value)
  {
  }

  /** An open story goes on with the next append and no other. */
  lemma {:induction false} AppendTells(history: seq<Event>, key: StrokeKey, k: nat, p: Projection, e: Event)
    requires IsStory(history, key, k) && Tells(history, key, k, p)
    requires |history| == k + 1 && HasKey(e, key) && IsAppend(e, k + 1)
    ensures IsStory(history + [e], key, k + 1)
    ensures Apply(Some(p), e).Ok? && Tells(history + [e], key, k + 1, Apply(Some(p), e).value)
  {
    var longer := history + [e];
    assert forall i :: 0 <= i <= k ==> longer[i] == history[i];
    assert p.LastChunkIndex() == k;
  }

  /** A story ends, or a completed one is removed, by an event that fits its ending. */
  lemma {:induction false} EndingTells(history: seq<Event>, key: StrokeKey, k: nat, p: Projection, e: Event)
    requires IsStory(history, key, k) && Tells(history, key, k, p) && HasKey(e, key)
    requires HasEnding(history + [e], k)
    ensures IsStory(history + [e], key, k)
    ensures Apply(Some(p), e).Ok? && Tells(history + [e], key, k, Apply(Some(p), e).value)
  {
    var longer := history + [e];
    assert forall i :: 0 <= i < |history| ==> longer[i] == history[i];
    assert p.LastChunkIndex() == k;
  }

  /** An event accepted after a story is the next append or fits the ending. */
  lemma {:induction false} AcceptedFits(history: seq<Event>, key: StrokeKey, k: nat, p: Projection, e: Event)
    requires IsStory(history, key, k) && Tells(history, key, k, p)
    requires p.chunks != [] && Apply(Some(p), e).Ok?
    ensures HasKey(e, key)
    ensures (|history| == k + 1 && IsAppend(e, k + 1)) || HasEnding(history + [e], k)
  {
    var longer := history + [e];
    assert forall i :: 0 <= i < |history| ==> longer[i] == history[i];
    assert p.LastChunkIndex() == k;
    assert e.body.Canvas?;
  }

  lemma {:induction false} ReplayLast(history: seq<Event>, e: Event)
    requires Replay(history).Ok?
    ensures var r := Apply(Replay(history).value, e);
            Replay(history + [e]) == if r.Ok? then Ok(Some(r.value)) else Err(r.error)
  {
    assert (history + [e])[..|history|] == history;
  }

  /** A longer story without its last event is a story. */
  lemma {:induction false} StoryWithoutLast(history: seq<Event>, key: StrokeKey, k: nat)
    requires IsStory(history, key, k) && |history| > 1
    ensures IsStory(history[..|history| - 1], key, if k == |history| - 1 then k - 1 else k)
  {
    var prefix := history[..|history| - 1];
    assert forall i :: 0 <= i < |prefix| ==> prefix[i] == history[i];
  }

  /** A story replays without error, to exactly the projection it tells. */
  lemma {:induction false} StoryReplays(history: seq<Event>, key: StrokeKey, k: nat)
    requires IsStory(history, key, k)
    ensures Replay(history).Ok? && Replay(history).value.Some?
    ensures Tells(history, key, k, Replay(history).value.value)
    decreases |history|
  {
    var n := |history|;
    var prefix, last := history[..n - 1], history[n - 1];
    assert history == prefix + [last];
    assert HasKey(last, key);
    if n == 1 {
      BeganTells(last, key);
      ReplayLast([], last);
    } else {
      var m := if k == n - 1 then k - 1 else k;
      StoryWithoutLast(history, key, k);
      StoryReplays(prefix, key, m);
      ReplayLast(prefix, last);
      var p := Replay(prefix).value.value;
      if k == n - 1 {
        AppendTells(prefix, key, m, p, last);
      } else {
        EndingTells(prefix, key, m, p, last);
      }
    }
  }

  /** Whatever replays without error is empty or a story. */
  lemma {:induction false} ReplayedIsStory(history: seq<Event>) returns (key: StrokeKey, k: nat)
    requires Replay(history).Ok? && history != []
    ensures IsStory(history, key, k)
    decreases |history|
  {
    var n := |history|;
    var prefix, last := history[..n - 1], history[n - 1];
    assert history == prefix + [last];
    if n == 1 {
      assert prefix == [];
      key, k := StrokeKey(last.session, last.body.data.Canvas(), last.body.data.Stroke()), 0;
    } else {
      key, k := ReplayedIsStory(prefix);
      StoryReplays(prefix, key, k);
      var p := Replay(prefix).value.value;
      AcceptedFits(prefix, key, k, p, last);
      if |prefix| == k + 1 && IsAppend(last, k + 1) {
        AppendTells(prefix, key, k, p, last);
        k := k + 1;
      } else {
        EndingTells(prefix, key, k, p, last);
      }
    }
  }

  /**
   * The projector accepts a history exactly when it is empty or a story, and the
   * story fixes the projection completely.
   */
  lemma {:induction false} ReplayAcceptsExactlyStories(history: seq<Event>)
    ensures Replay(history).Ok? <==> history == [] || exists key, k :: IsStory(history, key, k)
    ensures forall key, k :: IsStory(history, key, k) ==>
                               && Replay(history).Ok? && Replay(history).value.Some?
                               && Tells(history, key, k, Replay(history).value.value)
  {
    if Replay(history).Ok? && history != [] {
      var key, k := ReplayedIsStory(history);
    }
    forall key, k | IsStory(history, key, k)
      ensures Replay(history).Ok? && Replay(history).value.Some?
      ensures Tells(history, key, k, Replay(history).value.value)
    {
      StoryReplays(history, key, k);
    }
  }

  /** Why an event cannot start a history. */
  lemma {:induction false} RefusedFirst(e: Event)
    ensures match e.body
            case Foreign(_) => Apply(None, e) == Err(UnexpectedEvent)
            case Malformed(_) => Apply(None, e) == Err(InvalidEventPayload)
            case Canvas(StrokeBegan(b)) =>
              !(b.chunkIndex == 0 && 1 <= |b.points| <= 256) ==> Apply(None, e) == Err(InvalidEventPayload)
            case Canvas(StrokePointsAppended(a)) =>
              Apply(None, e) == Err(if a.chunkIndex >= 1 && 1 <= |a.points| <= 256 then ProjectionMissing else InvalidEventPayload)
            case Canvas(_) => Apply(None, e) == Err(ProjectionMissing)
  {
  }

  /** An event about another aggregate, by the first identity that differs. */
  function Misplaced(key: StrokeKey, e: Event): Option<ProjectionError>
    requires e.body.Canvas?
  {
    if e.session != key.session then Some(SessionMismatch(key.session, e.session))
    else if e.body.data.Canvas() != key.canvas then Some(CanvasMismatch(key.canvas, e.body.data.Canvas()))
    else if e.body.data.Stroke() != key.stroke then Some(StrokeMismatch(key.stroke, e.body.data.Stroke()))
    else None
  }

  /** Why an ending with this final index cannot close a story of k appends. */
  function EndingRefusal(stroke: StrokeId, k: nat, lifecycle: Lifecycle, last: u64): Option<ProjectionError>
    requires k <= U64_MAX
  {
    if lifecycle != Active then Some(InvalidHistoryState(stroke, lifecycle))
    else if last != k then Some(InvalidHistoryChunk(stroke, k, last))
    else None
  }

  /** Why a well-formed event cannot follow a story, if it cannot. */
  function Refusal(key: StrokeKey, k: nat, lifecycle: Lifecycle, e: Event): Option<ProjectionError>
    requires e.body.Canvas? && k <= U64_MAX
  {
    match e.body.data
    case StrokeBegan(_) => Some(ProjectionAlreadyExists(key.stroke))
    case StrokePointsAppended(a) =>
      if Misplaced(key, e).Some? then Misplaced(key, e)
      else if lifecycle != Active then Some(InvalidHistoryState(key.stroke, lifecycle))
      else if k == U64_MAX then Some(ChunkIndexOverflow(key.stroke))
      else if a.chunkIndex != k + 1 then Some(InvalidHistoryChunk(key.stroke, k + 1, a.chunkIndex))
      else None
    case StrokeCompleted(t) =>
      if Misplaced(key, e).Some? then Misplaced(key, e) else EndingRefusal(key.stroke, k, lifecycle, t.finalChunkIndex)
    case StrokeCancelled(t) =>
      if Misplaced(key, e).Some? then Misplaced(key, e) else EndingRefusal(key.stroke, k, lifecycle, t.finalChunkIndex)
    case StrokeRemoved(_) =>
      if Misplaced(key, e).Some? then Misplaced(key, e)
      else if lifecycle != Completed then Some(InvalidHistoryState(key.stroke, lifecycle))
      else None
  }

  /** After any story the projector refuses an event for exactly that reason, and accepts it when there is none. */
  lemma {:induction false} RefusedForItsReason(history: seq<Event>, key: StrokeKey, k: nat, p: Projection, e: Event)
    requires IsStory(history, key, k) && Tells(history, key, k, p)
    ensures p.chunks != [] && k <= U64_MAX
    ensures e.body.Foreign? ==> Apply(Some(p), e) == Err(UnexpectedEvent)
    ensures e.body.Malformed? ==> Apply(Some(p), e) == Err(InvalidEventPayload)
    ensures e.body.Canvas? ==>
              if !e.body.data.Valid() then Apply(Some(p), e) == Err(InvalidEventPayload)
              else
                var reason := Refusal(key, k, EndingLifecycle(history, k), e);
                if reason.Some? then Apply(Some(p), e) == Err(reason.value) else Apply(Some(p), e).Ok?
  {
    assert p.LastChunkIndex() == k;
  }

  /** A prefix of an accepted history is accepted. */
  lemma {:induction false} PrefixReplays(history: seq<Event>, n: nat)
    requires n <= |history| && Replay(history).Ok?
    ensures Replay(history[..n]).Ok?
    decreases |history|
  {
    if n < |history| {
      var prefix := history[..|history| - 1];
      PrefixReplays(prefix, n);
      assert prefix[..n] == history[..n];
    } else {
      assert history[..n] == history;
    }
  }

  /**
   * One more accepted event: identity, style and every chunk so far stay frozen,
   * and the lifecycle stands still or takes a transition `can_transition_to` allows.
   */
  lemma {:induction false} AcceptedEventExtends(p: Projection, e: Event)
    requires p.chunks != [] && Apply(Some(p), e).Ok?
    ensures var q := Apply(Some(p), e).value;
            && p.chunks <= q.chunks
            && q == p.(chunks := q.chunks, lifecycle := q.lifecycle)
            && (q.lifecycle == p.lifecycle || CanTransitionTo(p.lifecycle, q.lifecycle))
            && (q.chunks != p.chunks ==> p.lifecycle == Active)
  {
    assert e.body.Canvas?;
  }

  /** The reflexive and transitive closure of `can_transition_to`. */
  predicate Reaches(from: Lifecycle, to: Lifecycle) {
    from == to || from == Active || (from == Completed && to == Removed)
  }

  /** A way from one lifecycle to another by allowed transitions. */
  ghost predicate IsPath(path: seq<Lifecycle>, from: Lifecycle, to: Lifecycle) {
    && path != [] && path[0] == from && path[|path| - 1] == to
    && forall i :: 0 < i < |path| ==> CanTransitionTo(path[i - 1], path[i])
  }

  lemma {:induction false} PathReaches(path: seq<Lifecycle>, from: Lifecycle, to: Lifecycle)
    requires IsPath(path, from, to)
    ensures Reaches(from, to)
    decreases |path|
  {
    if |path| > 1 {
      PathReaches(path[1..], path[1], to);
    }
  }

  /** The allowed transitions are exactly those some accepted event takes. */
  lemma {:induction false} TransitionsAreTaken(from: Lifecycle, to: Lifecycle)
    ensures CanTransitionTo(from, to) <==>
            exists p: Projection, e: Event ::
              && p.chunks != [] && p.lifecycle == from != to
              && Apply(Some(p), e).Ok? && Apply(Some(p), e).value.lifecycle == to
  {
    var p := Projection(
      StrokeId(0), CanvasId(0), LayerId(0), SessionId(0), ActorId(0), Pen, Style(1.0, Color(0, 0, 0, 0)), [Chunk(0, [])], from, 0);
    var terminal := TerminalPayload(CanvasId(0), StrokeId(0), 0);
    var data :=
      match to
      case Cancelled => StrokeCancelled(terminal)
      case Removed => StrokeRemoved(RemovePayload(CanvasId(0), StrokeId(0)))
      case _ => StrokeCompleted(terminal);
    var e := Event(EventId(0), SessionId(0), ActorId(0), ActionId(0), 0, Canvas(data));
    if CanTransitionTo(from, to) {
      assert p.LastChunkIndex() == 0;
      assert Apply(Some(p), e).Ok? && Apply(Some(p), e).value.lifecycle == to;
    }
    forall q: Projection, f: Event | q.chunks != [] && q.lifecycle == from != to && Apply(Some(q), f).Ok? && Apply(Some(q), f).value.lifecycle == to
      ensures CanTransitionTo(from, to)
    {
      AcceptedEventExtends(q, f);
    }
  }

  /** One lifecycle reaches another exactly when allowed transitions lead there. */
  lemma {:induction false} ReachesIsClosure(from: Lifecycle, to: Lifecycle)
    ensures Reaches(from, to) <==> exists path :: IsPath(path, from, to)
  {
    if from == to {
      assert IsPath([from], from, to);
    } else if CanTransitionTo(from, to) {
      assert IsPath([from, to], from, to);
    } else if from == Active && to == Removed {
      assert IsPath([Active, Completed, Removed], from, to);
    }
    forall path | IsPath(path, from, to) ensures Reaches(from, to) {
      PathReaches(path, from, to);
    }
  }

  /** The same over any further accepted events. */
  lemma {:induction false} AcceptedHistoryExtends(history: seq<Event>, n: nat)
    requires 0 < n <= |history| && Replay(history).Ok?
    ensures Replay(history[..n]).Ok?
    ensures var p, q := Replay(history[..n]).value.value, Replay(history).value.value;
            && p.chunks <= q.chunks
            && q == p.(chunks := q.chunks, lifecycle := q.lifecycle)
            && Reaches(p.lifecycle, q.lifecycle)
            && (p.lifecycle != Active ==> q.chunks == p.chunks)
    decreases |history|
  {
    PrefixReplays(history, n);
    if n == |history| {
      assert history[..n] == history;
    } else {
      var prefix := history[..|history| - 1];
      PrefixReplays(history, |history| - 1);
      AcceptedHistoryExtends(prefix, n);
      assert prefix[..n] == history[..n];
      AcceptedEventExtends(Replay(prefix).value.value, history[|history| - 1]);
    }
  }

  /** Every step along an accepted history keeps the lifecycle or takes an allowed transition. */
  lemma {:induction false} LifecyclePathIsAllowed(history: seq<Event>, n: nat)
    requires 0 < n < |history| && Replay(history).Ok?
    ensures Replay(history[..n]).Ok? && Replay(history[..n + 1]).Ok?
    ensures var from, to := Replay(history[..n]).value.value.lifecycle, Replay(history[..n + 1]).value.value.lifecycle;
            from == to || CanTransitionTo(from, to)
  {
    PrefixReplays(history, n);
    PrefixReplays(history, n + 1);
    assert history[..n + 1][..n] == history[..n];
    AcceptedEventExtends(Replay(history[..n]).value.value, history[n]);
  }
}
