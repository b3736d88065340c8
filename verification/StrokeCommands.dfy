/**
 * Command side of the Stroke aggregate: `CanvasCommandService` decides, against a
 * loaded projection, whether a command emits an event, is a retry, or is rejected.
 */
module StrokeCommands {
  import opened Prelude
  import opened ProtocolEvents
  import opened StrokeProjection

  /** The five commands; each carries the payload its event would carry. */
  datatype Command =
    | Begin(begin: BeginPayload)
    | Append(append: AppendPayload)
    | End(end: TerminalPayload)
    | Cancel(cancel: TerminalPayload)
    | Remove(remove: RemovePayload)
  {
    function Canvas(): CanvasId {
      match this
      case Begin(p) => p.canvas
      case Append(p) => p.canvas
      case End(p) => p.canvas
      case Cancel(p) => p.canvas
      case Remove(p) => p.canvas
    }

    function Stroke(): StrokeId {
      match this
      case Begin(p) => p.stroke
      case Append(p) => p.stroke
      case End(p) => p.stroke
      case Cancel(p) => p.stroke
      case Remove(p) => p.stroke
    }

    /** The event type and payload `event_draft` builds for this command. */
    function Draft(): EventData {
      match this
      case Begin(p) => StrokeBegan(p)
      case Append(p) => StrokePointsAppended(p)
      case End(p) => StrokeCompleted(p)
      case Cancel(p) => StrokeCancelled(p)
      case Remove(p) => StrokeRemoved(p)
    }
  }

  datatype Action = Action(id: ActionId, session: SessionId, actor: ActorId, command: Command)

  function KeyOf(a: Action): StrokeKey {
    StrokeKey(a.session, a.command.Canvas(), a.command.Stroke())
  }

  datatype Space = Space(width: real, height: real)
  datatype Descriptor = Descriptor(canvas: CanvasId, session: SessionId, space: Space, layers: set<LayerId>)

  /** What the catalog port answers. */
  datatype CatalogAnswer = CatalogFailed | NoSuchCanvas | Found(descriptor: Descriptor)

  /** What the state reader port answers. */
  datatype StateAnswer = Unavailable | Corrupted(source: ProjectionError) | Loaded(stroke: Option<Projection>)

  datatype CanvasError =
    | StrokeNotFound(stroke: StrokeId)
    | StrokeAlreadyExists(stroke: StrokeId)
    | InvalidStrokeState(from: Lifecycle, to: Lifecycle)
    | InvalidChunkIndex(chunkIndex: u64)
    | ChunkConflict(stroke: StrokeId, chunkIndex: u64)
    | MissingChunk(stroke: StrokeId, expected: u64, actual: u64)
    | InvalidCoordinate(coordinate: string)

  datatype CommandError =
    | CatalogUnavailable
    | CanvasNotFound(canvas: CanvasId)
    | CanvasSessionMismatch(canvas: CanvasId)
    | LayerNotFound(layer: LayerId)
    | StateReadFailed
    | DomainViolation(domain: CanvasError)
    | ProjectionCorrupted(corruption: ProjectionError)
    | EncodingFailed
    | ChunkIndexExhausted(stroke: StrokeId)

  type Drafts = Result<seq<EventData>, CommandError>

  function LoadCanvas(a: Action, catalog: CatalogAnswer): Result<Descriptor, CommandError> {
    match catalog
    case CatalogFailed => Err(CatalogUnavailable)
    case NoSuchCanvas => Err(CanvasNotFound(a.command.Canvas()))
    case Found(d) => if d.session != a.session then Err(CanvasSessionMismatch(a.command.Canvas())) else Ok(d)
  }

  /** `validate_point`: both edges of the space are inside. */
  function CheckPoint(space: Space, p: Point): Option<CanvasError> {
    if p.x < 0.0 || p.x > space.width then Some(InvalidCoordinate("x"))
    else if p.y < 0.0 || p.y > space.height then Some(InvalidCoordinate("y"))
    else None
  }

  /** `validate_points`: the first point that is outside decides. */
  function CheckPoints(space: Space, points: seq<Point>): Option<CanvasError> {
    if points == [] then None
    else if CheckPoint(space, points[0]).Some? then CheckPoint(space, points[0])
    else CheckPoints(space, points[1..])
  }

  /** Every point lies in the closed rectangle from the origin to (width, height). */
  ghost predicate AllInside(space: Space, points: seq<Point>) {
    forall i :: 0 <= i < |points| ==> 0.0 <= points[i].x <= space.width && 0.0 <= points[i].y <= space.height
  }

  /** The check passes exactly when all points are inside; otherwise it names the coordinate of the first that is not. */
  lemma {:induction false} PointsCheckedExactly(space: Space, points: seq<Point>)
    ensures CheckPoints(space, points).None? <==> AllInside(space, points)
    ensures CheckPoints(space, points).Some? ==>
              exists i :: && 0 <= i < |points| && AllInside(space, points[..i])
                          && CheckPoints(space, points).value == InvalidCoordinate(if 0.0 <= points[i].x <= space.width then "y" else "x")
    decreases |points|
  {
    if points != [] {
      var rest := points[1..];
      PointsCheckedExactly(space, rest);
      if CheckPoint(space, points[0]).Some? {
        assert AllInside(space, points[..0]);
      } else {
        assert AllInside(space, rest) ==> AllInside(space, points) by {
          assert forall i :: 1 <= i < |points| ==> points[i] == rest[i - 1];
        }
        assert AllInside(space, points) ==> AllInside(space, rest);
        if CheckPoints(space, rest).Some? {
          var i :| && 0 <= i < |rest| && AllInside(space, rest[..i])
                   && CheckPoints(space, rest).value == InvalidCoordinate(if 0.0 <= rest[i].x <= space.width then "y" else "x");
          assert AllInside(space, points[..i + 1]) by {
            assert forall j :: 0 <= j < i ==> rest[..i][j] == points[..i + 1][j + 1];
          }
        }
      }
    }
  }

  function LoadStroke(state: StateAnswer): Result<Option<Projection>, CommandError> {
    match state
    case Unavailable => Err(StateReadFailed)
    case Corrupted(source) => Err(ProjectionCorrupted(source))
    case Loaded(p) => Ok(p)
  }

  /** `validate_projection_identity`: the loaded projection is the one asked for. */
  function CheckIdentity(p: Projection, key: StrokeKey): Option<CommandError> {
    if p.session != key.session then Some(ProjectionCorrupted(SessionMismatch(key.session, p.session)))
    else if p.canvas != key.canvas then Some(ProjectionCorrupted(CanvasMismatch(key.canvas, p.canvas)))
    else if p.stroke != key.stroke then Some(ProjectionCorrupted(StrokeMismatch(key.stroke, p.stroke)))
    else None
  }

  /** `load_required_stroke` followed by the identity check. */
  function LoadRequired(a: Action, state: StateAnswer): Result<Projection, CommandError> {
    match LoadStroke(state)
    case Err(e) => Err(e)
    case Ok(None) => Err(DomainViolation(StrokeNotFound(a.command.Stroke())))
    case Ok(Some(p)) =>
      var mismatch := CheckIdentity(p, KeyOf(a));
      if mismatch.Some? then Err(mismatch.value) else Ok(p)
  }

  /** `event_draft`: encoding validates the payload once more. */
  function Emit(c: Command): Drafts {
    if c.Draft().Valid() then Ok([c.Draft()]) else Err(EncodingFailed)
  }

  predicate StateHasChunk(state: StateAnswer) {
    state.Loaded? ==> HasChunk(state.stroke)
  }

  function DecideBegin(a: Action, p: BeginPayload, catalog: CatalogAnswer, state: StateAnswer): Drafts
    requires a.command == Begin(p)
  {
    match LoadCanvas(a, catalog)
    case Err(e) => Err(e)
    case Ok(d) =>
      if p.layer !in d.layers then Err(LayerNotFound(p.layer))
      else if CheckPoints(d.space, p.points).Some? then Err(DomainViolation(CheckPoints(d.space, p.points).value))
      else
        match LoadStroke(state)
        case Err(e) => Err(e)
        case Ok(None) => Emit(a.command)
        case Ok(Some(existing)) =>
          var mismatch := CheckIdentity(existing, KeyOf(a));
          if mismatch.Some? then Err(mismatch.value)
          else
            var first := existing.ChunkAt(0);
            if && existing.layer == p.layer && existing.tool == p.tool && existing.style == p.style
               && first.Some? && first.value.points == p.points
               && existing.creator == a.actor
            then Ok([])
            else Err(DomainViolation(StrokeAlreadyExists(p.stroke)))
  }

  function DecideAppend(a: Action, p: AppendPayload, catalog: CatalogAnswer, state: StateAnswer): Drafts
    requires a.command == Append(p) && StateHasChunk(state)
  {
    match LoadCanvas(a, catalog)
    case Err(e) => Err(e)
    case Ok(d) =>
      match LoadRequired(a, state)
      case Err(e) => Err(e)
      case Ok(stroke) =>
        var last := stroke.LastChunkIndex();
        if p.chunkIndex <= last then
          var chunk := stroke.ChunkAt(p.chunkIndex);
          if chunk.None? then Err(ProjectionCorrupted(InvalidHistoryChunk(p.stroke, p.chunkIndex, last)))
          else if chunk.value.points == p.points then Ok([])
          else Err(DomainViolation(ChunkConflict(p.stroke, p.chunkIndex)))
        else
          var next := stroke.NextChunkIndex();
          if next.None? then Err(ChunkIndexExhausted(p.stroke))
          else if p.chunkIndex > next.value then
            Err(DomainViolation(MissingChunk(p.stroke, next.value, p.chunkIndex)))
          else if stroke.lifecycle != Active then Err(DomainViolation(InvalidStrokeState(stroke.lifecycle, Active)))
          else if CheckPoints(d.space, p.points).Some? then Err(DomainViolation(CheckPoints(d.space, p.points).value))
          else Emit(a.command)
  }

  /** `end` and `cancel`: emit from Active, repeat in the states the target leads to, refuse elsewhere. */
  function DecideTerminal(a: Action, p: TerminalPayload, target: Lifecycle, repeats: set<Lifecycle>,
                          catalog: CatalogAnswer, state: StateAnswer): Drafts
    requires StateHasChunk(state)
  {
    match LoadCanvas(a, catalog)
    case Err(e) => Err(e)
    case Ok(_) =>
      match LoadRequired(a, state)
      case Err(e) => Err(e)
      case Ok(stroke) =>
        if stroke.lifecycle != Active && stroke.lifecycle !in repeats then
          Err(DomainViolation(InvalidStrokeState(stroke.lifecycle, target)))
        else if p.finalChunkIndex != stroke.LastChunkIndex() then
          Err(DomainViolation(InvalidChunkIndex(p.finalChunkIndex)))
        else if stroke.lifecycle == Active then Emit(a.command)
        else Ok([])
  }

  function DecideRemove(a: Action, catalog: CatalogAnswer, state: StateAnswer): Drafts {
    match LoadCanvas(a, catalog)
    case Err(e) => Err(e)
    case Ok(_) =>
      match LoadRequired(a, state)
      case Err(e) => Err(e)
      case Ok(stroke) =>
        match stroke.lifecycle
        case Completed => Emit(a.command)
        case Removed => Ok([])
        case _ => Err(DomainViolation(InvalidStrokeState(stroke.lifecycle, Removed)))
  }

  /** The command service: what one handled command returns, given what its two ports answered. */
  function Decide(a: Action, catalog: CatalogAnswer, state: StateAnswer): Drafts
    requires StateHasChunk(state)
  {
    match a.command
    case Begin(p) => DecideBegin(a, p, catalog, state)
    case Append(p) => DecideAppend(a, p, catalog, state)
    case End(p) => DecideTerminal(a, p, Completed, {Completed, Removed}, catalog, state)
    case Cancel(p) => DecideTerminal(a, p, Cancelled, {Cancelled}, catalog, state)
    case Remove(p) => DecideRemove(a, catalog, state)
  }

  // ---------------------------------------------------------------------------
  // Agreement with the projector.

  /** The catalog, layer and bounds checks of this command pass. */
  ghost predicate ChecksPass(a: Action, catalog: CatalogAnswer) {
    && catalog.Found? && catalog.descriptor.session == a.session
    && match a.command
       case Begin(p) => p.layer in catalog.descriptor.layers && AllInside(catalog.descriptor.space, p.points)
       case Append(p) => AllInside(catalog.descriptor.space, p.points)
       case _ => true
  }

  /** The persisted events of one aggregate: what the state reader folds. */
  ghost predicate IsHistoryOf(history: seq<Event>, key: StrokeKey) {
    && Replay(history).Ok?
    && forall i :: 0 <= i < |history| ==> HasKey(history[i], key)
  }

  /** `event` is the one the runtime materialises from the command's draft. */
  predicate Materialises(event: Event, a: Action) {
    event.session == a.session && event.actor == a.actor && event.body == Canvas(a.command.Draft())
  }

  /** On a history the projector built, the projection carries the history's key, and chunk i sits at position i. */
  lemma {:induction false} HistoryShape(history: seq<Event>, key: StrokeKey) returns (k: nat)
    requires IsHistoryOf(history, key) && history != []
    ensures IsStory(history, key, k) && Tells(history, key, k, Replay(history).value.value)
    ensures Replay(history).value.value.LastChunkIndex() == k
  {
    var own: StrokeKey;
    own, k := ReplayedIsStory(history);
    assert HasKey(history[0], own) && HasKey(history[0], key);
    assert own == key;
    StoryReplays(history, key, k);
  }

  /** Agreement against one existing projection of the command's aggregate. */
  lemma {:induction false} AgreesOnProjection(a: Action, catalog: CatalogAnswer, p: Projection, event: Event)
    requires p.chunks != [] && KeyOf(a) == StrokeKey(p.session, p.canvas, p.stroke)
    requires Materialises(event, a) && a.command.Draft().Valid() && ChecksPass(a, catalog)
    ensures var r := Decide(a, catalog, Loaded(Some(p)));
            && (r.Ok? ==> r.value == [] || r.value == [a.command.Draft()])
            && (r == Ok([a.command.Draft()]) <==> Apply(Some(p), event).Ok?)
  {
    assert CheckIdentity(p, KeyOf(a)).None?;
    match a.command
    case Begin(b) => PointsCheckedExactly(catalog.descriptor.space, b.points);
    case Append(b) => PointsCheckedExactly(catalog.descriptor.space, b.points);
    case End(_) =>
    case Cancel(_) =>
    case Remove(_) =>
  }

  /**
   * Command and event side agree. Once catalog, layer and bounds pass, the service
   * emits a draft exactly when the projector would accept that event after the
   * history, so an emitted draft always applies.
   */
  lemma {:induction false} EmitsExactlyWhatProjects(a: Action, catalog: CatalogAnswer, history: seq<Event>, event: Event)
    requires IsHistoryOf(history, KeyOf(a)) && Materialises(event, a)
    requires a.command.Draft().Valid() && ChecksPass(a, catalog)
    ensures var r := Decide(a, catalog, Loaded(Replay(history).value));
            && (r.Ok? ==> r.value == [] || r.value == [a.command.Draft()])
            && (r == Ok([a.command.Draft()]) <==> Apply(Replay(history).value, event).Ok?)
  {
    if history == [] {
      if a.command.Begin? { PointsCheckedExactly(catalog.descriptor.space, a.command.begin.points); }
    } else {
      var k := HistoryShape(history, KeyOf(a));
      AgreesOnProjection(a, catalog, Replay(history).value.value, event);
    }
  }

  /** A draft is emitted only once the checks passed and the payload is valid. */
  lemma {:induction false} EmitsOnlyAfterChecks(a: Action, catalog: CatalogAnswer, state: StateAnswer)
    requires StateHasChunk(state) && Decide(a, catalog, state).Ok? && Decide(a, catalog, state).value != []
    ensures a.command.Draft().Valid() && ChecksPass(a, catalog)
  {
    match a.command
    case Begin(b) => if catalog.Found? { PointsCheckedExactly(catalog.descriptor.space, b.points); }
    case Append(b) => if catalog.Found? { PointsCheckedExactly(catalog.descriptor.space, b.points); }
    case _ =>
  }

  /** Every point of an emitted `begin` or `append` lies in the canvas, edges included; a `begin` names a known layer. */
  lemma {:induction false} EmittedPointsInCanvas(a: Action, catalog: CatalogAnswer, state: StateAnswer)
    requires StateHasChunk(state) && Decide(a, catalog, state).Ok? && Decide(a, catalog, state).value != []
    ensures catalog.Found? && catalog.descriptor.session == a.session
    ensures a.command.Begin? ==> a.command.begin.layer in catalog.descriptor.layers
    ensures var points := match a.command case Begin(p) => p.points case Append(p) => p.points case _ => [];
            forall i :: 0 <= i < |points| ==>
                          && 0.0 <= points[i].x <= catalog.descriptor.space.width
                          && 0.0 <= points[i].y <= catalog.descriptor.space.height
  {
    EmitsOnlyAfterChecks(a, catalog, state);
  }

  /** Nothing is emitted that the projector would refuse, whatever the ports answered. */
  lemma {:induction false} EmittedDraftApplies(a: Action, catalog: CatalogAnswer, history: seq<Event>, event: Event)
    requires IsHistoryOf(history, KeyOf(a)) && Materialises(event, a)
    requires Decide(a, catalog, Loaded(Replay(history).value)).Ok?
    requires Decide(a, catalog, Loaded(Replay(history).value)).value != []
    ensures Decide(a, catalog, Loaded(Replay(history).value)).value == [a.command.Draft()]
    ensures IsHistoryOf(history + [event], KeyOf(a))
  {
    EmitsOnlyAfterChecks(a, catalog, Loaded(Replay(history).value));
    EmitsExactlyWhatProjects(a, catalog, history, event);
    ReplayLast(history, event);
  }

  /**
   * The defensive branches of `append` are dead on every history: no chunk below the
   * last is missing, and the chunk index space is never found exhausted.
   */
  lemma {:induction false} AppendNeverFindsCorruption(a: Action, catalog: CatalogAnswer, history: seq<Event>)
    requires a.command.Append? && IsHistoryOf(history, KeyOf(a))
    ensures var r := Decide(a, catalog, Loaded(Replay(history).value));
            r.Err? ==> !r.error.ProjectionCorrupted? && !r.error.ChunkIndexExhausted?
  {
    if history != [] {
      var k := HistoryShape(history, KeyOf(a));
      var p := Replay(history).value.value;
      assert CheckIdentity(p, KeyOf(a)).None?;
      assert forall i: u64 :: i <= k ==> p.ChunkAt(i).Some?;
    }
  }

  // ---------------------------------------------------------------------------
  // Every answer, read off the history.

  /** The draft is the event of the command's own kind, with the command's own payload. */
  lemma {:induction false} DraftIsOwnEvent(c: Command)
    ensures c.Draft().Canvas() == c.Canvas() && c.Draft().Stroke() == c.Stroke()
    ensures match c
            case Begin(p) => c.Draft() == StrokeBegan(p) && c.Canvas() == p.canvas && c.Stroke() == p.stroke
            case Append(p) => c.Draft() == StrokePointsAppended(p) && c.Canvas() == p.canvas && c.Stroke() == p.stroke
            case End(p) => c.Draft() == StrokeCompleted(p) && c.Canvas() == p.canvas && c.Stroke() == p.stroke
            case Cancel(p) => c.Draft() == StrokeCancelled(p) && c.Canvas() == p.canvas && c.Stroke() == p.stroke
            case Remove(p) => c.Draft() == StrokeRemoved(p) && c.Canvas() == p.canvas && c.Stroke() == p.stroke
  {
  }

  /** What stops every command before its Stroke is looked at: no catalog, no such canvas, or one of another session. */
  lemma {:induction false} CanvasComesFirst(a: Action, catalog: CatalogAnswer, state: StateAnswer)
    requires StateHasChunk(state)
    ensures var r := Decide(a, catalog, state);
            match catalog
            case CatalogFailed => r == Err(CatalogUnavailable)
            case NoSuchCanvas => r == Err(CanvasNotFound(a.command.Canvas()))
            case Found(d) => d.session != a.session <==> r == Err(CanvasSessionMismatch(a.command.Canvas()))
  {
  }

  /** A state that cannot be read, or belongs to another aggregate, is reported as such once the other checks pass. */
  lemma {:induction false} UnusableState(a: Action, catalog: CatalogAnswer, state: StateAnswer)
    requires StateHasChunk(state) && ChecksPass(a, catalog)
    ensures state.Unavailable? ==> Decide(a, catalog, state) == Err(StateReadFailed)
    ensures state.Corrupted? ==> Decide(a, catalog, state) == Err(ProjectionCorrupted(state.source))
    ensures state.Loaded? && state.stroke.Some? ==>
              var p, r := state.stroke.value, Decide(a, catalog, state);
              && (p.session != a.session ==> r == Err(ProjectionCorrupted(SessionMismatch(a.session, p.session))))
              && (p.session == a.session && p.canvas != a.command.Canvas() ==>
                    r == Err(ProjectionCorrupted(CanvasMismatch(a.command.Canvas(), p.canvas))))
              && (p.session == a.session && p.canvas == a.command.Canvas() && p.stroke != a.command.Stroke() ==>
                    r == Err(ProjectionCorrupted(StrokeMismatch(a.command.Stroke(), p.stroke))))
  {
    if a.command.Begin? { PointsCheckedExactly(catalog.descriptor.space, a.command.begin.points); }
  }

  /** A loaded projection without the chunk an `append` repeats, or with another number on it, is corrupted. */
  lemma {:induction false} MisnumberedChunkIsCorruption(a: Action, p: AppendPayload, d: Descriptor, stroke: Projection)
    requires a.command == Append(p) && d.session == a.session && stroke.chunks != []
    requires KeyOf(a) == StrokeKey(stroke.session, stroke.canvas, stroke.stroke)
    requires p.chunkIndex <= stroke.chunks[|stroke.chunks| - 1].index
    requires p.chunkIndex >= |stroke.chunks| || stroke.chunks[p.chunkIndex].index != p.chunkIndex
    ensures Decide(a, Found(d), Loaded(Some(stroke))) ==
            Err(ProjectionCorrupted(InvalidHistoryChunk(p.stroke, p.chunkIndex, stroke.chunks[|stroke.chunks| - 1].index)))
  {
  }

  /** A Stroke that was never begun: only `begin` finds anything to do. */
  lemma {:induction false} AnswerWithoutHistory(a: Action, d: Descriptor)
    requires d.session == a.session && a.command.Draft().Valid()
    ensures var r := Decide(a, Found(d), Loaded(None));
            match a.command
            case Begin(p) =>
              && (p.layer !in d.layers ==> r == Err(LayerNotFound(p.layer)))
              && (p.layer in d.layers && AllInside(d.space, p.points) ==> r == Ok([StrokeBegan(p)]))
              && (p.layer in d.layers && !AllInside(d.space, p.points) ==>
                    r.Err? && r.error.DomainViolation? && r.error.domain.InvalidCoordinate?)
            case _ => r == Err(DomainViolation(StrokeNotFound(a.command.Stroke())))
  {
    if a.command.Begin? { PointsCheckedExactly(d.space, a.command.begin.points); }
  }

  /** `begin` of a Stroke that exists: nothing when it is its own Began again, else refused. */
  lemma {:induction false} AnswerToBegin(a: Action, p: BeginPayload, d: Descriptor, history: seq<Event>, k: nat)
    requires a.command == Begin(p) && a.command.Draft().Valid() && d.session == a.session
    requires IsHistoryOf(history, KeyOf(a)) && IsStory(history, KeyOf(a), k)
    requires p.layer in d.layers && AllInside(d.space, p.points)
    ensures Decide(a, Found(d), Loaded(Replay(history).value)) ==
            if history[0].actor == a.actor && history[0].body == Canvas(StrokeBegan(p)) then Ok([])
            else Err(DomainViolation(StrokeAlreadyExists(p.stroke)))
  {
    PointsCheckedExactly(d.space, p.points);
    StoryReplays(history, KeyOf(a), k);
    assert HasKey(history[0], KeyOf(a));
  }

  /** `append` after k appends: a repeat, a conflict, a gap, too late, out of bounds, or the next chunk. */
  lemma {:induction false} AnswerToAppend(a: Action, p: AppendPayload, d: Descriptor, history: seq<Event>, k: nat)
    requires a.command == Append(p) && a.command.Draft().Valid() && d.session == a.session
    requires IsHistoryOf(history, KeyOf(a)) && IsStory(history, KeyOf(a), k)
    ensures var r := Decide(a, Found(d), Loaded(Replay(history).value));
            if p.chunkIndex <= k then
              r == if history[p.chunkIndex].body == Canvas(StrokePointsAppended(p)) then Ok([])
                   else Err(DomainViolation(ChunkConflict(p.stroke, p.chunkIndex)))
            else if p.chunkIndex > k + 1 then r == Err(DomainViolation(MissingChunk(p.stroke, k + 1, p.chunkIndex)))
            else if |history| > k + 1 then r == Err(DomainViolation(InvalidStrokeState(EndingLifecycle(history, k), Active)))
            else if AllInside(d.space, p.points) then r == Ok([StrokePointsAppended(p)])
            else r.Err? && r.error.DomainViolation? && r.error.domain.InvalidCoordinate?
  {
    PointsCheckedExactly(d.space, p.points);
    StoryReplays(history, KeyOf(a), k);
    assert Replay(history).value.value.LastChunkIndex() == k;
    if p.chunkIndex <= k {
      assert IsAppend(history[p.chunkIndex], p.chunkIndex) && HasKey(history[p.chunkIndex], KeyOf(a));
    }
  }

  /** `end` and `cancel`: close an open Stroke at its last chunk, repeat what closed it, or are refused. */
  lemma {:induction false} AnswerToEnding(a: Action, p: TerminalPayload, d: Descriptor, history: seq<Event>, k: nat)
    requires (a.command == End(p) || a.command == Cancel(p)) && d.session == a.session
    requires IsHistoryOf(history, KeyOf(a)) && IsStory(history, KeyOf(a), k)
    ensures var r, target := Decide(a, Found(d), Loaded(Replay(history).value)), if a.command.End? then Completed else Cancelled;
            if |history| > k + 1 && a.command.End? != IsCompleted(history[k + 1], k) then
              r == Err(DomainViolation(InvalidStrokeState(EndingLifecycle(history, k), target)))
            else if p.finalChunkIndex != k then r == Err(DomainViolation(InvalidChunkIndex(p.finalChunkIndex)))
            else r == Ok(if |history| == k + 1 then [a.command.Draft()] else [])
  {
    StoryReplays(history, KeyOf(a), k);
    assert Replay(history).value.value.LastChunkIndex() == k;
  }

  /** `remove`: of a completed Stroke, once. */
  lemma {:induction false} AnswerToRemove(a: Action, p: RemovePayload, d: Descriptor, history: seq<Event>, k: nat)
    requires a.command == Remove(p) && d.session == a.session
    requires IsHistoryOf(history, KeyOf(a)) && IsStory(history, KeyOf(a), k)
    ensures Decide(a, Found(d), Loaded(Replay(history).value)) ==
            if |history| == k + 3 then Ok([])
            else if |history| == k + 2 && IsCompleted(history[k + 1], k) then Ok([StrokeRemoved(p)])
            else Err(DomainViolation(InvalidStrokeState(if |history| == k + 1 then Active else Cancelled, Removed)))
  {
    StoryReplays(history, KeyOf(a), k);
  }

  // ---------------------------------------------------------------------------
  // Retries.

  /** The checks a retry still meets: begin repeats all of them, the others only load their canvas. */
  ghost predicate RetryChecksPass(a: Action, catalog: CatalogAnswer) {
    if a.command.Begin? then ChecksPass(a, catalog)
    else catalog.Found? && catalog.descriptor.session == a.session
  }

  /** Where the event of a command sits in a story. */
  lemma {:induction false} PositionInStory(a: Action, history: seq<Event>, key: StrokeKey, k: nat, n: nat)
    requires IsStory(history, key, k) && n < |history| && Materialises(history[n], a)
    ensures match a.command
            case Begin(_) => n == 0
            case Append(p) => 1 <= n <= k && p.chunkIndex == n
            case End(p) => n == k + 1 && p.finalChunkIndex == k
            case Cancel(p) => n == k + 1 && p.finalChunkIndex == k
            case Remove(_) => n == k + 2
  {
    if 1 <= n <= k {
      assert IsAppend(history[n], n);
    }
  }

  /**
   * A command whose event was persisted, submitted again after any further legal
   * events, emits nothing. Only `begin` looks at who resubmits it: from anyone else
   * it is refused.
   */
  lemma {:induction false} RetryEmitsNothing(
    first: Action, again: Action, catalog: CatalogAnswer, history: seq<Event>, n: nat)
    requires again.command == first.command && again.session == first.session && RetryChecksPass(again, catalog)
    requires n < |history| && IsHistoryOf(history, KeyOf(first)) && Materialises(history[n], first)
    ensures Decide(again, catalog, Loaded(Replay(history).value)) ==
            if first.command.Begin? && again.actor != first.actor
            then Err(DomainViolation(StrokeAlreadyExists(first.command.Stroke())))
            else Ok([])
  {
    if again.command.Begin? { PointsCheckedExactly(catalog.descriptor.space, again.command.begin.points); }
    var k := HistoryShape(history, KeyOf(first));
    PositionInStory(first, history, KeyOf(first), k, n);
    var p := Replay(history).value.value;
    assert CheckIdentity(p, KeyOf(again)).None?;
    assert p.lifecycle == EndingLifecycle(history, k);
  }

  // What a command that emits nothing finds in a history of shape k.

  lemma {:induction false} EmptyHistoryIsNoRetry(a: Action, catalog: CatalogAnswer)
    ensures Decide(a, catalog, Loaded(None)) != Ok([])
  {
  }

  lemma {:induction false} BeginRepeats(a: Action, catalog: CatalogAnswer, history: seq<Event>, k: nat)
    requires a.command.Begin? && a.command.Draft().Valid() && IsStory(history, KeyOf(a), k)
    requires Replay(history).Ok? && Replay(history).value.Some? && Tells(history, KeyOf(a), k, Replay(history).value.value)
    requires Decide(a, catalog, Loaded(Replay(history).value)) == Ok([])
    ensures history[0].actor == a.actor && history[0].body == Canvas(a.command.Draft())
  {
    assert HasKey(history[0], KeyOf(a));
  }

  lemma {:induction false} AppendRepeats(a: Action, catalog: CatalogAnswer, history: seq<Event>, k: nat)
    requires a.command.Append? && a.command.Draft().Valid() && IsStory(history, KeyOf(a), k)
    requires Replay(history).Ok? && Replay(history).value.Some? && Tells(history, KeyOf(a), k, Replay(history).value.value)
    requires Decide(a, catalog, Loaded(Replay(history).value)) == Ok([])
    ensures a.command.append.chunkIndex <= k
    ensures history[a.command.append.chunkIndex].body == Canvas(a.command.Draft())
  {
    var n := a.command.append.chunkIndex;
    assert n <= Replay(history).value.value.LastChunkIndex() == k;
    assert IsAppend(history[n], n) && HasKey(history[n], KeyOf(a));
  }

  lemma {:induction false} TerminalRepeats(a: Action, catalog: CatalogAnswer, history: seq<Event>, k: nat)
    requires (a.command.End? || a.command.Cancel?) && IsStory(history, KeyOf(a), k)
    requires Replay(history).Ok? && Replay(history).value.Some? && Tells(history, KeyOf(a), k, Replay(history).value.value)
    requires Decide(a, catalog, Loaded(Replay(history).value)) == Ok([])
    ensures k + 1 < |history| && history[k + 1].body == Canvas(a.command.Draft())
  {
    var p := Replay(history).value.value;
    assert p.LastChunkIndex() == k;
    assert p.lifecycle != Active;
    assert HasKey(history[k + 1], KeyOf(a));
  }

  lemma {:induction false} RemoveRepeats(a: Action, catalog: CatalogAnswer, history: seq<Event>, k: nat)
    requires a.command.Remove? && IsStory(history, KeyOf(a), k)
    requires Replay(history).Ok? && Replay(history).value.Some? && Tells(history, KeyOf(a), k, Replay(history).value.value)
    requires Decide(a, catalog, Loaded(Replay(history).value)) == Ok([])
    ensures k + 2 < |history| && history[k + 2].body == Canvas(a.command.Draft())
  {
    var p := Replay(history).value.value;
    assert p.lifecycle == Removed;
    assert HasKey(history[k + 2], KeyOf(a));
  }

  /**
   * A command emits nothing only if its very event, kind and payload, is already in
   * the history, and for begin only if the same actor put it there.
   */
  lemma {:induction false} NothingEmittedOnlyOnRetry(a: Action, catalog: CatalogAnswer, history: seq<Event>) returns (n: nat)
    requires IsHistoryOf(history, KeyOf(a)) && a.command.Draft().Valid()
    requires Decide(a, catalog, Loaded(Replay(history).value)) == Ok([])
    ensures n < |history| && history[n].body == Canvas(a.command.Draft())
    ensures a.command.Begin? ==> history[n].actor == a.actor
  {
    EmptyHistoryIsNoRetry(a, catalog);
    var k := HistoryShape(history, KeyOf(a));
    match a.command
    case Begin(_) => BeginRepeats(a, catalog, history, k); n := 0;
    case Append(p) => AppendRepeats(a, catalog, history, k); n := p.chunkIndex;
    case Remove(_) => RemoveRepeats(a, catalog, history, k); n := k + 2;
    case _ => TerminalRepeats(a, catalog, history, k); n := k + 1;
  }
}
