/** The protocol event as the store, the bus and the Stroke aggregate share it, with the Canvas payloads it may carry. */
module ProtocolEvents {
  import opened Prelude

  const MAX_POINTS_PER_CHUNK: nat := 256

  datatype Point = Point(x: real, y: real)
  datatype Color = Color(red: bv8, green: bv8, blue: bv8, alpha: bv8)
  datatype Style = Style(width: real, color: Color)
  datatype Tool = Pen

  datatype BeginPayload = BeginPayload(
    canvas: CanvasId, layer: LayerId, stroke: StrokeId, tool: Tool, style: Style, chunkIndex: u64, points: seq<Point>)
  datatype AppendPayload = AppendPayload(canvas: CanvasId, stroke: StrokeId, chunkIndex: u64, points: seq<Point>)
  datatype TerminalPayload = TerminalPayload(canvas: CanvasId, stroke: StrokeId, finalChunkIndex: u64)
  datatype RemovePayload = RemovePayload(canvas: CanvasId, stroke: StrokeId)

  /** The typed payload of one recognised Canvas event. */
  datatype EventData =
    | StrokeBegan(begin: BeginPayload)
    | StrokePointsAppended(append: AppendPayload)
    | StrokeCompleted(end: TerminalPayload)
    | StrokeCancelled(cancel: TerminalPayload)
    | StrokeRemoved(remove: RemovePayload)
  {
    function Canvas(): CanvasId {
      match this
      case StrokeBegan(p) => p.canvas
      case StrokePointsAppended(p) => p.canvas
      case StrokeCompleted(p) => p.canvas
      case StrokeCancelled(p) => p.canvas
      case StrokeRemoved(p) => p.canvas
    }

    function Stroke(): StrokeId {
      match this
      case StrokeBegan(p) => p.stroke
      case StrokePointsAppended(p) => p.stroke
      case StrokeCompleted(p) => p.stroke
      case StrokeCancelled(p) => p.stroke
      case StrokeRemoved(p) => p.stroke
    }

    /** `validate` of the payload: the chunk index and point count rules. */
    predicate Valid() {
      match this
      case StrokeBegan(p) => p.chunkIndex == 0 && ValidPointCount(p.points)
      case StrokePointsAppended(p) => p.chunkIndex >= 1 && ValidPointCount(p.points)
      case StrokeCompleted(_) => true
      case StrokeCancelled(_) => true
      case StrokeRemoved(_) => true
    }
  }

  predicate ValidPointCount(points: seq<Point>) {
    1 <= |points| <= MAX_POINTS_PER_CHUNK
  }

  /** What a stored event holds: a Canvas payload, one that does not match its schema, or another event type. */
  datatype EventBody = Canvas(data: EventData) | Malformed(eventType: string) | Foreign(eventType: string)

  datatype Event = Event(
    id: EventId, session: SessionId, actor: ActorId, action: ActionId, occurredAt: Timestamp, body: EventBody)

  /** The stable event type name. */
  function EventType(e: Event): string {
    match e.body
    case Canvas(StrokeBegan(_)) => "canvas.stroke.began"
    case Canvas(StrokePointsAppended(_)) => "canvas.stroke.points_appended"
    case Canvas(StrokeCompleted(_)) => "canvas.stroke.completed"
    case Canvas(StrokeCancelled(_)) => "canvas.stroke.cancelled"
    case Canvas(StrokeRemoved(_)) => "canvas.stroke.removed"
    case Malformed(name) => name
    case Foreign(name) => name
  }

  /** Two Canvas events have the same type name exactly when they are of the same kind. */
  lemma {:induction false} TypeNamesTellKindsApart(e: Event, f: Event)
    requires e.body.Canvas? && f.body.Canvas?
    ensures EventType(e) == EventType(f) <==>
            match e.body.data
            case StrokeBegan(_) => f.body.data.StrokeBegan?
            case StrokePointsAppended(_) => f.body.data.StrokePointsAppended?
            case StrokeCompleted(_) => f.body.data.StrokeCompleted?
            case StrokeCancelled(_) => f.body.data.StrokeCancelled?
            case StrokeRemoved(_) => f.body.data.StrokeRemoved?
    ensures EventType(e) == "canvas.stroke.began" <==> e.body.data.StrokeBegan?
    ensures EventType(e) == "canvas.stroke.points_appended" <==> e.body.data.StrokePointsAppended?
    ensures EventType(e) == "canvas.stroke.completed" <==> e.body.data.StrokeCompleted?
    ensures EventType(e) == "canvas.stroke.cancelled" <==> e.body.data.StrokeCancelled?
    ensures EventType(e) == "canvas.stroke.removed" <==> e.body.data.StrokeRemoved?
  {
    var began, appended, completed, cancelled, removed :=
      "canvas.stroke.began", "canvas.stroke.points_appended", "canvas.stroke.completed", "canvas.stroke.cancelled", "canvas.stroke.removed";
    assert began[14] == 'b' && appended[14] == 'p' && removed[14] == 'r';
    assert completed[14..16] == "co" && cancelled[14..16] == "ca" && completed[15] == 'o' && cancelled[15] == 'a';
  }
}
