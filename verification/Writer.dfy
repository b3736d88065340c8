/**
 * The WebSocket writer task: the sole owner of the sink, draining the bounded command
 * queue into frames until it closes, is cancelled, or a write fails.
 */
module Writer {
  import opened Prelude

  /** An application message is carried with what its codec makes of it: text, or an encoding error. */
  datatype Command =
    | Application(encoded: Option<string>)
    | NativePing(payload: seq<int>)
    | NativePong(payload: seq<int>)
    | Close

  datatype Frame = Text(text: string) | Ping(payload: seq<int>) | Pong(payload: seq<int>) | CloseFrame

  /** The frame a command asks for; none when its message does not encode. */
  function FrameOf(c: Command): Option<Frame> {
    match c
    case Application(None) => None
    case Application(Some(text)) => Some(Text(text))
    case NativePing(p) => Some(Ping(p))
    case NativePong(p) => Some(Pong(p))
    case Close => Some(CloseFrame)
  }

  /** How one write ends. A write cut short may or may not have reached the sink. */
  datatype WriteEnd = Written | CutByCancel(reached: bool) | Failed(reached: bool) | TimedOut(reached: bool)

  /** What the environment does in one round: cancel before receiving, or let the write end somehow. */
  datatype Turn = CancelFirst | Go(end: WriteEnd)

  datatype WriterError = EncodingFailed | WriteFailed | WriteTimeout

  /** The frame is in the sink after this end. */
  predicate Reached(end: WriteEnd) {
    match end
    case Written => true
    case CutByCancel(reached) => reached
    case Failed(reached) => reached
    case TimedOut(reached) => reached
  }

  /** `map_write_result` and the cancellation arm. */
  function StatusOf(end: WriteEnd): Result<bool, WriterError> {
    match end
    case Written => Ok(true)
    case CutByCancel(_) => Ok(false)
    case Failed(_) => Err(WriteFailed)
    case TimedOut(_) => Err(WriteTimeout)
  }

  /**
   * The frames stand for the commands in order, none skipped; a close with no command
   * behind it is the one sent when every sender is gone; and a close is always last.
   */
  ghost predicate InOrder(queue: seq<Command>, frames: seq<Frame>) {
    && |frames| <= |queue| + 1
    && (forall i :: 0 <= i < |frames| ==> FrameOf(if i < |queue| then queue[i] else Close) == Some(frames[i]))
    && (forall i :: 0 <= i < |frames| - 1 ==> frames[i] != CloseFrame)
  }

  /** The first n commands, none of them a Close, were written in full. */
  ghost predicate AllWritten(queue: seq<Command>, turns: nat -> Turn, n: nat) {
    n <= |queue| && forall i :: 0 <= i < n ==> turns(i) == Go(Written) && queue[i] != Close && FrameOf(queue[i]).Some?
  }

  /** Some write, or the closing of the sink, came to this end after everything before it was written. */
  ghost predicate Ended(queue: seq<Command>, turns: nat -> Turn, closing: WriteEnd, end: WriteEnd) {
    closing == end || exists n :: AllWritten(queue, turns, n) && turns(n) == Go(end)
  }

  /** Nothing interferes and everything encodes. */
  ghost predicate Undisturbed(queue: seq<Command>, turns: nat -> Turn, closing: WriteEnd) {
    && closing == Written
    && (forall i :: 0 <= i <= |queue| ==> turns(i) == Go(Written))
    && (forall i :: 0 <= i < |queue| ==> FrameOf(queue[i]).Some?)
  }

  /**
   * `writer_loop` and `close_writer`, with everything ever queued, including what is
   * queued behind a Close, and any mix of cancellation, failure and timeout; `closing`
   * is how closing the sink itself ends.
   */
  method WriterLoop(queue: seq<Command>, turns: nat -> Turn, closing: WriteEnd)
    returns (frames: seq<Frame>, sinkClosed: bool, result: Result<(), WriterError>)
    ensures InOrder(queue, frames)
    ensures forall i :: 0 <= i < |frames| ==>
                          match frames[i]
                          case Text(text) => i < |queue| && queue[i] == Application(Some(text))
                          case Ping(payload) => i < |queue| && queue[i] == NativePing(payload)
                          case Pong(payload) => i < |queue| && queue[i] == NativePong(payload)
                          case CloseFrame => i == |queue| || queue[i] == Close
    ensures result == Err(EncodingFailed) <==>
            exists n :: 0 <= n < |queue| && AllWritten(queue, turns, n) && turns(n).Go? && queue[n] == Application(None)
    ensures result == Err(WriteFailed) ==> Ended(queue, turns, closing, Failed(true)) || Ended(queue, turns, closing, Failed(false))
    ensures result == Err(WriteTimeout) ==> Ended(queue, turns, closing, TimedOut(true)) || Ended(queue, turns, closing, TimedOut(false))
    ensures sinkClosed ==> frames != [] && frames[|frames| - 1] == CloseFrame
    ensures Undisturbed(queue, turns, closing) ==> result.Ok? && sinkClosed
  {
    frames, sinkClosed, result := [], false, Ok(());
    var taken := 0;
    while true
      invariant 0 <= taken <= |queue| && |frames| == taken && !sinkClosed && result.Ok?
      invariant InOrder(queue, frames) && CloseFrame !in frames && AllWritten(queue, turns, taken)
      decreases |queue| - taken
    {
      var turn := turns(taken);
      if turn.CancelFirst? {
        return;
      }
      var command := if taken < |queue| then queue[taken] else Close;
      var frame := FrameOf(command);
      if frame.None? {
        return frames, false, Err(EncodingFailed);
      }
      if Reached(turn.end) {
        frames := frames + [frame.value];
      }
      var status := StatusOf(turn.end);
      if status.Err? {
        return frames, false, Err(status.error);
      }
      if !status.value {
        return;
      }
      if command.Close? {
        sinkClosed := Reached(closing);
        var closed := StatusOf(closing);
        result := if closed.Err? then Err(closed.error) else Ok(());
        return;
      }
      taken := taken + 1;
    }
  }
}
