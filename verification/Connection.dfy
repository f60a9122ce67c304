/** One request and one response over the framed connection of a worker (internal/protocol/conn.go:30-73). */
module Connection {
  import opened Basics
  import opened Bytes
  import opened Protocol
  import opened Framing

  /** Decoding is the MessagePack library's; None stands for its errors. */
  type Decoder = seq<byte> -> Option<Response>

  /** The size check converts the length to 32 bits (51). */
  predicate Fits(payload: seq<byte>, max: nat) { |payload| % TWO_32 <= max }

  /** What the next frame of the stream means to the request with this id. */
  function Outcome(input: seq<byte>, id: nat, max: nat, decode: Decoder): Option<Response> {
    match NextFrame(input, max).read
    case Frame(raw) =>
      (match decode(raw)
       case Some(resp) => if ValidResponse(resp, id) then Some(resp) else None
       case None => None)
    case _ => None
  }

  /** The next frame is complete, decodes and is a valid response to this request. */
  predicate Answered(input: seq<byte>, id: nat, max: nat, decode: Decoder) {
    var next := NextFrame(input, max).read;
    next.Frame? && decode(next.payload).Some? && ValidResponse(decode(next.payload).value, id)
  }

  /** An ordinary payload fits exactly if it is no longer than the limit. */
  lemma FitsExactly(payload: seq<byte>, max: nat)
    requires |payload| < TWO_32
    ensures Fits(payload, max) <==> |payload| <= max
  {
  }

  /**
   SendRequest: a response is returned only after the whole request has been written, and only if it is the next
   frame, decodes and carries the request's id. On a healthy connection nothing else can make the call fail.
   */
  method SendRequest(output: Stream, input: Stream, payload: seq<byte>, id: nat, max: nat, decode: Decoder)
    returns (r: Option<Response>, ghost sent: nat)
    requires output != input
    modifies output, input
    ensures sent <= |FrameOf(payload)| && output.bytes == old(output.bytes) + FrameOf(payload)[..sent]
    ensures !Fits(payload, max) || payload == [] ==> r.None? && sent == 0 && input.bytes == old(input.bytes)
    ensures r.Some? ==>
              && r == Outcome(old(input.bytes), id, max, decode)
              && sent == |FrameOf(payload)| && input.bytes == NextFrame(old(input.bytes), max).rest
    ensures output.healthy && input.healthy && Fits(payload, max) && payload != [] ==>
              r == Outcome(old(input.bytes), id, max, decode) && sent == |FrameOf(payload)|
    ensures max < |payload| < TWO_32 ==>
              r.None? && output.bytes == old(output.bytes) && input.bytes == old(input.bytes)
    ensures output.healthy && input.healthy && 0 < |payload| <= max < TWO_32
            && Answered(old(input.bytes), id, max, decode) ==>
              var next := NextFrame(old(input.bytes), max);
              && r == decode(next.read.payload) && r.Some?
              && output.bytes == old(output.bytes) + FrameOf(payload) && input.bytes == next.rest
  {
    hide NextFrame, FrameOf;
    assert FrameOf(payload)[..|FrameOf(payload)|] == FrameOf(payload);
    sent := 0;
    if |payload| % TWO_32 > max {
      assert output.bytes == output.bytes + FrameOf(payload)[..0];
      return None, sent;
    }
    var written;
    written, sent := WriteFrame(output, payload);
    if !written.Written? {
      return None, sent;
    }
    var frame := ReadFrame(input, max);
    if !frame.Frame? {
      return None, sent;
    }
    var resp := decode(frame.payload);
    if resp.None? || !ValidResponse(resp.value, id) {
      return None, sent;
    }
    r := resp;
  }

  /** Between a Go end and a PHP end that answers in order, every request finds its own answer, one after another. */
  lemma AnswersFindTheirRequests(
    replies: seq<seq<byte>>, first: nat, i: nat, max: nat, decode: Decoder)
    requires i < |replies| && max < TWO_32 && Sendable(replies, max)
    requires forall k :: 0 <= k < |replies| ==>
               decode(replies[k]).Some? && ValidResponse(decode(replies[k]).value, first + k)
    ensures Outcome(Wire(replies[i..]), first + i, max, decode) == decode(replies[i])
    ensures NextFrame(Wire(replies[i..]), max).rest == Wire(replies[i + 1..])
  {
    assert replies[i..][1..] == replies[i + 1..];
    FrameReads(replies[i], Wire(replies[i + 1..]), max);
    assert Wire(replies[i..]) == FrameOf(replies[i]) + Wire(replies[i + 1..]);
    hide NextFrame, FrameOf;
  }
}
