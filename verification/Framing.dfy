/**
 Length-prefixed frames over a byte stream that takes and gives bytes in pieces of any size: the Go end
 (internal/protocol/frame.go) and the PHP end (tests/fixtures/lib/worker_base.php) of one socket.
 */
module Framing {
  import opened Basics
  import opened Bytes

  /** The PHP end reads no frame above 16 MiB (43). */
  const PHP_MAX: nat := 16 * 1024 * 1024

  // ----- what is on the wire -----

  function FrameOf(payload: seq<byte>): seq<byte> { BE4(|payload|) + payload }

  function Wire(payloads: seq<seq<byte>>): seq<byte> {
    if payloads == [] then [] else FrameOf(payloads[0]) + Wire(payloads[1..])
  }

  datatype FrameRead =
    | Frame(payload: seq<byte>)
    | EmptyFrame
    | TooLarge
    | Closed               // the stream ended inside a header or a payload

  datatype Step = Step(read: FrameRead, rest: seq<byte>)

  /** One frame off the front of a stream that ends after s. */
  function NextFrame(s: seq<byte>, max: nat): (r: Step)
    ensures r.read.Frame? ==> |r.rest| < |s| && 0 < |r.read.payload| <= max
  {
    if |s| < 4 then Step(Closed, [])
    else
      var n := Field4(s, 0);
      if n == 0 then Step(EmptyFrame, s[4..])
      else if n > max then Step(TooLarge, s[4..])
      else if |s| < 4 + n then Step(Closed, [])
      else Step(Frame(s[4..4 + n]), s[4 + n..])
  }

  /** All frames up to the first that cannot be read. */
  function Frames(s: seq<byte>, max: nat): (r: seq<seq<byte>>)
    decreases |s|
  {
    var next := NextFrame(s, max);
    if next.read.Frame? then [next.read.payload] + Frames(next.rest, max) else []
  }

  /** What is left of the stream after them. */
  function Unread(s: seq<byte>, max: nat): (r: seq<byte>)
    decreases |s|
  {
    var next := NextFrame(s, max);
    if next.read.Frame? then Unread(next.rest, max) else s
  }

  ghost predicate Sendable(payloads: seq<seq<byte>>, max: nat) {
    forall i :: 0 <= i < |payloads| ==> 0 < |payloads[i]| <= max
  }

  lemma FrameReads(payload: seq<byte>, rest: seq<byte>, max: nat)
    requires 0 < |payload| <= max < TWO_32
    ensures NextFrame(FrameOf(payload) + rest, max) == Step(Frame(payload), rest)
  {
    var n := |payload|;
    var s := FrameOf(payload) + rest;
    assert s[0..4] == BE4(n);
    Field4Reads(s, 0, n);
    assert Field4(s, 0) == n;
    hide BE4, Field4;
    assert s[4..4 + n] == payload;
    assert s[4 + n..] == rest;
  }

  /** Payloads come back as they were sent, and what follows them is read as if nothing had been before. */
  lemma {:induction false} WireReads(payloads: seq<seq<byte>>, after: seq<byte>, max: nat)
    requires max < TWO_32 && Sendable(payloads, max)
    ensures Frames(Wire(payloads) + after, max) == payloads + Frames(after, max)
    ensures Unread(Wire(payloads) + after, max) == Unread(after, max)
  {
    hide NextFrame, FrameOf;
    if payloads == [] {
      assert Wire(payloads) + after == after;
    } else {
      hide Frames, Unread;
      var rest := Wire(payloads[1..]) + after;
      assert Wire(payloads) + after == FrameOf(payloads[0]) + rest;
      FrameReads(payloads[0], rest, max);
      FramesStep(FrameOf(payloads[0]) + rest, payloads[0], rest, max);
      WireReads(payloads[1..], after, max);
      assert [payloads[0]] + (payloads[1..] + Frames(after, max)) == payloads + Frames(after, max);
    }
  }

  lemma FramesStep(s: seq<byte>, payload: seq<byte>, rest: seq<byte>, max: nat)
    requires NextFrame(s, max) == Step(Frame(payload), rest)
    ensures Frames(s, max) == [payload] + Frames(rest, max) && Unread(s, max) == Unread(rest, max)
  {
    hide NextFrame;
  }

  /** All payloads come back, and nothing is left over. */
  lemma FramesRoundTrip(payloads: seq<seq<byte>>, max: nat)
    requires max < TWO_32 && Sendable(payloads, max)
    ensures Frames(Wire(payloads), max) == payloads && Unread(Wire(payloads), max) == []
  {
    WireReads(payloads, [], max);
    assert Wire(payloads) + [] == Wire(payloads);
    assert payloads + [] == payloads;
  }

  /** A frame cut short is not read as anything. */
  lemma CutFrame(payload: seq<byte>, k: nat, max: nat)
    requires 0 < |payload| <= max < TWO_32 && k < |FrameOf(payload)|
    ensures NextFrame(FrameOf(payload)[..k], max) == Step(Closed, [])
  {
    var s := FrameOf(payload)[..k];
    if k >= 4 {
      assert s[0..4] == BE4(|payload|);
      Field4Reads(s, 0, |payload|);
    }
    hide BE4, Field4;
  }

  /** A stream that breaks off anywhere yields the payloads completed before, and no others. */
  lemma {:induction false} CutWire(payloads: seq<seq<byte>>, k: nat, max: nat)
    requires max < TWO_32 && Sendable(payloads, max) && k <= |Wire(payloads)|
    ensures Frames(Wire(payloads)[..k], max) <= payloads
    ensures k < |Wire(payloads)| ==> Frames(Wire(payloads)[..k], max) != payloads
  {
    hide NextFrame, FrameOf;
    var s := Wire(payloads)[..k];
    if payloads != [] {
      var first := FrameOf(payloads[0]);
      if k < |first| {
        assert s == first[..k];
        CutFrame(payloads[0], k, max);
      } else {
        hide Frames;
        var rest := Wire(payloads[1..])[..k - |first|];
        assert s == first + rest;
        FrameReads(payloads[0], rest, max);
        FramesStep(s, payloads[0], rest, max);
        CutWire(payloads[1..], k - |first|, max);
        assert Frames(s, max)[1..] == Frames(rest, max);
      }
    }
  }

  /** The two ends read alike exactly when the announced length is not between their limits. */
  lemma EndsAgree(s: seq<byte>, max: nat)
    ensures NextFrame(s, max) == NextFrame(s, PHP_MAX) <==>
            |s| < 4 || Field4(s, 0) <= Min(max, 16_777_216) || (Field4(s, 0) > max && Field4(s, 0) > 16_777_216)
  {
    hide Field4;
  }

  // ----- the stream -----

  /** One direction of a socket: the bytes written and not yet read. A healthy one fails only once it is drained. */
  class Stream {
    var bytes: seq<byte>
    const healthy: bool

    constructor (healthy: bool)
      ensures this.healthy == healthy && bytes == []
    {
      this.healthy := healthy;
      bytes := [];
    }

    /** Takes some of the bytes, at least one unless it fails. */
    method Write(p: seq<byte>) returns (n: nat, ok: bool)
      requires p != []
      modifies this
      ensures n <= |p| && bytes == old(bytes) + p[..n]
      ensures ok ==> n > 0
      ensures healthy ==> ok
    {
      n :| 0 < n <= |p|;
      ok := true;
      if !healthy {
        ok := *;
        n :| (ok ==> 0 < n) && n <= |p|;
      }
      bytes := bytes + p[..n];
    }

    /** Gives some of the bytes, at most n; None when the stream is closed or fails. */
    method Read(n: nat) returns (chunk: Option<seq<byte>>)
      requires n > 0
      modifies this
      ensures chunk.Some? ==> 0 < |chunk.value| <= n && old(bytes) == chunk.value + bytes
      ensures chunk.None? ==> bytes == old(bytes)
      ensures chunk.None? && healthy ==> bytes == []
    {
      if bytes == [] {
        return None;
      }
      if !healthy {
        var fails := *;
        if fails {
          return None;
        }
      }
      var k: nat :| 0 < k <= n && k <= |bytes|;
      chunk := Some(bytes[..k]);
      bytes := bytes[k..];
    }
  }

  datatype WriteResult = Written | RefusedEmpty | WriteFailed

  // ----- the Go end -----

  /** writeFull (48-57): all of p, or an error and some of it. */
  method WriteFull(w: Stream, p: seq<byte>) returns (ok: bool, ghost sent: nat)
    modifies w
    ensures sent <= |p| && w.bytes == old(w.bytes) + p[..sent]
    ensures ok ==> sent == |p|
    ensures w.healthy ==> ok
  {
    var rest := p;
    sent := 0;
    assert w.bytes == w.bytes + p[..0];
    while |rest| > 0
      invariant sent <= |p| && rest == p[sent..]
      invariant w.bytes == old(w.bytes) + p[..sent]
      decreases |rest|
    {
      var n, written := w.Write(rest);
      assert p[..sent] + rest[..n] == p[..sent + n];
      sent := sent + n;
      if !written {
        return false, sent;
      }
      rest := rest[n..];
    }
    ok := true;
  }

  /** WriteFrame (36-46): exactly the frame, or an error and a part of it. */
  method WriteFrame(w: Stream, payload: seq<byte>) returns (r: WriteResult, ghost sent: nat)
    modifies w
    ensures r.RefusedEmpty? <==> payload == []
    ensures sent <= |FrameOf(payload)| && w.bytes == old(w.bytes) + FrameOf(payload)[..sent]
    ensures r.RefusedEmpty? ==> sent == 0
    ensures r.Written? ==> sent == |FrameOf(payload)|
    ensures w.healthy ==> !r.WriteFailed?
  {
    ghost var before, header := w.bytes, BE4(|payload|);
    if |payload| == 0 {
      assert before + FrameOf(payload)[..0] == before;
      return RefusedEmpty, 0;
    }
    var ok, n := WriteFull(w, BE4(|payload|));
    assert FrameOf(payload)[..n] == header[..n];
    sent := n;
    if !ok {
      return WriteFailed, sent;
    }
    ok, n := WriteFull(w, payload);
    assert before + header[..4] + payload[..n] == before + FrameOf(payload)[..4 + n];
    sent := 4 + n;
    r := if ok then Written else WriteFailed;
  }

  /** io.ReadFull and eregion_read_exact (64-75): n bytes, or an error. */
  method ReadExact(s: Stream, n: nat) returns (r: Option<seq<byte>>)
    modifies s
    ensures r.Some? ==> |r.value| == n && old(s.bytes) == r.value + s.bytes
    ensures s.healthy ==> if |old(s.bytes)| >= n then r.Some? else r.None? && s.bytes == []
  {
    var buf: seq<byte> := [];
    assert s.bytes == buf + s.bytes;
    while |buf| < n
      invariant |buf| <= n && old(s.bytes) == buf + s.bytes
      decreases n - |buf|
    {
      var chunk := s.Read(n - |buf|);
      if chunk.None? {
        return None;
      }
      assert buf + (chunk.value + s.bytes) == (buf + chunk.value) + s.bytes;
      buf := buf + chunk.value;
    }
    r := Some(buf);
  }

  /** ReadFrame (16-33). */
  method ReadFrame(s: Stream, max: nat) returns (r: FrameRead)
    modifies s
    ensures !r.Closed? ==> NextFrame(old(s.bytes), max) == Step(r, s.bytes)
    ensures s.healthy ==> NextFrame(old(s.bytes), max) == Step(r, s.bytes)
  {
    ghost var all := s.bytes;
    var header := ReadExact(s, 4);
    if header.None? {
      return Closed;
    }
    assert all[4..] == s.bytes;
    var n := Field4(header.value, 0);
    assert Field4(all, 0) == n;
    if n == 0 {
      return EmptyFrame;
    }
    if n > max {
      return TooLarge;
    }
    var payload := ReadExact(s, n);
    if payload.None? {
      return Closed;
    }
    assert all[4..4 + n] == payload.value && all[4 + n..] == s.bytes;
    r := Frame(payload.value);
  }

  // ----- the PHP end -----

  /** eregion_write_frame (49-62) does not refuse an empty payload; true stands for a normal return. */
  method WriteFramePhp(w: Stream, payload: seq<byte>) returns (ok: bool, ghost sent: nat)
    modifies w
    ensures sent <= |FrameOf(payload)| && w.bytes == old(w.bytes) + FrameOf(payload)[..sent]
    ensures ok ==> sent == |FrameOf(payload)|
    ensures w.healthy ==> ok
  {
    var data := BE4(|payload|) + payload;
    var written, n := 0, |data|;
    assert w.bytes == w.bytes + data[..0];
    while written < n
      invariant written <= n && w.bytes == old(w.bytes) + data[..written]
    {
      var k, ok' := w.Write(data[written..]);
      assert data[..written] + data[written..][..k] == data[..written + k];
      if !ok' {
        return false, written + k;
      }
      written := written + k;
    }
    return true, written;
  }

  /** eregion_read_frame (39-47). */
  method ReadFramePhp(s: Stream) returns (r: Option<seq<byte>>)
    modifies s
    ensures r.Some? ==> NextFrame(old(s.bytes), PHP_MAX) == Step(Frame(r.value), s.bytes)
    ensures r.None? && s.healthy ==> !NextFrame(old(s.bytes), PHP_MAX).read.Frame?
  {
    ghost var all := s.bytes;
    var header := ReadExact(s, 4);
    if header.None? {
      return None;
    }
    assert all[4..] == s.bytes;
    var len := Field4(header.value, 0);
    assert Field4(all, 0) == len;
    if len == 0 || len > 16 * 1024 * 1024 {
      return None;
    }
    r := ReadExact(s, len);
    if r.Some? {
      assert all[4..4 + len] == r.value && all[4 + len..] == s.bytes;
    }
  }
}
