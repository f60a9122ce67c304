/** The request loop of a PHP worker, eregion_serve (tests/fixtures/lib/worker_base.php:124-155). */
module PhpWorker {
  import opened Basics
  import opened Bytes
  import opened Msgpack
  import opened Framing

  // ----- one answer -----

  /** What a handler returns: the response fields and the meta array among them. */
  datatype Response = Response(fields: seq<Entry>, meta: seq<Entry>)

  /** The worker's handler, with the memory figures the loop reports after each request. */
  datatype Script = Script(handler: (Value, nat) -> Response, usage: nat -> int, peak: nat -> int)

  const META: seq<byte> := Ascii("meta")
  const HANDLED: seq<byte> := Ascii("requests_handled")
  const USAGE: seq<byte> := Ascii("memory_usage")
  const PEAK: seq<byte> := Ascii("memory_peak")
  const RECYCLE: seq<byte> := Ascii("recycle")
  const REASON: seq<byte> := Ascii("recycle_reason")
  const MAX_REQUESTS: seq<byte> := Ascii("max_requests")

  function Ascii(s: string): (b: seq<byte>)
    ensures |b| == |s|
  {
    seq(|s|, i requires 0 <= i < |s| => s[i] as int % 256)
  }

  function Lookup(entries: seq<Entry>, key: seq<byte>): Option<Value> {
    if entries == [] then None
    else if entries[0].key == key then Some(entries[0].value)
    else Lookup(entries[1..], key)
  }

  /** isset: present and not null. */
  predicate IsSet(entries: seq<Entry>, key: seq<byte>) {
    Lookup(entries, key).Some? && !Lookup(entries, key).value.Nil?
  }

  function SetDefault(entries: seq<Entry>, key: seq<byte>, value: Value): seq<Entry> {
    if IsSet(entries, key) then entries else SetEntry(entries, key, value)
  }

  /** !empty: neither null, false, 0, "", "0" nor an empty array. */
  predicate Truthy(v: Value): (t: bool)
    ensures t <==> v !in [Nil, Bool(false), Int(0), Str([]), Str([0x30]), Arr([]), Map([])]
  {
    match v
    case Nil => false
    case Bool(b) => b
    case Int(n) => n != 0
    case Str(s) => s != [] && s != [0x30]
    case Bin(_) => true
    case Arr(items) => items != []
    case Map(entries) => entries != []
  }

  /** Lines 134-150. */
  function MetaFor(script: Script, meta: seq<Entry>, handled: nat, max: nat): seq<Entry> {
    var m1 := SetEntry(meta, HANDLED, Int(handled));
    var m2 := SetDefault(m1, USAGE, Int(script.usage(handled)));
    var m3 := SetDefault(m2, PEAK, Int(script.peak(handled)));
    var m4 := SetDefault(m3, RECYCLE, Bool(false));
    if max > 0 && handled >= max then SetEntry(SetEntry(m4, RECYCLE, Bool(true)), REASON, Str(MAX_REQUESTS))
    else m4
  }

  datatype Answer = Answer(payload: seq<byte>, meta: seq<Entry>)

  function AnswerTo(script: Script, request: Value, handled: nat, max: nat): Answer {
    var r := script.handler(request, handled);
    var meta := MetaFor(script, r.meta, handled, max);
    Answer(Pack(Map(SetEntry(r.fields, META, Map(meta)))), meta)
  }

  predicate Recycles(meta: seq<Entry>) {
    Lookup(meta, RECYCLE).Some? && Truthy(Lookup(meta, RECYCLE).value)
  }

  lemma {:induction false} LookupSet(entries: seq<Entry>, key: seq<byte>, value: Value, other: seq<byte>)
    ensures Lookup(SetEntry(entries, key, value), other) ==
            if other == key then Some(value) else Lookup(entries, other)
  {
    if entries != [] && entries[0].key != key {
      LookupSet(entries[1..], key, value, other);
    }
  }

  lemma LookupSetDefault(entries: seq<Entry>, key: seq<byte>, value: Value, other: seq<byte>)
    ensures Lookup(SetDefault(entries, key, value), other) ==
            if other == key && !IsSet(entries, key) then Some(value) else Lookup(entries, other)
  {
    LookupSet(entries, key, value, other);
  }

  /** The memory figures and the default leave the other entries alone. */
  lemma DefaultsKeep(script: Script, m1: seq<Entry>, handled: nat, other: seq<byte>)
    requires other != USAGE && other != PEAK
    ensures var m3 := SetDefault(SetDefault(m1, USAGE, Int(script.usage(handled))), PEAK, Int(script.peak(handled)));
            && Lookup(m3, other) == Lookup(m1, other)
            && (other != RECYCLE ==> Lookup(SetDefault(m3, RECYCLE, Bool(false)), other) == Lookup(m1, other))
            && (other == RECYCLE ==> (Recycles(SetDefault(m3, RECYCLE, Bool(false))) <==> Recycles(m1)))
  {
    hide Lookup, SetDefault;
    var m2 := SetDefault(m1, USAGE, Int(script.usage(handled)));
    var m3 := SetDefault(m2, PEAK, Int(script.peak(handled)));
    LookupSetDefault(m1, USAGE, Int(script.usage(handled)), other);
    LookupSetDefault(m2, PEAK, Int(script.peak(handled)), other);
    LookupSetDefault(m3, RECYCLE, Bool(false), other);
  }

  lemma NamesDiffer()
    ensures |HANDLED| == 16 && |USAGE| == 12 && |PEAK| == 11 && |RECYCLE| == 7 && |REASON| == 14
  {
  }

  /** The count a reply reports is the number of the request, and from the limit on it asks for recycling. */
  lemma MetaReports(script: Script, meta: seq<Entry>, handled: nat, max: nat)
    ensures var m := MetaFor(script, meta, handled, max);
            && Lookup(m, HANDLED) == Some(Int(handled))
            && (max > 0 && handled >= max ==>
                  Lookup(m, RECYCLE) == Some(Bool(true)) && Recycles(m) && Lookup(m, REASON) == Some(Str(MAX_REQUESTS)))
            && (max == 0 || handled < max ==> (Recycles(m) <==> Recycles(meta)))
  {
    NamesDiffer();
    hide Lookup, SetEntry, SetDefault, Ascii;
    var m1 := SetEntry(meta, HANDLED, Int(handled));
    LookupSet(meta, HANDLED, Int(handled), HANDLED);
    LookupSet(meta, HANDLED, Int(handled), RECYCLE);
    DefaultsKeep(script, m1, handled, HANDLED);
    DefaultsKeep(script, m1, handled, RECYCLE);
    if max > 0 && handled >= max {
      var m3 := SetDefault(SetDefault(m1, USAGE, Int(script.usage(handled))), PEAK, Int(script.peak(handled)));
      var m4 := SetDefault(m3, RECYCLE, Bool(false));
      var m5 := SetEntry(m4, RECYCLE, Bool(true));
      LookupSet(m4, RECYCLE, Bool(true), RECYCLE);
      LookupSet(m4, RECYCLE, Bool(true), HANDLED);
      LookupSet(m5, REASON, Str(MAX_REQUESTS), REASON);
      LookupSet(m5, REASON, Str(MAX_REQUESTS), RECYCLE);
      LookupSet(m5, REASON, Str(MAX_REQUESTS), HANDLED);
    }
  }

  /** A figure the handler has set is kept; otherwise the loop reports its own. */
  function Reported(meta: seq<Entry>, key: seq<byte>, figure: int): Option<Value> {
    match Lookup(meta, key)
    case Some(v) => if v.Nil? then Some(Int(figure)) else Some(v)
    case None => Some(Int(figure))
  }

  lemma SetDefaultReports(entries: seq<Entry>, key: seq<byte>, figure: int)
    ensures Lookup(SetDefault(entries, key, Int(figure)), key) == Reported(entries, key, figure)
  {
    LookupSetDefault(entries, key, Int(figure), key);
  }

  /** The flags set when the limit is reached leave the other entries alone. */
  lemma LimitKeeps(m4: seq<Entry>, other: seq<byte>)
    requires other != RECYCLE && other != REASON
    ensures Lookup(SetEntry(SetEntry(m4, RECYCLE, Bool(true)), REASON, Str(MAX_REQUESTS)), other) == Lookup(m4, other)
  {
    LookupSet(m4, RECYCLE, Bool(true), other);
    LookupSet(SetEntry(m4, RECYCLE, Bool(true)), REASON, Str(MAX_REQUESTS), other);
    hide Lookup, SetEntry;
  }

  /** Usage is reported as memory_usage and peak as memory_peak, unless the handler says otherwise. */
  lemma MemoryReports(script: Script, meta: seq<Entry>, handled: nat, max: nat)
    ensures var m := MetaFor(script, meta, handled, max);
            && Lookup(m, USAGE) == Reported(meta, USAGE, script.usage(handled))
            && Lookup(m, PEAK) == Reported(meta, PEAK, script.peak(handled))
  {
    NamesDiffer();
    hide Lookup, SetEntry, SetDefault, Ascii;
    var m1 := SetEntry(meta, HANDLED, Int(handled));
    var m2 := SetDefault(m1, USAGE, Int(script.usage(handled)));
    var m3 := SetDefault(m2, PEAK, Int(script.peak(handled)));
    var m4 := SetDefault(m3, RECYCLE, Bool(false));
    LookupSet(meta, HANDLED, Int(handled), USAGE);
    LookupSet(meta, HANDLED, Int(handled), PEAK);
    SetDefaultReports(m1, USAGE, script.usage(handled));
    LookupSetDefault(m1, USAGE, Int(script.usage(handled)), PEAK);
    SetDefaultReports(m2, PEAK, script.peak(handled));
    LookupSetDefault(m2, PEAK, Int(script.peak(handled)), USAGE);
    LookupSetDefault(m3, RECYCLE, Bool(false), USAGE);
    LookupSetDefault(m3, RECYCLE, Bool(false), PEAK);
    LimitKeeps(m4, USAGE);
    LimitKeeps(m4, PEAK);
  }

  /** Everything else in the meta array is as the handler left it. */
  lemma MetaKeepsTheRest(script: Script, meta: seq<Entry>, handled: nat, max: nat, other: seq<byte>)
    requires other != HANDLED && other != USAGE && other != PEAK && other != RECYCLE && other != REASON
    ensures Lookup(MetaFor(script, meta, handled, max), other) == Lookup(meta, other)
  {
    hide Lookup, SetEntry, SetDefault, Ascii;
    var m1 := SetEntry(meta, HANDLED, Int(handled));
    var m3 := SetDefault(SetDefault(m1, USAGE, Int(script.usage(handled))), PEAK, Int(script.peak(handled)));
    LookupSet(meta, HANDLED, Int(handled), other);
    DefaultsKeep(script, m1, handled, other);
    LimitKeeps(SetDefault(m3, RECYCLE, Bool(false)), other);
  }

  /** Below the limit the reason for recycling is the handler's, and at most the flag is added. */
  lemma FlagsBelowTheLimit(script: Script, meta: seq<Entry>, handled: nat, max: nat)
    requires max == 0 || handled < max
    ensures var m := MetaFor(script, meta, handled, max);
            && Lookup(m, REASON) == Lookup(meta, REASON)
            && Lookup(m, RECYCLE) == match Lookup(meta, RECYCLE)
                                     case Some(v) => if v.Nil? then Some(Bool(false)) else Some(v)
                                     case None => Some(Bool(false))
  {
    NamesDiffer();
    hide Lookup, SetEntry, SetDefault, Ascii;
    var m1 := SetEntry(meta, HANDLED, Int(handled));
    var m2 := SetDefault(m1, USAGE, Int(script.usage(handled)));
    var m3 := SetDefault(m2, PEAK, Int(script.peak(handled)));
    LookupSet(meta, HANDLED, Int(handled), REASON);
    LookupSet(meta, HANDLED, Int(handled), RECYCLE);
    DefaultsKeep(script, m1, handled, REASON);
    LookupSetDefault(m1, USAGE, Int(script.usage(handled)), RECYCLE);
    LookupSetDefault(m2, PEAK, Int(script.peak(handled)), RECYCLE);
    LookupSetDefault(m3, RECYCLE, Bool(false), RECYCLE);
  }

  // ----- the loop -----

  /** The answers to the requests, of which the first is the handled + 1st of the connection. */
  function Answers(script: Script, requests: seq<seq<byte>>, handled: nat, max: nat): seq<Answer> {
    if requests == [] then []
    else
      var request := UnpackAt(requests[0], 0);
      if request.Fail? then []           // the exception ends the process
      else
        var a := AnswerTo(script, request.value, handled + 1, max);
        [a] + (if Recycles(a.meta) then [] else Answers(script, requests[1..], handled + 1, max))
  }

  function Payloads(answers: seq<Answer>): seq<seq<byte>> {
    if answers == [] then [] else [answers[0].payload] + Payloads(answers[1..])
  }

  function Reply(script: Script, input: seq<byte>, handled: nat, max: nat): seq<byte> {
    Wire(Payloads(Answers(script, Frames(input, PHP_MAX), handled, max)))
  }

  lemma PayloadsOf(a: Answer, answers: seq<Answer>)
    ensures Wire(Payloads([a] + answers)) == FrameOf(a.payload) + Wire(Payloads(answers))
  {
    hide FrameOf;
    assert ([a] + answers)[1..] == answers;
    assert Payloads([a] + answers)[1..] == Payloads(answers);
  }

  /** One turn of the loop. */
  lemma ReplyStep(script: Script, input: seq<byte>, raw: seq<byte>, rest: seq<byte>, handled: nat, max: nat)
    requires NextFrame(input, PHP_MAX) == Step(Frame(raw), rest)
    ensures var request := UnpackAt(raw, 0);
            if request.Fail? then Reply(script, input, handled, max) == []
            else
              var a := AnswerTo(script, request.value, handled + 1, max);
              Reply(script, input, handled, max) ==
              FrameOf(a.payload) + if Recycles(a.meta) then [] else Reply(script, rest, handled + 1, max)
  {
    FramesStep(input, raw, rest, PHP_MAX);
    var requests := Frames(input, PHP_MAX);
    assert requests[0] == raw && requests[1..] == Frames(rest, PHP_MAX);
    hide Frames, NextFrame, UnpackAt, AnswerTo, FrameOf, Recycles;
    var request := UnpackAt(raw, 0);
    if request.Got? {
      var a := AnswerTo(script, request.value, handled + 1, max);
      var later := if Recycles(a.meta) then [] else Answers(script, requests[1..], handled + 1, max);
      assert Answers(script, requests, handled, max) == [a] + later;
      PayloadsOf(a, later);
    }
  }

  lemma NoMoreFrames(script: Script, input: seq<byte>, handled: nat, max: nat)
    ensures !NextFrame(input, PHP_MAX).read.Frame? ==> Reply(script, input, handled, max) == []
  {
    hide NextFrame;
  }

  /** Output that has got sent bytes into all, after n bytes more. */
  lemma Extend(start: seq<byte>, all: seq<byte>, sent: nat, frame: seq<byte>, rest: seq<byte>, n: nat)
    requires sent <= |all| && all[sent..] == frame + rest && n <= |frame|
    ensures sent + n <= |all|
    ensures start + all[..sent] + frame[..n] == start + all[..sent + n]
    ensures n == |frame| ==> all[sent + n..] == rest
  {
    assert all == all[..sent] + (frame + rest);
  }

  /**
   Requests are read, answered and counted one at a time until the input ends, a request cannot be decoded or an
   answer recycles the worker. A connection that breaks cuts the output short and changes nothing else.
   */
  method Serve(input: Stream, output: Stream, script: Script, max: nat) returns (ghost sent: nat)
    requires input != output
    modifies input, output
    ensures var all := Reply(script, old(input.bytes), 0, max);
            && sent <= |all| && output.bytes == old(output.bytes) + all[..sent]
            && (input.healthy && output.healthy ==> sent == |all|)
  {
    hide Reply, NextFrame, UnpackAt, AnswerTo, FrameOf, Recycles;
    ghost var all := Reply(script, input.bytes, 0, max);
    ghost var start := output.bytes;
    var handled := 0;
    sent := 0;
    while true
      invariant sent <= |all| && output.bytes == old(output.bytes) + all[..sent]
      invariant all[sent..] == Reply(script, input.bytes, handled, max)
      decreases |input.bytes|
    {
      ghost var before := input.bytes;
      var raw := ReadFramePhp(input);
      if raw.None? {
        NoMoreFrames(script, before, handled, max);
        break;
      }
      ReplyStep(script, before, raw.value, input.bytes, handled, max);
      var request := UnpackAt(raw.value, 0);
      if request.Fail? {
        return;
      }
      handled := handled + 1;
      var answer := AnswerTo(script, request.value, handled, max);
      ghost var n;
      var ok;
      ok, n := WriteFramePhp(output, answer.payload);
      ghost var rest := if Recycles(answer.meta) then [] else Reply(script, input.bytes, handled, max);
      Extend(start, all, sent, FrameOf(answer.payload), rest, n);
      sent := sent + n;
      if !ok {
        return;
      }
      if Recycles(answer.meta) {
        break;
      }
    }
  }

  // ----- what that amounts to -----

  lemma AnswerReports(script: Script, request: Value, handled: nat, max: nat)
    ensures var a := AnswerTo(script, request, handled, max);
            && Lookup(a.meta, HANDLED) == Some(Int(handled))
            && (max > 0 && handled >= max ==> Recycles(a.meta))
  {
    MetaReports(script, script.handler(request, handled).meta, handled, max);
    hide MetaFor, Lookup, Pack, SetEntry, Recycles;
  }

  /** Request i gets answer i, numbered i + 1 on; only the last answer can recycle the worker. */
  lemma {:induction false} AnswersInOrder(script: Script, requests: seq<seq<byte>>, handled: nat, max: nat, i: nat)
    requires i < |Answers(script, requests, handled, max)|
    ensures var answers := Answers(script, requests, handled, max);
            && i < |requests|
            && UnpackAt(requests[i], 0).Got?
            && answers[i] == AnswerTo(script, UnpackAt(requests[i], 0).value, handled + i + 1, max)
            && Lookup(answers[i].meta, HANDLED) == Some(Int(handled + i + 1))
            && (Recycles(answers[i].meta) ==> i == |answers| - 1)
  {
    hide UnpackAt, AnswerTo, Recycles, Lookup;
    if i > 0 {
      AnswersInOrder(script, requests[1..], handled + 1, max, i - 1);
    } else {
      AnswerReports(script, UnpackAt(requests[0], 0).value, handled + 1, max);
    }
  }

  /** The worker stops early only at a request that it cannot decode, or after an answer that recycles it. */
  lemma {:induction false} AnswersAreComplete(script: Script, requests: seq<seq<byte>>, handled: nat, max: nat)
    ensures var answers := Answers(script, requests, handled, max); var n := |answers|;
            n < |requests| ==>
              UnpackAt(requests[n], 0).Fail? || (n > 0 && Recycles(answers[n - 1].meta))
  {
    hide UnpackAt, AnswerTo, Recycles, Lookup;
    if requests != [] && UnpackAt(requests[0], 0).Got? {
      AnswersAreComplete(script, requests[1..], handled + 1, max);
    }
  }

  /** A worker started with max_requests answers at most so many, and the last of them announces its end. */
  lemma {:induction false} AnswersWithinLimit(script: Script, requests: seq<seq<byte>>, handled: nat, max: nat)
    requires handled < max
    ensures var answers := Answers(script, requests, handled, max);
            && |answers| <= max - handled
            && (|answers| == max - handled ==> Recycles(answers[|answers| - 1].meta))
  {
    hide UnpackAt, AnswerTo, Recycles, Lookup;
    if requests != [] && UnpackAt(requests[0], 0).Got? {
      AnswerReports(script, UnpackAt(requests[0], 0).value, handled + 1, max);
      if handled + 1 < max {
        AnswersWithinLimit(script, requests[1..], handled + 1, max);
      }
    }
  }

  /** There and back: what was sent in frames is answered in frames, in order, and each end reads all of it. */
  lemma Exchange(script: Script, requests: seq<seq<byte>>, max: nat, limit: nat)
    requires Sendable(requests, PHP_MAX) && limit < TWO_32
    requires Sendable(Payloads(Answers(script, requests, 0, max)), limit)
    ensures Frames(Reply(script, Wire(requests), 0, max), limit) == Payloads(Answers(script, requests, 0, max))
  {
    FramesRoundTrip(requests, PHP_MAX);
    FramesRoundTrip(Payloads(Answers(script, requests, 0, max)), limit);
    hide Sendable, Frames, Answers, Payloads, Wire;
  }
}
