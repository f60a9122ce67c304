/**
 Why an orderly worker's answers pass validation: eregion_ok_response (tests/fixtures/lib/worker_base.php:163-179)
 copies the request's id, the codec carries it there and back, and the loop answers in order.
 */
module EchoedIds {
  import opened Basics
  import opened Bytes
  import opened Msgpack
  import opened MsgpackRoundTrip
  import opened Framing
  import opened PhpWorker
  import Protocol
  import opened Connection

  const TYPE: seq<byte> := Ascii("type")
  const VERSION: seq<byte> := Ascii("version")
  const ID: seq<byte> := Ascii("id")
  const STATUS: seq<byte> := Ascii("status")
  const HEADERS: seq<byte> := Ascii("headers")
  const BODY: seq<byte> := Ascii("body")
  const RESPONSE: seq<byte> := Ascii("response")

  /** Request ids are "req-N" (internal/dispatcher/dispatcher.go:155). */
  function IdText(n: nat): seq<byte> { Ascii("req-") + Digits(n) }

  lemma {:induction false} DigitsAreInjective(a: nat, b: nat)
    requires Digits(a) == Digits(b)
    ensures a == b
  {
    var d := Digits(a);
    if a >= 10 && b >= 10 {
      assert Digits(a / 10) == d[..|d| - 1] == Digits(b / 10);
      DigitsAreInjective(a / 10, b / 10);
    }
  }

  lemma IdsAreInjective(a: nat, b: nat)
    requires IdText(a) == IdText(b)
    ensures a == b
  {
    assert IdText(a)[4..] == Digits(a) && IdText(b)[4..] == Digits(b);
    DigitsAreInjective(a, b);
  }

  // ----- the Go end's reading of an answer -----

  function Text(b: seq<byte>): string { seq(|b|, i requires 0 <= i < |b| => b[i] as char) }

  ghost function IdIn(s: seq<byte>): Option<nat> {
    if exists n: nat :: IdText(n) == s then
      var n: nat :| IdText(n) == s;
      Some(n)
    else None
  }

  function MetaIn(v: Option<Value>): Protocol.Meta {
    if v.None? || !v.value.Map? then Protocol.Meta(0, false)
    else
      var usage := Lookup(v.value.entries, Ascii("memory_usage"));
      Protocol.Meta(if usage.Some? && usage.value.Int? && usage.value.n >= 0 then usage.value.n else 0,
                    Lookup(v.value.entries, Ascii("recycle")) == Some(Bool(true)))
  }

  /**
   The envelope in a decoded map, by the names of internal/protocol/messages.go:57-81; a map without these fields, or
   with others in their place, is an error.
   */
  ghost function EnvelopeIn(v: Value): Option<Protocol.Response> {
    if !v.Map? then None
    else
      var kind, version := Lookup(v.entries, Ascii("type")), Lookup(v.entries, Ascii("version"));
      var id, status := Lookup(v.entries, Ascii("id")), Lookup(v.entries, Ascii("status"));
      if kind.None? || !kind.value.Str? || version.None? || !version.value.Int? || version.value.n < 0
         || id.None? || !id.value.Str? || IdIn(id.value.s).None?
         || status.None? || !status.value.Int? || status.value.n < 0 then None
      else Some(Protocol.Response(Text(kind.value.s), version.value.n, IdIn(id.value.s).value, status.value.n,
                                  MetaIn(Lookup(v.entries, Ascii("meta")))))
  }

  ghost function Decode(raw: seq<byte>): Option<Protocol.Response> {
    var r := UnpackAt(raw, 0);
    if r.Got? then EnvelopeIn(r.value) else None
  }

  // ----- eregion_ok_response -----

  /** What a handler hands to it: status, headers and body for a request. */
  datatype Content = Content(status: int, headers: seq<Entry>, body: seq<byte>)

  /** The headers with a default for the content type (165-167). */
  function HeadersFor(content: Content): Value {
    Map(SetDefault(content.headers, Ascii("Content-Type"), Arr([Str(Ascii("text/plain"))])))
  }

  function IdOf(request: Value): Value {
    if request.Map? && IsSet(request.entries, ID) then Lookup(request.entries, ID).value else Str([])
  }

  function OkResponse(request: Value, content: Content): Response {
    Response([Entry(TYPE, Str(RESPONSE)), Entry(VERSION, Int(1)), Entry(ID, IdOf(request)),
              Entry(STATUS, Int(content.status)), Entry(HEADERS, HeadersFor(content)), Entry(BODY, Bin(content.body))],
             [Entry(RECYCLE, Bool(false))])
  }

  /** The request is a map whose id is "req-n". */
  ghost predicate Carries(raw: seq<byte>, n: nat) {
    var r := UnpackAt(raw, 0);
    r.Got? && r.value.Map? && Lookup(r.value.entries, ID) == Some(Str(IdText(n)))
  }

  /** The value answered to a request. */
  function AnswerValue(script: Script, request: Value, handled: nat, max: nat): Value {
    var r := script.handler(request, handled);
    Map(SetEntry(r.fields, META, Map(MetaFor(script, r.meta, handled, max))))
  }

  lemma {:induction false} LookupAsRead(entries: seq<Entry>, key: seq<byte>)
    ensures Lookup(EntriesAsRead(entries), key) ==
            if Lookup(entries, key).None? then None else Some(AsRead(Lookup(entries, key).value))
  {
    hide AsRead;
    if entries != [] && entries[0].key != key {
      LookupAsRead(entries[1..], key);
    }
  }

  lemma FieldNamesDiffer()
    ensures |TYPE| == |META| == |BODY| == 4 && |VERSION| == |HEADERS| == 7 && |ID| == 2 && |STATUS| == 6
    ensures TYPE != META && TYPE != BODY && BODY != META && VERSION != HEADERS
    ensures Text(RESPONSE) == Protocol.TYPE_RESPONSE
  {
    assert TYPE[0] == 116 && META[0] == 109 && BODY[0] == 98 && VERSION[0] == 118 && HEADERS[0] == 104;
    assert Text(RESPONSE) == "response";
  }

  /** The fields of eregion_ok_response, one by one. */
  lemma OkFields(request: Value, content: Content)
    ensures var fields := OkResponse(request, content).fields;
            && Lookup(fields, TYPE) == Some(Str(RESPONSE)) && Lookup(fields, VERSION) == Some(Int(1))
            && Lookup(fields, ID) == Some(IdOf(request)) && Lookup(fields, STATUS) == Some(Int(content.status))
            && Lookup(fields, HEADERS) == Some(HeadersFor(content)) && Lookup(fields, BODY) == Some(Bin(content.body))
  {
    FieldNamesDiffer();
    hide Ascii, IdOf, HeadersFor;
    var fields := OkResponse(request, content).fields;
    LookupOther(fields, VERSION, 1);
    LookupOther(fields, ID, 2);
    LookupOther(fields, STATUS, 3);
    LookupOther(fields, HEADERS, 4);
    LookupOther(fields, BODY, 5);
  }

  /** The first entry with a key is the one that counts. */
  lemma {:induction false} LookupOther(entries: seq<Entry>, key: seq<byte>, k: nat)
    requires k < |entries| && entries[k].key == key && forall j :: 0 <= j < k ==> entries[j].key != key
    ensures Lookup(entries, key) == Some(entries[k].value)
  {
    if k > 0 {
      LookupOther(entries[1..], key, k - 1);
    }
  }

  /** The content type the handler has set, or plain text. */
  lemma HeadersHaveAType(content: Content)
    ensures var name := Ascii("Content-Type"); var headers := HeadersFor(content);
            && headers.Map?
            && Lookup(headers.entries, name) == match Lookup(content.headers, name)
                                                case Some(v) =>
                                                  if v.Nil? then Some(Arr([Str(Ascii("text/plain"))])) else Some(v)
                                                case None => Some(Arr([Str(Ascii("text/plain"))]))
    ensures forall other :: other != Ascii("Content-Type") ==>
              Lookup(HeadersFor(content).entries, other) == Lookup(content.headers, other)
  {
    hide Ascii, Lookup, SetEntry;
    var name, plain := Ascii("Content-Type"), Arr([Str(Ascii("text/plain"))]);
    LookupSetDefault(content.headers, name, plain, name);
    forall other | other != name
      ensures Lookup(SetDefault(content.headers, name, plain), other) == Lookup(content.headers, other)
    {
      LookupSetDefault(content.headers, name, plain, other);
    }
  }

  /** The answer as the other end reads it has these fields, and the meta array of the loop. */
  lemma AnswerFields(script: Script, request: Value, content: Content, handled: nat, max: nat)
    requires script.handler(request, handled) == OkResponse(request, content)
    ensures var read := AsRead(AnswerValue(script, request, handled, max));
            && read.Map?
            && Lookup(read.entries, TYPE) == Some(Str(RESPONSE)) && Lookup(read.entries, VERSION) == Some(Int(1))
            && Lookup(read.entries, ID) == Some(AsRead(IdOf(request)))
            && Lookup(read.entries, STATUS) == Some(Int(content.status))
            && Lookup(read.entries, HEADERS) == Some(AsRead(HeadersFor(content)))
            && Lookup(read.entries, BODY) == Some(Str(content.body))
            && Lookup(read.entries, META) ==
               Some(AsRead(Map(MetaFor(script, [Entry(RECYCLE, Bool(false))], handled, max))))
  {
    hide Ascii, IdOf, Lookup, SetEntry, MetaFor, EntriesAsRead, HeadersFor;
    OkFields(request, content);
    FieldNamesDiffer();
    var r := script.handler(request, handled);
    var meta := Map(MetaFor(script, r.meta, handled, max));
    var entries := SetEntry(r.fields, META, meta);
    forall key ensures Lookup(entries, key) == if key == META then Some(meta) else Lookup(r.fields, key) {
      LookupSet(r.fields, META, meta, key);
    }
    LookupAsRead(entries, TYPE);
    LookupAsRead(entries, VERSION);
    LookupAsRead(entries, ID);
    LookupAsRead(entries, STATUS);
    LookupAsRead(entries, HEADERS);
    LookupAsRead(entries, BODY);
    LookupAsRead(entries, META);
  }

  /** What the pool gets to see of the meta array: the worker's memory, and whether it has to go. */
  lemma MetaArrives(script: Script, handled: nat, max: nat)
    requires script.usage(handled) >= 0
    ensures MetaIn(Some(AsRead(Map(MetaFor(script, [Entry(RECYCLE, Bool(false))], handled, max))))) ==
            Protocol.Meta(script.usage(handled), max > 0 && handled >= max)
  {
    var meta := [Entry(RECYCLE, Bool(false))];
    NamesDiffer();
    assert Lookup(meta, USAGE) == None && Lookup(meta, RECYCLE) == Some(Bool(false)) by {
      assert meta[1..] == [];
    }
    hide Ascii, Lookup, MetaFor, EntriesAsRead;
    MemoryReports(script, meta, handled, max);
    var m := MetaFor(script, meta, handled, max);
    if max > 0 && handled >= max {
      MetaReports(script, meta, handled, max);
    } else {
      FlagsBelowTheLimit(script, meta, handled, max);
    }
    LookupAsRead(m, USAGE);
    LookupAsRead(m, RECYCLE);
  }

  lemma EnvelopeOf(v: Value, n: nat, status: nat)
    requires v.Map? && Lookup(v.entries, TYPE) == Some(Str(RESPONSE)) && Lookup(v.entries, VERSION) == Some(Int(1))
    requires Lookup(v.entries, ID) == Some(Str(IdText(n))) && Lookup(v.entries, STATUS) == Some(Int(status))
    ensures EnvelopeIn(v) == Some(Protocol.Response("response", 1, n, status, MetaIn(Lookup(v.entries, META))))
  {
    FieldNamesDiffer();
    hide Ascii, Text, Lookup, IdText, MetaIn;
    var m: nat :| IdText(m) == IdText(n) && IdIn(IdText(n)) == Some(m);
    IdsAreInjective(m, n);
  }

  /** What the pool reads of such an answer, field by field. */
  ghost function ExpectedResponse(script: Script, n: nat, content: Content, handled: nat, max: nat): Protocol.Response
    requires content.status >= 0 && script.usage(handled) >= 0
  {
    Protocol.Response("response", 1, n, content.status,
                      Protocol.Meta(script.usage(handled), max > 0 && handled >= max))
  }

  /**
   The answer to a request arrives with the request's own id, the handler's status, the worker's memory and its wish to
   be recycled; with a legal status it passes validation.
   */
  lemma AnswerEchoes(script: Script, raw: seq<byte>, n: nat, content: Content, handled: nat, max: nat)
    requires Carries(raw, n) && content.status >= 0 && script.usage(handled) >= 0
    requires script.handler(UnpackAt(raw, 0).value, handled) == OkResponse(UnpackAt(raw, 0).value, content)
    requires InDomain(AnswerValue(script, UnpackAt(raw, 0).value, handled, max))
    ensures Decode(AnswerTo(script, UnpackAt(raw, 0).value, handled, max).payload) ==
            Some(ExpectedResponse(script, n, content, handled, max))
    ensures 100 <= content.status <= 599 ==>
              Protocol.ValidResponse(ExpectedResponse(script, n, content, handled, max), n)
  {
    hide Ascii, Lookup, SetEntry, MetaFor, EntriesAsRead, Pack, InDomain, UnpackAt, OkResponse, MetaIn;
    var request := UnpackAt(raw, 0).value;
    var v := AnswerValue(script, request, handled, max);
    AnswerFields(script, request, content, handled, max);
    MetaArrives(script, handled, max);
    assert AnswerTo(script, request, handled, max).payload == Pack(v);
    assert AsRead(IdOf(request)) == Str(IdText(n));
    hide IdText, AnswerTo, AnswerValue;
    RoundTrip(v, [], []);
    assert [] + Pack(v) + [] == Pack(v);
    EnvelopeOf(AsRead(v), n, content.status);
  }

  // ----- over a whole connection -----

  /** Requests numbered from first on, and a handler that answers each with eregion_ok_response. */
  ghost predicate AnswersOk(script: Script, requests: seq<seq<byte>>, contents: seq<Content>, first: nat, max: nat) {
    && |contents| == |requests|
    && forall k :: 0 <= k < |requests| ==> AnswersOne(script, requests[k], contents[k], first + k, k + 1, max)
  }

  ghost predicate AnswersOne(script: Script, raw: seq<byte>, content: Content, n: nat, handled: nat, max: nat) {
    && Carries(raw, n) && 100 <= content.status <= 599 && script.usage(handled) >= 0
    && script.handler(UnpackAt(raw, 0).value, handled) == OkResponse(UnpackAt(raw, 0).value, content)
    && InDomain(AnswerValue(script, UnpackAt(raw, 0).value, handled, max))
  }

  lemma {:induction false} PayloadAt(answers: seq<Answer>, i: nat)
    requires i < |answers|
    ensures |Payloads(answers)| == |answers| && Payloads(answers)[i] == answers[i].payload
  {
    if |answers| > 1 {
      PayloadAt(answers[1..], if i > 0 then i - 1 else 0);
    }
  }

  lemma AnswerAt(
    script: Script, requests: seq<seq<byte>>, contents: seq<Content>, first: nat, max: nat, i: nat)
    requires AnswersOk(script, requests, contents, first, max) && i < |Payloads(Answers(script, requests, 0, max))|
    ensures i < |contents| && contents[i].status >= 0 && script.usage(i + 1) >= 0
    ensures var expected := ExpectedResponse(script, first + i, contents[i], i + 1, max);
            && Decode(Payloads(Answers(script, requests, 0, max))[i]) == Some(expected)
            && Protocol.ValidResponse(expected, first + i)
  {
    hide Decode, Carries, OkResponse, InDomain, UnpackAt, AnswerTo, Lookup, Recycles;
    var answers := Answers(script, requests, 0, max);
    if answers != [] {
      PayloadAt(answers, if i < |answers| then i else 0);
      AnswersInOrder(script, requests, 0, max, i);
      assert AnswersOne(script, requests[i], contents[i], first + i, i + 1, max);
      AnswerEchoes(script, requests[i], first + i, contents[i], i + 1, max);
    }
  }

  /**
   On a connection whose worker answers with eregion_ok_response, each request that is answered finds the response that
   carries its own id: the i-th read, in whatever state the earlier ones have left the stream, validates.
   */
  lemma RequestsFindTheirOwnIds(
    script: Script, requests: seq<seq<byte>>, contents: seq<Content>, first: nat, max: nat, limit: nat, i: nat)
    requires AnswersOk(script, requests, contents, first, max)
    requires Sendable(requests, PHP_MAX) && limit < TWO_32
    requires Sendable(Payloads(Answers(script, requests, 0, max)), limit)
    requires i < |Payloads(Answers(script, requests, 0, max))|
    ensures i < |contents| && contents[i].status >= 0 && script.usage(i + 1) >= 0
    ensures var answers := Payloads(Answers(script, requests, 0, max));
            && Reply(script, Wire(requests), 0, max) == Wire(answers)
            && Outcome(Wire(answers[i..]), first + i, limit, Decode) ==
               Some(ExpectedResponse(script, first + i, contents[i], i + 1, max))
  {
    hide Decode, AnswersOk, Answers, Outcome, NextFrame, FrameOf, Wire, ExpectedResponse;
    var answers := Payloads(Answers(script, requests, 0, max));
    FramesRoundTrip(requests, PHP_MAX);
    forall k | 0 <= k < |answers|
      ensures Decode(answers[k]).Some? && Protocol.ValidResponse(Decode(answers[k]).value, first + k)
    {
      AnswerAt(script, requests, contents, first, max, k);
    }
    AnswerAt(script, requests, contents, first, max, i);
    AnswersFindTheirRequests(answers, first, i, limit, Decode);
  }

  /**
   Client.Send on a healthy connection of such a worker (internal/worker/process.go:150-185), when request i is sent
   and the answers to it and to the later ones are what the connection still has to give: the whole request goes out,
   the request's own answer comes in, and the next request finds the stream where its answer begins.
   */
  method Send(
    output: Stream, input: Stream, payload: seq<byte>, id: nat, limit: nat, decode: Decoder, ghost i: nat,
    ghost script: Script, ghost requests: seq<seq<byte>>, ghost contents: seq<Content>, ghost first: nat,
    ghost max: nat)
    returns (r: Option<Protocol.Response>)
    requires output != input && output.healthy && input.healthy
    requires AnswersOk(script, requests, contents, first, max) && Sendable(requests, PHP_MAX) && limit < TWO_32
    requires Sendable(Payloads(Answers(script, requests, 0, max)), limit)
    requires i < |Payloads(Answers(script, requests, 0, max))|
    requires input.bytes == Wire(Payloads(Answers(script, requests, 0, max))[i..])
    requires 0 < |payload| <= limit && id == first + i
    requires decode(Payloads(Answers(script, requests, 0, max))[i]) ==
             Decode(Payloads(Answers(script, requests, 0, max))[i])
    modifies output, input
    ensures i < |contents| && contents[i].status >= 0 && script.usage(i + 1) >= 0
    ensures r == Some(ExpectedResponse(script, first + i, contents[i], i + 1, max))
    ensures output.bytes == old(output.bytes) + FrameOf(payload)
    ensures input.bytes == Wire(Payloads(Answers(script, requests, 0, max))[i + 1..])
  {
    hide Decode, AnswersOk, Answers, Outcome, NextFrame, FrameOf, Wire, ExpectedResponse;
    ghost var answers := Payloads(Answers(script, requests, 0, max));
    AnswerAt(script, requests, contents, first, max, i);
    NextAnswer(answers, i, limit);
    ghost var sent;
    r, sent := SendRequest(output, input, payload, id, limit, decode);
  }

  lemma NextAnswer(replies: seq<seq<byte>>, i: nat, max: nat)
    requires i < |replies| && max < TWO_32 && Sendable(replies, max)
    ensures NextFrame(Wire(replies[i..]), max) == Step(Frame(replies[i]), Wire(replies[i + 1..]))
  {
    assert replies[i..][1..] == replies[i + 1..];
    FrameReads(replies[i], Wire(replies[i + 1..]), max);
    assert Wire(replies[i..]) == FrameOf(replies[i]) + Wire(replies[i + 1..]);
    hide NextFrame, FrameOf;
  }
}
