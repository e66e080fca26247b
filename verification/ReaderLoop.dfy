/** The request loops of the anchored reader: one response per request, in order, whatever the pipes do. */
module ReaderLoop {
  import opened Bytes
  import opened Wire
  import opened Descriptors

  const FILE_CAP := 8_000_000
  const REQUEST_CAP := 4100
  const WRITE_CAP := 67_108_864
  const WRITER_REQUEST_CAP := WRITE_CAP + 12 + 4096

  datatype Mode = Reader | Writer

  function RequestCap(mode: Mode): nat {
    if mode.Reader? then REQUEST_CAP else WRITER_REQUEST_CAP
  }

  predicate KindOk(mode: Mode, kind: Byte) {
    if mode.Reader? then 1 <= kind <= 3 else 16 <= kind <= 23
  }

  type Body = b: seq<Byte> | |b| < 0x1_0000_0000

  /** What the handler of a request answers; the same request may be answered differently at another turn. */
  datatype Answer = Answer(kind: Byte, body: Body)
  type Handlers = (nat, Frame) -> Answer

  const ERROR_KIND: Byte := 255

  predicate ReadInputOk(payload: seq<Byte>) {
    |payload| >= 5 && 0 !in payload[4..] && 0 < Value32(payload[..4]) <= FILE_CAP
  }

  predicate StatInputOk(payload: seq<Byte>) {
    payload != [] && 0 !in payload
  }

  /** The one response to the request at this turn. */
  function Respond(mode: Mode, handlers: Handlers, turn: nat, request: Frame): (response: Frame)
    ensures Sendable(response) && response.id == request.id
  {
    var answer :=
      if mode.Reader? && request.kind == 1 && !ReadInputOk(request.body) then Answer(ERROR_KIND, Ascii("read-input"))
      else if mode.Reader? && request.kind == 2 && !StatInputOk(request.body) then Answer(ERROR_KIND, Ascii("relative-path"))
      else handlers(turn, request);
    Frame(answer.kind, request.id, answer.body)
  }

  /** A request the process goes on with; any other ends it. */
  predicate Acceptable(mode: Mode, request: Frame) {
    request.id != 0 && KindOk(mode, request.kind) && |request.body| <= RequestCap(mode)
  }

  /** Reading and looking at a file, and asking Git, are all the reader does; a writer has eight requests of its own. */
  lemma AcceptableIs(request: Frame)
    ensures Acceptable(Reader, request) <==> request.id != 0 && (request.kind == 1 || request.kind == 2 || request.kind == 3) && |request.body| <= 4100
    ensures Acceptable(Writer, request) <==> request.id != 0 && 16 <= request.kind <= 23 && |request.body| <= 67_108_864 + 12 + 4096
  {}

  /** A request to read names a limit of 1 to 8000000 bytes, and then a path without zeros; one to look names just a path. */
  lemma RefusedRequests(handlers: Handlers, turn: nat, request: Frame)
    ensures
      var response, body := Respond(Reader, handlers, turn, request), request.body;
      && (request.kind == 1 && (|body| < 5 || 0 in body[4..] || FromHighest(body[0], body[1], body[2], body[3]) == 0
                                || FromHighest(body[0], body[1], body[2], body[3]) > 8_000_000) ==>
            response == Frame(255, request.id, Ascii("read-input")))
      && (request.kind == 2 && (body == [] || 0 in body) ==> response == Frame(255, request.id, Ascii("relative-path")))
      && (request.kind == 1 && |body| >= 5 && 0 !in body[4..] && 0 < FromHighest(body[0], body[1], body[2], body[3]) <= 8_000_000 ==>
            response == Frame(handlers(turn, request).kind, request.id, handlers(turn, request).body))
      && (request.kind == 2 && body != [] && 0 !in body ==> response == Frame(handlers(turn, request).kind, request.id, handlers(turn, request).body))
  {
    hide Ascii;
  }

  /** The responses to everything the peer sends, and whether the loop ends because the peer closed between requests. */
  function Responses(mode: Mode, handlers: Handlers, turn: nat, data: seq<Byte>): (result: (seq<Frame>, bool))
    ensures AllSendable(result.0)
    decreases |data|
  {
    if data == [] then ([], true)
    else if !HasFrame(data) || !Acceptable(mode, FirstFrame(data)) then ([], false)
    else
      var (frames, clean) := Responses(mode, handlers, turn + 1, AfterFrame(data));
      ([Respond(mode, handlers, turn, FirstFrame(data))] + frames, clean)
  }

  function RespondAll(mode: Mode, handlers: Handlers, turn: nat, requests: seq<Frame>): (responses: seq<Frame>)
    ensures |responses| == |requests| && AllSendable(responses)
    ensures forall i :: 0 <= i < |requests| ==> responses[i].id == requests[i].id
    decreases |requests|
  {
    if requests == [] then []
    else [Respond(mode, handlers, turn, requests[0])] + RespondAll(mode, handlers, turn + 1, requests[1..])
  }

  /**
   * Whatever is sent: the responses are exactly those to the requests that can be read off it one after the other, up to
   * the first that is not acceptable, and the loop ends cleanly only when nothing is left.
   */
  lemma {:induction false} OneResponsePerRequest(mode: Mode, handlers: Handlers, turn: nat, data: seq<Byte>)
    ensures
      var (frames, clean) := Responses(mode, handlers, turn, data);
      var (requests, rest) := Decode(data);
      && |frames| <= |requests| && frames == RespondAll(mode, handlers, turn, requests[..|frames|])
      && (forall i :: 0 <= i < |frames| ==> Acceptable(mode, requests[i]))
      && (|frames| < |requests| ==> !Acceptable(mode, requests[|frames|]))
      && (clean <==> |frames| == |requests| && rest == [])
    decreases |data|
  {
    hide HasFrame, FirstFrame, AfterFrame, Respond, Acceptable, RespondAll;
    NoFrame();
    RespondNone(mode, handlers, turn);
    if data != [] && HasFrame(data) && Acceptable(mode, FirstFrame(data)) {
      hide Responses, Decode;
      OneResponsePerRequest(mode, handlers, turn + 1, AfterFrame(data));
      FirstResponse(mode, handlers, turn, data);
      DecodeFirst(data);
      var frames, requests := Responses(mode, handlers, turn + 1, AfterFrame(data)).0, Decode(AfterFrame(data)).0;
      RespondFirst(mode, handlers, turn, FirstFrame(data), requests, |frames|);
    }
  }

  lemma RespondNone(mode: Mode, handlers: Handlers, turn: nat)
    ensures RespondAll(mode, handlers, turn, []) == []
  {}

  lemma DecodeFirst(data: seq<Byte>)
    requires HasFrame(data)
    ensures var rest := Decode(AfterFrame(data)); Decode(data) == ([FirstFrame(data)] + rest.0, rest.1)
  {}

  lemma RespondFirst(mode: Mode, handlers: Handlers, turn: nat, first: Frame, requests: seq<Frame>, n: nat)
    requires n <= |requests|
    ensures RespondAll(mode, handlers, turn, ([first] + requests)[..n + 1]) ==
            [Respond(mode, handlers, turn, first)] + RespondAll(mode, handlers, turn + 1, requests[..n])
  {
    assert ([first] + requests)[..n + 1] == [first] + requests[..n];
    assert ([first] + requests[..n])[1..] == requests[..n];
    hide Respond;
  }

  lemma NoFrame()
    ensures !HasFrame([])
  {}

  /** A peer that sends acceptable requests gets exactly one response to each, with its id and in order, and can read them back. */
  lemma RequestsAreAnswered(mode: Mode, handlers: Handlers, requests: seq<Frame>)
    requires AllSendable(requests) && forall i :: 0 <= i < |requests| ==> Acceptable(mode, requests[i])
    ensures
      var (frames, clean) := Responses(mode, handlers, 0, EncodeAll(requests));
      && clean && frames == RespondAll(mode, handlers, 0, requests)
      && Decode(EncodeAll(frames)) == (frames, [])
  {
    StreamRoundTrip(requests);
    OneResponsePerRequest(mode, handlers, 0, EncodeAll(requests));
    var frames := Responses(mode, handlers, 0, EncodeAll(requests)).0;
    StreamRoundTrip(frames);
    hide Responses, Decode, EncodeAll, Acceptable, RespondAll;
    assert requests[..|requests|] == requests;
  }

  // ---- The loop

  method FillHeader(frame: Frame) returns (header: array<Byte>)
    requires Sendable(frame)
    ensures fresh(header) && header[..] == HeaderOf(frame.kind, frame.id, |frame.body|)
  {
    hide FromHighest;
    header := new Byte[HEADER](i requires 0 <= i < HEADER => [66, 51, 50, 48, 1, frame.kind, 0, 0, 0, 0, 0, 0, 0, 0, 0, 0][i]);
    assert header[..] == [66, 51, 50, 48, 1, frame.kind, 0, 0, 0, 0, 0, 0, 0, 0, 0, 0];
    Put32(header, 8, frame.id);
    Put32(header, 12, |frame.body|);
  }

  method SendFrame(sink: Sink, frame: Frame) returns (alive: bool)
    requires Sendable(frame)
    modifies sink
    ensures Willing(old(sink.schedule)) ==> alive && Willing(sink.schedule)
    ensures alive ==> sink.received == old(sink.received) + Encode(frame)
    ensures !alive ==> Partly(old(sink.received), sink.received, Encode(frame))
  {
    var header := FillHeader(frame);
    hide HeaderOf;
    alive := ExactWrite(sink, header[..]);
    if !alive {
      PartOfFirst(old(sink.received), sink.received, header[..], frame.body);
      return;
    }
    hide Partly;
    alive := ExactWrite(sink, frame.body);
    if !alive { PartOfSecond(old(sink.received), sink.received, header[..], frame.body); }
  }

  lemma PartOfFirst(before: seq<Byte>, after: seq<Byte>, first: seq<Byte>, second: seq<Byte>)
    requires Partly(before, after, first)
    ensures Partly(before, after, first + second)
  {
    var k :| 0 <= k < |first| && after == before + first[..k];
    assert (first + second)[..k] == first[..k];
  }

  lemma PartOfSecond(before: seq<Byte>, after: seq<Byte>, first: seq<Byte>, second: seq<Byte>)
    requires Partly(before + first, after, second)
    ensures Partly(before, after, first + second)
  {
    var k :| 0 <= k < |second| && after == before + first + second[..k];
    assert (first + second)[..|first| + k] == first + second[..k];
  }

  /** The handshake frame names the directory that is held. */
  function Ready(device: Long, inode: Long): (frame: Frame)
    ensures Sendable(frame)
  {
    Frame(128, 0, Bytes64(device) + Bytes64(inode))
  }

  /** Eight bytes that hold the number, the highest first. */
  predicate IsLong(b: seq<Byte>, n: Long)
    requires |b| == 8
  {
    FromHighest(b[0], b[1], b[2], b[3]) * 4294967296 + FromHighest(b[4], b[5], b[6], b[7]) == n
  }

  lemma LongIs(n: Long)
    ensures IsLong(Bytes64(n), n)
  {
    HighestFirst(0, n);
    hide Bytes64, FromHighest;
  }

  /** It has no id, and its body is the device and then the inode, the highest byte first. */
  lemma ReadyIs(device: Long, inode: Long)
    ensures
      var frame := Ready(device, inode);
      && frame.kind == 128 && frame.id == 0 && |frame.body| == 16
      && IsLong(frame.body[..8], device) && IsLong(frame.body[8..], inode)
  {
    LongIs(device);
    LongIs(inode);
    hide Bytes64, IsLong;
    assert Ready(device, inode).body[..8] == Bytes64(device) && Ready(device, inode).body[8..] == Bytes64(inode);
  }

  datatype Next = Request(frame: Frame) | Closed | Dead

  method CheckHeader(mode: Mode, header: array<Byte>) returns (ok: bool)
    requires header.Length == HEADER
    ensures ok <==> HeaderOk(header[..]) && Value32(header[12..16]) <= RequestCap(mode) && Value32(header[8..12]) != 0 && KindOk(mode, header[5])
  {
    var length := Get32(header, 12);
    var id := Get32(header, 8);
    assert header[..][..5] == header[..5];
    ok := header[..5] == [66, 51, 50, 48, 1] && header[6] == 0 && header[7] == 0
          && length <= RequestCap(mode) && id != 0 && KindOk(mode, header[5]);
  }

  /** Reads one request, header first; anything unexpected ends the process. */
  method NextRequest(mode: Mode, source: Source) returns (next: Next)
    modifies source
    ensures Willing(old(source.schedule)) ==> Willing(source.schedule)
    ensures next.Request? ==>
      && HasFrame(old(source.data)) && next.frame == FirstFrame(old(source.data)) && Acceptable(mode, next.frame)
      && source.data == AfterFrame(old(source.data))
    ensures next.Closed? ==> old(source.data) == []
    ensures Willing(old(source.schedule)) ==> (next.Closed? <==> old(source.data) == [])
    ensures Willing(old(source.schedule)) ==> (next.Request? <==> HasFrame(old(source.data)) && Acceptable(mode, FirstFrame(old(source.data))))
  {
    ghost var data := source.data;
    NoFrame();
    var header := new Byte[HEADER];
    var result := ExactRead(source, header, HEADER);
    if result == Ended { return Closed; }
    if result == Broken { return Dead; }
    assert header[..] == data[..HEADER] && header[8..12] == data[8..12] && header[12..16] == data[12..16];
    var ok := CheckHeader(mode, header);
    if !ok { return Dead; }
    var length := Get32(header, 12);
    var id := Get32(header, 8);
    hide Value32, HeaderOk;
    var payload := new Byte[length];
    var rest := ExactRead(source, payload, length);
    if rest != All { return Dead; }
    assert payload[..] == data[HEADER..][..length] == data[HEADER..HEADER + length];
    return Request(Frame(header[5], id, payload[..]));
  }

  datatype Turn = Goes | Over(clean: bool)

  /** One turn of the loop: what was sent and what is still to be sent stay the same together. */
  method ServeOne(mode: Mode, source: Source, sink: Sink, handlers: Handlers, turn: nat) returns (result: Turn)
    modifies source, sink
    ensures Willing(old(source.schedule)) && Willing(old(sink.schedule)) ==> Willing(source.schedule) && Willing(sink.schedule)
    ensures
      var due := Responses(mode, handlers, turn, old(source.data));
      var left := Responses(mode, handlers, turn + 1, source.data);
      && (result == Goes ==>
            && sink.received + EncodeAll(left.0) == old(sink.received) + EncodeAll(due.0)
            && left.1 == due.1 && |source.data| < |old(source.data)|)
      && (result.Over? ==> sink.received <= old(sink.received) + EncodeAll(due.0))
      && (result.Over? && Willing(old(source.schedule)) && Willing(old(sink.schedule)) ==>
            sink.received == old(sink.received) + EncodeAll(due.0) && result.clean == due.1)
  {
    hide Encode, EncodeAll, HasFrame, FirstFrame, AfterFrame, Respond, Acceptable, Willing, Responses, Partly;
    ghost var before, sent := source.data, sink.received;
    var next := NextRequest(mode, source);
    if !next.Request? {
      if Willing(old(source.schedule)) { NoResponse(mode, handlers, turn, before); }
      return Over(next.Closed?);
    }
    var response := Respond(mode, handlers, turn, next.frame);
    FirstResponse(mode, handlers, turn, before);
    ghost var more := Responses(mode, handlers, turn + 1, source.data).0;
    EncodeFirst(response, more);
    var alive := SendFrame(sink, response);
    if !alive {
      CutShort(sent, sink.received, Encode(response), EncodeAll(more));
      return Over(false);
    }
    assert sink.received + EncodeAll(more) == sent + (Encode(response) + EncodeAll(more));
    return Goes;
  }

  /**
   * While the pipes do not fail, the peer receives exactly the responses; if one fails, or the process is stopped, it has
   * received a part of them from the start. How the bytes are split makes no difference.
   */
  method ServeRequests(mode: Mode, source: Source, sink: Sink, handlers: Handlers, device: Long, inode: Long) returns (clean: bool)
    requires sink.received == []
    modifies source, sink
    ensures
      var whole := Responses(mode, handlers, 0, old(source.data));
      && sink.received <= Encode(Ready(device, inode)) + EncodeAll(whole.0)
      && (Willing(old(source.schedule)) && Willing(old(sink.schedule)) ==>
            sink.received == Encode(Ready(device, inode)) + EncodeAll(whole.0) && clean == whole.1)
  {
    ghost var willing := Willing(source.schedule) && Willing(sink.schedule);
    ghost var data := source.data;
    ghost var whole := Encode(Ready(device, inode)) + EncodeAll(Responses(mode, handlers, 0, data).0);
    hide Encode, EncodeAll, Ready, Willing, Responses, Partly;
    var alive := SendFrame(sink, Ready(device, inode));
    if !alive {
      CutShort(old(sink.received), sink.received, Encode(Ready(device, inode)), EncodeAll(Responses(mode, handlers, 0, data).0));
      return false;
    }
    var turn := 0;
    var result := Goes;
    while result == Goes
      invariant result == Goes ==> sink.received + EncodeAll(Responses(mode, handlers, turn, source.data).0) == whole
      invariant result == Goes ==> Responses(mode, handlers, turn, source.data).1 == Responses(mode, handlers, 0, data).1
      invariant sink.received <= whole && (willing ==> Willing(source.schedule) && Willing(sink.schedule))
      invariant result.Over? && willing ==> sink.received == whole && result.clean == Responses(mode, handlers, 0, data).1
      decreases if result == Goes then 1 + |source.data| else 0
    {
      result := ServeOne(mode, source, sink, handlers, turn);
      turn := turn + 1;
    }
    return result.clean;
  }

  lemma NoResponse(mode: Mode, handlers: Handlers, turn: nat, data: seq<Byte>)
    requires data == [] || !(HasFrame(data) && Acceptable(mode, FirstFrame(data)))
    ensures Responses(mode, handlers, turn, data) == ([], data == []) && EncodeAll([]) == []
  {}

  lemma EncodeFirst(frame: Frame, more: seq<Frame>)
    requires Sendable(frame) && AllSendable(more)
    ensures AllSendable([frame] + more) && EncodeAll([frame] + more) == Encode(frame) + EncodeAll(more)
  {}

  lemma CutShort(sent: seq<Byte>, received: seq<Byte>, frame: seq<Byte>, more: seq<Byte>)
    requires Partly(sent, received, frame)
    ensures received <= sent + (frame + more)
  {}

  lemma FirstResponse(mode: Mode, handlers: Handlers, turn: nat, data: seq<Byte>)
    requires HasFrame(data) && Acceptable(mode, FirstFrame(data))
    ensures
      var rest := Responses(mode, handlers, turn + 1, AfterFrame(data));
      Responses(mode, handlers, turn, data) == ([Respond(mode, handlers, turn, FirstFrame(data))] + rest.0, rest.1)
  {}
}
