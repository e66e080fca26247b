/** The reader from end to end: what its peer receives as content was one stable snapshot of a file. */
module ReaderSnapshots {
  import opened Bytes
  import opened Wire
  import opened ReaderLoop
  import opened SnapshotRead

  /** At each turn the requests are answered as `FileRequest` answers them, from a file with the given history. */
  ghost predicate AnswersFromFiles(handlers: Handlers, histories: nat -> seq<Moment>) {
    forall turn, request :: handlers(turn, request).kind == 129 ==>
      && request.kind == 1 && ReadInputOk(request.body)
      && Snapshot(histories(turn), Value32(request.body[..4]), handlers(turn, request).body)
  }

  /** A part of a stream, from its start, holds the same frames as far as it goes. */
  lemma FirstOfPart(part: seq<Byte>, whole: seq<Byte>)
    requires part <= whole && HasFrame(part)
    ensures HasFrame(whole) && FirstFrame(whole) == FirstFrame(part) && AfterFrame(part) <= AfterFrame(whole)
  {
    assert whole[..HEADER] == part[..HEADER] && whole[8..12] == part[8..12] && whole[12..16] == part[12..16];
    var end := HEADER + Value32(part[12..16]);
    assert whole[HEADER..end] == part[HEADER..end];
    hide Value32, HeaderOk;
  }

  lemma {:induction false} PartDecodes(part: seq<Byte>, frames: seq<Frame>)
    requires AllSendable(frames) && part <= EncodeAll(frames)
    ensures Decode(part).0 <= frames
    decreases |frames|
  {
    hide HasFrame, FirstFrame, AfterFrame, Encode;
    NoFrame();
    if HasFrame(part) {
      FirstOfPart(part, EncodeAll(frames));
      assert frames != [];
      EncodedFirst(frames[0], EncodeAll(frames[1..]));
      PartDecodes(AfterFrame(part), frames[1..]);
      assert frames == [frames[0]] + frames[1..];
    }
  }

  lemma {:induction false} ResponseAt(mode: Mode, handlers: Handlers, turn: nat, requests: seq<Frame>, i: nat)
    requires i < |requests|
    ensures RespondAll(mode, handlers, turn, requests)[i] == Respond(mode, handlers, turn + i, requests[i])
    decreases |requests|
  {
    hide Respond;
    if i > 0 { ResponseAt(mode, handlers, turn + 1, requests[1..], i - 1); }
  }

  lemma ContentAnswers(handlers: Handlers, histories: nat -> seq<Moment>, turn: nat, request: Frame)
    requires AnswersFromFiles(handlers, histories) && Respond(Reader, handlers, turn, request).kind == 129
    ensures request.kind == 1 && ReadInputOk(request.body)
    ensures Snapshot(histories(turn), Value32(request.body[..4]), Respond(Reader, handlers, turn, request).body)
  {
    hide Snapshot, Value32;
  }

  /**
   * Whatever the peer has received by the end of `ServeRequests`, and however it was cut short: every frame of content in it
   * answers the request of its turn with one stable snapshot of the file, within the limit that the request names.
   */
  lemma ContentIsSnapshot(handlers: Handlers, histories: nat -> seq<Moment>, data: seq<Byte>, device: Long, inode: Long, received: seq<Byte>, i: nat)
    requires AnswersFromFiles(handlers, histories)
    requires received <= Encode(Ready(device, inode)) + EncodeAll(Responses(Reader, handlers, 0, data).0)
    requires i < |Decode(received).0| && Decode(received).0[i].kind == 129
    ensures 0 < i <= |Decode(data).0|
    ensures
      var frame, request := Decode(received).0[i], Decode(data).0[i - 1];
      && frame.id == request.id && request.kind == 1 && ReadInputOk(request.body)
      && Snapshot(histories(i - 1), Value32(request.body[..4]), frame.body)
  {
    hide Responses, Decode, EncodeAll, Encode, Ready, Respond, AnswersFromFiles, Snapshot, Value32;
    ReceivedFrames(handlers, data, device, inode, received, i);
    ResponseOf(handlers, data, i - 1);
    ContentAnswers(handlers, histories, i - 1, Decode(data).0[i - 1]);
  }

  /** Behind the handshake the peer receives the responses, in order. */
  lemma ReceivedFrames(handlers: Handlers, data: seq<Byte>, device: Long, inode: Long, received: seq<Byte>, i: nat)
    requires received <= Encode(Ready(device, inode)) + EncodeAll(Responses(Reader, handlers, 0, data).0)
    requires i < |Decode(received).0| && Decode(received).0[i].kind == 129
    ensures 0 < i <= |Responses(Reader, handlers, 0, data).0| && Decode(received).0[i] == Responses(Reader, handlers, 0, data).0[i - 1]
  {
    var responses := Responses(Reader, handlers, 0, data).0;
    var sent := [Ready(device, inode)] + responses;
    assert sent[1..] == responses && Ready(device, inode).kind != 129;
    hide Responses, Decode, Encode, Ready;
    PartDecodes(received, sent);
    hide EncodeAll;
  }

  lemma ResponseOf(handlers: Handlers, data: seq<Byte>, k: nat)
    requires k < |Responses(Reader, handlers, 0, data).0|
    ensures k < |Decode(data).0| && Responses(Reader, handlers, 0, data).0[k] == Respond(Reader, handlers, k, Decode(data).0[k])
  {
    hide Responses, Decode, Respond, Acceptable, RespondAll;
    OneResponsePerRequest(Reader, handlers, 0, data);
    var responses, requests := Responses(Reader, handlers, 0, data).0, Decode(data).0;
    ResponseAt(Reader, handlers, 0, requests[..|responses|], k);
  }
}
