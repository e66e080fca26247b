/** Big-endian integers and frames of the anchored reader's protocol. */
module Wire {
  import opened Bytes

  type Word = n: int | 0 <= n < 0x1_0000_0000
  type Long = n: int | 0 <= n < 0x1_0000_0000_0000_0000

  // ---- Integers

  /** The byte of the given weight. */
  function Part(n: int, weight: int): Byte
    requires weight > 0
  {
    n / weight % 256
  }

  function Bytes32(n: Word): (bytes: seq<Byte>)
    ensures |bytes| == 4
  {
    [Part(n, 0x100_0000), Part(n, 0x1_0000), Part(n, 0x100), Part(n, 1)]
  }

  function Weigh(a: int, b: int, c: int, d: int): int {
    a * 0x100_0000 + b * 0x1_0000 + c * 0x100 + d
  }

  function Value32(bytes: seq<Byte>): Word
    requires |bytes| == 4
  {
    Weigh(bytes[0], bytes[1], bytes[2], bytes[3])
  }

  lemma WeighParts(n: Word)
    ensures Weigh(Part(n, 0x100_0000), Part(n, 0x1_0000), Part(n, 0x100), Part(n, 1)) == n
  {
    var v: int := n;
    var a, b, c := v / 0x100, v / 0x100 / 0x100, v / 0x100 / 0x100 / 0x100;
    assert v == a * 0x100 + v % 0x100 && a == b * 0x100 + a % 0x100 && b == c * 0x100 + b % 0x100;
    assert v == b * 0x1_0000 + (a % 0x100 * 0x100 + v % 0x100) && v / 0x1_0000 == b;
    assert v == c * 0x100_0000 + (b % 0x100 * 0x1_0000 + a % 0x100 * 0x100 + v % 0x100) && v / 0x100_0000 == c && 0 <= c < 0x100;
  }

  lemma PartsOfWeight(a: Byte, b: Byte, c: Byte, d: Byte)
    ensures
      var v := Weigh(a, b, c, d);
      Part(v, 0x100_0000) == a && Part(v, 0x1_0000) == b && Part(v, 0x100) == c && Part(v, 1) == d
  {
    var v: int := Weigh(a, b, c, d);
    var low: int, middle: int := a * 0x1_0000 + b * 0x100 + c, a * 0x100 + b;
    assert v == low * 0x100 + d && v / 0x100 == low;
    assert v == middle * 0x1_0000 + (c * 0x100 + d) && v / 0x1_0000 == middle;
    assert v / 0x100_0000 == a;
  }

  /** Four bytes as a number, the highest first. */
  function FromHighest(a: int, b: int, c: int, d: int): int {
    ((a * 256 + b) * 256 + c) * 256 + d
  }

  lemma HighestFirst(n: Word, m: Long)
    ensures
      var b, c := Bytes32(n), Bytes64(m);
      && FromHighest(b[0], b[1], b[2], b[3]) == n
      && FromHighest(c[0], c[1], c[2], c[3]) * 4294967296 + FromHighest(c[4], c[5], c[6], c[7]) == m
  {
    WeighParts(n);
    WeighParts(m / 0x1_0000_0000);
    WeighParts(m % 0x1_0000_0000);
    hide Part;
  }

  lemma RoundTrip32(n: Word, bytes: seq<Byte>)
    ensures Value32(Bytes32(n)) == n
    ensures |bytes| == 4 ==> Bytes32(Value32(bytes)) == bytes
  {
    WeighParts(n);
    if |bytes| == 4 {
      PartsOfWeight(bytes[0], bytes[1], bytes[2], bytes[3]);
    }
    hide Part, Weigh;
  }

  function Bytes64(n: Long): (bytes: seq<Byte>)
    ensures |bytes| == 8
  {
    Bytes32(n / 0x1_0000_0000) + Bytes32(n % 0x1_0000_0000)
  }

  function Value64(bytes: seq<Byte>): Long
    requires |bytes| == 8
  {
    Value32(bytes[..4]) * 0x1_0000_0000 + Value32(bytes[4..])
  }

  lemma RoundTrip64(n: Long, bytes: seq<Byte>)
    ensures Value64(Bytes64(n)) == n
    ensures |bytes| == 8 ==> Bytes64(Value64(bytes)) == bytes
  {
    hide Bytes32, Value32;
    RoundTrip32(n / 0x1_0000_0000, []);
    RoundTrip32(n % 0x1_0000_0000, []);
    assert Bytes64(n)[..4] == Bytes32(n / 0x1_0000_0000) && Bytes64(n)[4..] == Bytes32(n % 0x1_0000_0000);
    if |bytes| == 8 {
      RoundTrip32(0, bytes[..4]);
      RoundTrip32(0, bytes[4..]);
      var high: int, low: int := Value32(bytes[..4]), Value32(bytes[4..]);
      assert Value64(bytes) == high * 0x1_0000_0000 + low;
      assert bytes == bytes[..4] + bytes[4..];
    }
  }

  method Get32(p: array<Byte>, at: nat) returns (n: Word)
    requires at + 4 <= p.Length
    ensures n == Value32(p[at..at + 4]) == FromHighest(p[at], p[at + 1], p[at + 2], p[at + 3])
  {
    n := Weigh(p[at], p[at + 1], p[at + 2], p[at + 3]);
  }

  method Put32(p: array<Byte>, at: nat, n: Word)
    requires at + 4 <= p.Length
    modifies p
    ensures p[..] == old(p[..at]) + Bytes32(n) + old(p[at + 4..])
    ensures FromHighest(p[at], p[at + 1], p[at + 2], p[at + 3]) == n
  {
    WeighParts(n);
    p[at], p[at + 1], p[at + 2], p[at + 3] := Part(n, 0x100_0000), Part(n, 0x1_0000), Part(n, 0x100), Part(n, 1);
  }

  method Put64(p: array<Byte>, at: nat, n: Long)
    requires at + 8 <= p.Length
    modifies p
    ensures p[..] == old(p[..at]) + Bytes64(n) + old(p[at + 8..])
  {
    ghost var was := p[..];
    Put32(p, at, n / 0x1_0000_0000);
    ghost var half := p[..];
    assert half == was[..at] + Bytes32(n / 0x1_0000_0000) + was[at + 4..];
    Put32(p, at + 4, n % 0x1_0000_0000);
    assert half[..at + 4] == was[..at] + Bytes32(n / 0x1_0000_0000) && half[at + 8..] == was[at + 8..];
  }

  // ---- Texts

  /** An ASCII text as bytes. */
  function Ascii(text: string): (bytes: seq<Byte>)
    ensures |bytes| == |text|
  {
    seq(|text|, i requires 0 <= i < |text| => text[i] as int % 256)
  }

  // ---- Frames

  datatype Frame = Frame(kind: Byte, id: Word, body: seq<Byte>)

  const HEADER := 16

  predicate Sendable(frame: Frame) {
    |frame.body| < 0x1_0000_0000
  }

  function HeaderOf(kind: Byte, id: Word, length: Word): (bytes: seq<Byte>)
    ensures |bytes| == HEADER
  {
    [66, 51, 50, 48, 1, kind, 0, 0] + Bytes32(id) + Bytes32(length)
  }

  function Encode(frame: Frame): (bytes: seq<Byte>)
    requires Sendable(frame)
    ensures |bytes| == HEADER + |frame.body|
  {
    HeaderOf(frame.kind, frame.id, |frame.body|) + frame.body
  }

  /** A frame begins with `B320`, its version and kind, then its id and length, the highest byte first. */
  lemma FrameIs(frame: Frame)
    requires Sendable(frame)
    ensures
      var b := Encode(frame);
      && b[0] == 66 && b[1] == 51 && b[2] == 50 && b[3] == 48 && b[4] == 1 && b[5] == frame.kind && b[6] == 0 && b[7] == 0
      && FromHighest(b[8], b[9], b[10], b[11]) == frame.id && FromHighest(b[12], b[13], b[14], b[15]) == |frame.body| && b[16..] == frame.body
  {
    HighestFirst(frame.id, 0);
    HighestFirst(|frame.body|, 0);
    hide Bytes32, Bytes64, FromHighest;
  }

  /** The fixed parts of a header are as they should be. */
  predicate HeaderOk(bytes: seq<Byte>)
    requires |bytes| == HEADER
  {
    bytes[..5] == [66, 51, 50, 48, 1] && bytes[6] == 0 && bytes[7] == 0
  }

  lemma HeaderRoundTrip(kind: Byte, id: Word, length: Word)
    ensures
      var bytes := HeaderOf(kind, id, length);
      HeaderOk(bytes) && bytes[5] == kind && Value32(bytes[8..12]) == id && Value32(bytes[12..16]) == length
  {
    var bytes := HeaderOf(kind, id, length);
    assert bytes[8..12] == Bytes32(id) && bytes[12..16] == Bytes32(length);
    RoundTrip32(id, []);
    RoundTrip32(length, []);
    hide Bytes32, Value32;
  }

  /** The only header with these fields. */
  lemma HeaderIs(bytes: seq<Byte>)
    requires |bytes| == HEADER && HeaderOk(bytes)
    ensures bytes == HeaderOf(bytes[5], Value32(bytes[8..12]), Value32(bytes[12..16]))
  {
    hide Bytes32, Value32;
    RoundTrip32(0, bytes[8..12]);
    RoundTrip32(0, bytes[12..16]);
    assert bytes[..8] == [66, 51, 50, 48, 1, bytes[5], 0, 0] by {
      assert bytes[..5] == [66, 51, 50, 48, 1];
      assert bytes[..8] == bytes[..5] + [bytes[5], bytes[6], bytes[7]];
    }
    assert bytes == bytes[..8] + bytes[8..12] + bytes[12..16];
  }

  predicate AllSendable(frames: seq<Frame>) {
    forall i :: 0 <= i < |frames| ==> Sendable(frames[i])
  }

  function EncodeAll(frames: seq<Frame>): seq<Byte>
    requires AllSendable(frames)
  {
    if frames == [] then [] else Encode(frames[0]) + EncodeAll(frames[1..])
  }

  /** A whole frame stands at the front. */
  predicate HasFrame(bytes: seq<Byte>) {
    |bytes| >= HEADER && HeaderOk(bytes[..HEADER]) && |bytes| - HEADER >= Value32(bytes[12..16])
  }

  function FirstFrame(bytes: seq<Byte>): Frame
    requires HasFrame(bytes)
  {
    Frame(bytes[5], Value32(bytes[8..12]), bytes[HEADER..HEADER + Value32(bytes[12..16])])
  }

  function AfterFrame(bytes: seq<Byte>): (rest: seq<Byte>)
    requires HasFrame(bytes)
    ensures |rest| < |bytes|
  {
    bytes[HEADER + Value32(bytes[12..16])..]
  }

  /** Reading frames off a byte string; what is left when no further frame can be read. */
  function Decode(bytes: seq<Byte>): (seq<Frame>, seq<Byte>)
    decreases |bytes|
  {
    if !HasFrame(bytes) then ([], bytes)
    else
      var (frames, rest) := Decode(AfterFrame(bytes));
      ([FirstFrame(bytes)] + frames, rest)
  }

  lemma EncodedFirst(frame: Frame, more: seq<Byte>)
    requires Sendable(frame)
    ensures var bytes := Encode(frame) + more; HasFrame(bytes) && FirstFrame(bytes) == frame && AfterFrame(bytes) == more
  {
    var bytes := Encode(frame) + more;
    HeaderRoundTrip(frame.kind, frame.id, |frame.body|);
    var header := HeaderOf(frame.kind, frame.id, |frame.body|);
    assert bytes[..HEADER] == header && bytes[8..12] == header[8..12] && bytes[12..16] == header[12..16];
    var end := HEADER + |frame.body|;
    assert bytes[HEADER..end] == frame.body && bytes[end..] == more;
    hide HeaderOf, Value32, HeaderOk;
  }

  /** A frame has no other encoding. */
  lemma FirstFrameEncodes(bytes: seq<Byte>)
    requires HasFrame(bytes)
    ensures Sendable(FirstFrame(bytes)) && bytes == Encode(FirstFrame(bytes)) + AfterFrame(bytes)
  {
    var header := bytes[..HEADER];
    assert header[8..12] == bytes[8..12] && header[12..16] == bytes[12..16];
    HeaderIs(header);
    hide HeaderOf, Value32, HeaderOk;
    var end := HEADER + Value32(bytes[12..16]);
    assert bytes == bytes[..HEADER] + bytes[HEADER..end] + bytes[end..];
  }

  /** A stream of frames decodes to exactly these frames. */
  lemma {:induction false} StreamRoundTrip(frames: seq<Frame>)
    requires AllSendable(frames)
    ensures Decode(EncodeAll(frames)) == (frames, [])
  {
    hide HasFrame, FirstFrame, AfterFrame, Encode;
    if frames == [] {
      DecodeNothing();
    } else {
      StreamRoundTrip(frames[1..]);
      EncodedFirst(frames[0], EncodeAll(frames[1..]));
      assert frames == [frames[0]] + frames[1..];
    }
  }

  /** And whatever decodes to frames is their encoding, followed by what is left. */
  lemma {:induction false} DecodeIsExact(bytes: seq<Byte>)
    ensures var (frames, rest) := Decode(bytes); AllSendable(frames) && bytes == EncodeAll(frames) + rest && !HasFrame(rest)
    decreases |bytes|
  {
    hide HasFrame, FirstFrame, AfterFrame, Encode;
    if HasFrame(bytes) {
      DecodeIsExact(AfterFrame(bytes));
      FirstFrameEncodes(bytes);
      var frames := Decode(AfterFrame(bytes)).0;
      assert ([FirstFrame(bytes)] + frames)[1..] == frames;
    }
  }

  lemma DecodeNothing()
    ensures Decode([]) == ([], [])
  {}
}
