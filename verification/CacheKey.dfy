/** The cache key of an audio request, and the messages that carry the request to the NIM. */
module CacheKey {
  import opened Outcomes
  import opened Bytes

  datatype AudioRequest = AudioRequest(pcm: seq<Byte>, sampleRate: nat)

  // ---- The key

  /** The JSON of the configuration: everything around the sample rate is fixed while the process runs. */
  datatype Bridge = Bridge(before: seq<Byte>, after: seq<Byte>)

  function Config(bridge: Bridge, sampleRate: nat): seq<Byte> {
    bridge.before + Decimal(sampleRate) + bridge.after
  }

  /** `n.to_bytes(8, "big")`. */
  function BigEndian(n: nat, width: nat): (bytes: seq<Byte>)
    ensures |bytes| == width
  {
    if width == 0 then [] else BigEndian(n / 256, width - 1) + [n % 256]
  }

  function Power(width: nat): nat {
    if width == 0 then 1 else 256 * Power(width - 1)
  }

  lemma {:induction false} BigEndianInjective(a: nat, b: nat, width: nat)
    requires a < Power(width) && b < Power(width) && BigEndian(a, width) == BigEndian(b, width)
    ensures a == b
    decreases width
  {
    if width > 0 {
      var x, y := BigEndian(a, width), BigEndian(b, width);
      assert x[width - 1] == y[width - 1];
      assert x[..width - 1] == BigEndian(a / 256, width - 1) && y[..width - 1] == BigEndian(b / 256, width - 1);
      BigEndianInjective(a / 256, b / 256, width - 1);
    }
  }

  /** The number that bytes hold, the highest first. */
  function FromHighest(bytes: seq<Byte>): nat {
    if bytes == [] then 0 else FromHighest(bytes[..|bytes| - 1]) * 256 + bytes[|bytes| - 1] as int
  }

  lemma {:induction false} BigEndianHolds(n: nat, width: nat)
    requires n < Power(width)
    ensures FromHighest(BigEndian(n, width)) == n
    decreases width
  {
    if width > 0 {
      BigEndianHolds(n / 256, width - 1);
      assert BigEndian(n, width)[..width - 1] == BigEndian(n / 256, width - 1);
    }
  }

  function LengthBytes(): nat { 8 }

  /** What is hashed: the length of the configuration, the configuration, and the audio. */
  function Preimage(bridge: Bridge, request: AudioRequest): seq<Byte> {
    BigEndian(|Config(bridge, request.sampleRate)|, LengthBytes()) + Config(bridge, request.sampleRate) + request.pcm
  }

  /** Eight bytes hold the length of the configuration, which stands behind them and before the audio. */
  lemma PreimageIs(bridge: Bridge, request: AudioRequest)
    requires |Config(bridge, request.sampleRate)| < Power(8)
    ensures
      var bytes, config := Preimage(bridge, request), Config(bridge, request.sampleRate);
      && |bytes| == 8 + |config| + |request.pcm|
      && FromHighest(bytes[..8]) == |config| && bytes[8..8 + |config|] == config && bytes[8 + |config|..] == request.pcm
  {
    var config := Config(bridge, request.sampleRate);
    BigEndianHolds(|config|, 8);
    hide BigEndian, Power, FromHighest, Config;
    assert Preimage(bridge, request)[..8] == BigEndian(|config|, 8);
  }

  /** Configuration and audio cannot be shifted into one another. */
  lemma LengthPrefixSeparates(config: seq<Byte>, pcm: seq<Byte>, config': seq<Byte>, pcm': seq<Byte>, width: nat)
    requires |config| < Power(width) && |config'| < Power(width)
    requires BigEndian(|config|, width) + config + pcm == BigEndian(|config'|, width) + config' + pcm'
    ensures config == config' && pcm == pcm'
  {
    hide BigEndian, Power;
    var n, n' := BigEndian(|config|, width), BigEndian(|config'|, width);
    assert n + config + pcm == n + (config + pcm) && n' + config' + pcm' == n' + (config' + pcm');
    SplitSame(n, config + pcm, n', config' + pcm');
    BigEndianInjective(|config|, |config'|, width);
    SplitSame(config, pcm, config', pcm');
  }

  lemma ConfigInjective(bridge: Bridge, a: nat, b: nat)
    requires Config(bridge, a) == Config(bridge, b)
    ensures a == b
  {
    var x, y := Config(bridge, a), Config(bridge, b);
    var n := |bridge.before|;
    assert |Decimal(a)| == |Decimal(b)|;
    assert Decimal(a) == x[n..n + |Decimal(a)|] == y[n..n + |Decimal(b)|] == Decimal(b);
    DecimalInjective(a, b);
  }

  /** With a hash that has no collisions, two requests share a key exactly when their rate and their audio are equal. */
  lemma SameKeySameRequest(bridge: Bridge, hash: seq<Byte> -> string, a: AudioRequest, b: AudioRequest)
    requires forall x, y :: hash(x) == hash(y) ==> x == y
    requires |Config(bridge, a.sampleRate)| < Power(LengthBytes()) && |Config(bridge, b.sampleRate)| < Power(LengthBytes())
    ensures hash(Preimage(bridge, a)) == hash(Preimage(bridge, b)) <==> a == b
  {
    hide Power, BigEndian, LengthBytes;
    if hash(Preimage(bridge, a)) == hash(Preimage(bridge, b)) {
      LengthPrefixSeparates(Config(bridge, a.sampleRate), a.pcm, Config(bridge, b.sampleRate), b.pcm, LengthBytes());
      ConfigInjective(bridge, a.sampleRate, b.sampleRate);
    }
  }

  // ---- The messages

  const BYTES_PER_SAMPLE := 2
  const CHUNK_SECONDS := 1

  datatype Message = StreamHeader(samplesPerSecond: nat) | Audio(buffer: seq<Byte>) | EndOfAudio

  function Audios(pieces: seq<seq<Byte>>): seq<Message> {
    if pieces == [] then [] else [Audio(pieces[0])] + Audios(pieces[1..])
  }

  /** What the other end hears. */
  function Heard(messages: seq<Message>): seq<Byte> {
    if messages == [] then [] else (if messages[0].Audio? then messages[0].buffer else []) + Heard(messages[1..])
  }

  lemma {:induction false} AudiosHeard(pieces: seq<seq<Byte>>)
    ensures Heard(Audios(pieces) + [EndOfAudio]) == Join(pieces)
  {
    if pieces != [] {
      AudiosHeard(pieces[1..]);
      assert (Audios(pieces) + [EndOfAudio])[1..] == Audios(pieces[1..]) + [EndOfAudio];
    } else {
      assert Audios(pieces) + [EndOfAudio] == [EndOfAudio];
    }
  }

  /** The audio arrives whole and in order, in pieces of one second. Parsing admits no sample rate below 8000. */
  method RequestMessages(request: AudioRequest) returns (messages: seq<Message>)
    requires request.sampleRate > 0
    ensures |messages| >= 2 && messages[0] == StreamHeader(request.sampleRate) && messages[|messages| - 1] == EndOfAudio
    ensures Heard(messages) == request.pcm
    ensures messages[1..|messages| - 1] == Audios(Pieces(request.pcm, request.sampleRate * 2))
  {
    var size := request.sampleRate * BYTES_PER_SAMPLE * CHUNK_SECONDS;
    var pieces := Cut(request.pcm, size);
    PiecesJoin(request.pcm, size);
    AudiosHeard(pieces);
    messages := [StreamHeader(request.sampleRate)];
    for i := 0 to |pieces|
      invariant messages + Audios(pieces[i..]) == [StreamHeader(request.sampleRate)] + Audios(pieces)
      invariant |messages| >= 1
    {
      assert pieces[i..][1..] == pieces[i + 1..];
      messages := messages + [Audio(pieces[i])];
    }
    assert messages == [StreamHeader(request.sampleRate)] + Audios(pieces);
    messages := messages + [EndOfAudio];
    assert messages[1..] == Audios(pieces) + [EndOfAudio];
  }
}
