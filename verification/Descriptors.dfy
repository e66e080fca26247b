/** Non-blocking descriptors that may serve any part of a request, and the loops that read and write exactly. */
module Descriptors {
  import opened Bytes
  import opened Wire

  /** What the next system call does: serve up to `most` bytes, ask to be tried again, or fail (also: a stop signal). */
  datatype Service = Serves(most: nat) | TryAgain | Fails

  predicate Willing(schedule: seq<Service>) {
    forall i :: 0 <= i < |schedule| ==> schedule[i] != Fails
  }

  /** How many of the wanted bytes a call serves, when some are there: at least one. */
  function Served(most: nat, wanted: nat): nat {
    if most == 0 then (if wanted == 0 then 0 else 1) else if most < wanted then most else wanted
  }

  datatype ReadResult = Data(bytes: seq<Byte>) | Again | Failure

  /** The reading end of a pipe: the bytes its peer sends before it closes, and how they arrive. */
  class Source {
    var data: seq<Byte>
    var schedule: seq<Service>

    constructor (data: seq<Byte>, schedule: seq<Service>)
      ensures this.data == data && this.schedule == schedule
    {
      this.data, this.schedule := data, schedule;
    }

    /** One `read`: no bytes mean the end. A call past the schedule serves all that is wanted. */
    method Read(wanted: nat) returns (result: ReadResult)
      requires wanted > 0
      modifies this
      ensures Willing(old(schedule)) ==> Willing(schedule)
      ensures result.Data? ==>
        && result.bytes + data == old(data) && |result.bytes| <= wanted && (result.bytes == [] ==> data == [])
        && |schedule| <= |old(schedule)|
      ensures !result.Data? ==> data == old(data) && |schedule| < |old(schedule)| && (result.Failure? ==> !Willing(old(schedule)))
    {
      var service := Serves(wanted);
      if schedule != [] {
        service := schedule[0];
        schedule := schedule[1..];
      }
      match service
      case TryAgain => result := Again;
      case Fails => result := Failure;
      case Serves(most) =>
        var n := Served(most, if wanted < |data| then wanted else |data|);
        result := Data(data[..n]);
        data := data[n..];
    }
  }

  /** The writing end: what was received so far. `taken` is `None` when the call is to be repeated. */
  class Sink {
    var received: seq<Byte>
    var schedule: seq<Service>

    constructor (schedule: seq<Service>)
      ensures received == [] && this.schedule == schedule
    {
      received, this.schedule := [], schedule;
    }

    /** One `write`: returns how many bytes were taken, 0 when it is to be repeated, or -1. */
    method Write(bytes: seq<Byte>) returns (n: int)
      requires bytes != []
      modifies this
      ensures Willing(old(schedule)) ==> Willing(schedule)
      ensures -1 <= n <= |bytes| && received == old(received) + bytes[..if n < 0 then 0 else n]
      ensures n <= 0 ==> |schedule| < |old(schedule)|
      ensures n > 0 ==> |schedule| <= |old(schedule)|
      ensures n < 0 ==> !Willing(old(schedule))
    {
      var service := Serves(|bytes|);
      if schedule != [] {
        service := schedule[0];
        schedule := schedule[1..];
      }
      match service
      case TryAgain => n := 0;
      case Fails => n := -1;
      case Serves(most) =>
        n := Served(most, |bytes|);
        received := received + bytes[..n];
    }
  }

  datatype Exact = All | Ended | Broken

  /**
   * However the bytes are split, the buffer is filled with the next `size` of them, or the stream ended before the
   * first, or it ended in the middle or the descriptor failed.
   */
  method ExactRead(source: Source, out: array<Byte>, size: nat) returns (result: Exact)
    requires size <= out.Length
    modifies source, out
    ensures Willing(old(source.schedule)) ==> Willing(source.schedule)
    ensures out[size..] == old(out[size..])
    ensures result == All ==> size <= |old(source.data)| && out[..size] == old(source.data)[..size] && source.data == old(source.data)[size..]
    ensures result == Ended ==> size > 0 && old(source.data) == []
    ensures Willing(old(source.schedule)) ==> result == if size <= |old(source.data)| then All else if old(source.data) == [] then Ended else Broken
  {
    var used := 0;
    ghost var given := source.data;
    while used < size
      invariant 0 <= used <= size && used <= |given|
      invariant source.data == given[used..] && out[..used] == given[..used] && out[size..] == old(out[size..])
      invariant Willing(old(source.schedule)) ==> Willing(source.schedule)
      decreases |source.schedule| + (size - used)
    {
      var n := source.Read(size - used);
      match n
      case Again =>
      case Failure => return Broken;
      case Data(bytes) =>
        if bytes == [] { return if used > 0 then Broken else Ended; }
        Fill(out, used, bytes);
        assert given[..used + |bytes|] == given[..used] + bytes by { assert given[used..] == bytes + source.data; }
        used := used + |bytes|;
    }
    return All;
  }

  /** What `read` does to its buffer. */
  method Fill(out: array<Byte>, at: nat, bytes: seq<Byte>)
    requires at + |bytes| <= out.Length
    modifies out
    ensures out[..] == old(out[..at]) + bytes + old(out[at + |bytes|..])
    ensures out[..at + |bytes|] == old(out[..at]) + bytes && out[at + |bytes|..] == old(out[at + |bytes|..])
  {
    forall i | 0 <= i < |bytes| {
      out[at + i] := bytes[i];
    }
  }

  /** Only a part of the bytes got out. */
  ghost predicate Partly(before: seq<Byte>, after: seq<Byte>, bytes: seq<Byte>) {
    exists k :: 0 <= k < |bytes| && after == before + bytes[..k]
  }

  /** All bytes are sent in order, or the process dies after a part of them. */
  method ExactWrite(sink: Sink, bytes: seq<Byte>) returns (alive: bool)
    modifies sink
    ensures Willing(old(sink.schedule)) ==> alive && Willing(sink.schedule)
    ensures alive ==> sink.received == old(sink.received) + bytes
    ensures !alive ==> Partly(old(sink.received), sink.received, bytes)
  {
    var sent := 0;
    while sent < |bytes|
      invariant 0 <= sent <= |bytes|
      invariant sink.received == old(sink.received) + bytes[..sent]
      invariant Willing(old(sink.schedule)) ==> Willing(sink.schedule)
      decreases |sink.schedule| + (|bytes| - sent)
    {
      var n := sink.Write(bytes[sent..]);
      if n < 0 {
        assert bytes[sent..][..0] == [];
        return false;
      }
      assert bytes[..sent + n] == bytes[..sent] + bytes[sent..][..n];
      sent := sent + n;
    }
    return true;
  }
}
