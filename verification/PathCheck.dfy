/** Checking relative paths and time stamps before they are used. */
module PathCheck {
  import opened Bytes
  import opened Wire

  const SLASH: Byte := 47
  const DOT: Byte := 46
  const MAX_PATH := 4096

  // ---- Paths

  /** The parts between slashes. */
  function Parts(name: seq<Byte>): (parts: seq<seq<Byte>>)
    ensures parts != []
  {
    if name == [] then [[]]
    else
      var rest := Parts(name[1..]);
      if name[0] == SLASH then [[]] + rest else [[name[0]] + rest[0]] + rest[1..]
  }

  function JoinParts(parts: seq<seq<Byte>>): seq<Byte>
    requires parts != []
  {
    if |parts| == 1 then parts[0] else parts[0] + [47] + JoinParts(parts[1..])
  }

  /** Splitting loses nothing: a path is its parts joined by slashes, and no part holds one. */
  lemma {:induction false} PartsJoin(name: seq<Byte>)
    ensures JoinParts(Parts(name)) == name
    ensures forall p :: p in Parts(name) ==> 47 !in p
  {
    if name != [] {
      PartsJoin(name[1..]);
      var rest := Parts(name[1..]);
      assert name == [name[0]] + name[1..];
      if name[0] == SLASH {
        assert ([[]] + rest)[1..] == rest;
      } else {
        var parts := [[name[0]] + rest[0]] + rest[1..];
        assert parts[1..] == rest[1..] && rest == [rest[0]] + rest[1..];
      }
    }
  }

  /** A part names an entry of its folder: it is not empty, not the folder itself, and not its parent. */
  predicate PartOk(part: seq<Byte>) {
    part != [] && part != [DOT] && part != [DOT, DOT]
  }

  predicate RelativePath(name: seq<Byte>) {
    0 < |name| <= MAX_PATH && AllOk(Parts(name))
  }

  predicate AllOk(parts: seq<seq<Byte>>) {
    forall p :: p in parts ==> PartOk(p)
  }

  /** The parts up to a slash, and the rest. */
  lemma {:induction false} PartsAt(name: seq<Byte>, end: nat)
    requires end <= |name| && SLASH !in name[..end] && (end == |name| || name[end] == SLASH)
    ensures Parts(name) == if end == |name| then [name] else [name[..end]] + Parts(name[end + 1..])
    decreases end
  {
    if end > 0 {
      PartsAt(name[1..], end - 1);
      assert name == [name[0]] + name[1..];
      assert name[1..][..end - 1] == name[1..end];
      assert name[..end] == [name[0]] + name[1..end];
      assert end < |name| ==> name[1..][end..] == name[end + 1..];
    }
  }

  /** The last part of a path, from `part` on. */
  lemma LastPart(name: seq<Byte>, part: nat)
    requires part <= |name| && SLASH !in name[part..]
    ensures AllOk(Parts(name[part..])) <==> PartOk(name[part..])
  {
    PartsAt(name[part..], |name| - part);
    hide Parts, PartOk;
    assert Parts(name[part..]) == [name[part..]];
  }

  /** A part before a slash at `p`, and the rest. */
  lemma NextPart(name: seq<Byte>, part: nat, p: nat)
    requires part <= p < |name| && SLASH !in name[part..p] && name[p] == SLASH
    ensures AllOk(Parts(name[part..])) <==> PartOk(name[part..p]) && AllOk(Parts(name[p + 1..]))
  {
    var rest := name[part..];
    assert rest[..p - part] == name[part..p] && rest[p - part + 1..] == name[p + 1..];
    PartsAt(rest, p - part);
    hide Parts, PartOk;
    FirstOk(name[part..p], Parts(name[p + 1..]));
  }

  lemma FirstOk(part: seq<Byte>, parts: seq<seq<Byte>>)
    ensures AllOk([part] + parts) <==> PartOk(part) && AllOk(parts)
  {
    assert forall p :: p in parts ==> p in [part] + parts;
    hide PartOk;
  }

  lemma RelativeMeans(name: seq<Byte>)
    ensures RelativePath(name) <==> 0 < |name| <= 4096 && forall part :: part in Parts(name) ==> part != [] && part != [46] && part != [46, 46]
  {
    hide Parts;
  }

  /** The scan: `name` ends where its terminator stands. */
  method RelativeOk(name: seq<Byte>) returns (ok: bool)
    ensures ok <==> RelativePath(name)
    ensures ok <==> 0 < |name| <= 4096 && forall part :: part in Parts(name) ==> part != [] && part != [46] && part != [46, 46]
  {
    RelativeMeans(name);
    assert !PartOk([]);
    hide PartOk;
    hide Parts, AllOk;
    if name == [] || |name| > MAX_PATH { return false; }
    assert name[0..] == name;
    if name[0] == SLASH {
      NextPart(name, 0, 0);
      assert name[0..0] == [];
      return false;
    }
    var part, p := 0, 0;
    while true
      invariant 0 <= part <= p <= |name| && SLASH !in name[part..p]
      invariant AllOk(Parts(name)) <==> AllOk(Parts(name[part..]))
      decreases |name| - p
    {
      if p < |name| && name[p] != SLASH {
        assert name[part..p + 1] == name[part..p] + [name[p]];
        p := p + 1;
        continue;
      }
      if p < |name| { NextPart(name, part, p); } else { assert name[part..p] == name[part..]; LastPart(name, part); }
      var bad := IsDots(name[part..p]);
      if bad { return false; }
      if p == |name| { return true; }
      part := p + 1;
      p := part;
    }
    return false;
  }

  method IsDots(part: seq<Byte>) returns (bad: bool)
    ensures bad <==> !PartOk(part)
  {
    var n := |part|;
    bad := n == 0 || (n == 1 && part[0] == DOT) || (n == 2 && part[0] == DOT && part[1] == DOT);
  }

  // ---- Times

  const NANOS := 1_000_000_000
  const LONG_MAX := 0xFFFF_FFFF_FFFF_FFFF

  /** Seconds and nanoseconds as the system reports them; either may be out of range. */
  datatype Time = Time(seconds: int, nanos: int)

  predicate ValidTime(t: Time) {
    t.seconds >= 0 && 0 <= t.nanos < NANOS
  }

  /** The guard, in 64-bit arithmetic that cannot wrap around. */
  predicate TimeGuard(t: Time) {
    !(t.seconds < 0 || t.nanos < 0 || t.nanos >= NANOS || t.seconds > (LONG_MAX - t.nanos) / NANOS)
  }

  /** The guard lets a time through exactly when it is valid and its nanoseconds fit in 64 bits; nothing wraps around then. */
  lemma GuardIsExact(t: Time)
    ensures TimeGuard(t) <==> ValidTime(t) && t.seconds * NANOS + t.nanos <= LONG_MAX
  {}

  method StatTimes(created: Time, modified: Time) returns (ok: bool, createdNs: Long, modifiedNs: Long)
    ensures ok <==> (ValidTime(created) && ValidTime(modified)
                     && created.seconds * NANOS + created.nanos <= LONG_MAX && modified.seconds * NANOS + modified.nanos <= LONG_MAX)
    ensures ok ==> createdNs == created.seconds * NANOS + created.nanos && modifiedNs == modified.seconds * NANOS + modified.nanos
  {
    GuardIsExact(created);
    GuardIsExact(modified);
    createdNs, modifiedNs := 0, 0;
    if created.seconds < 0 || modified.seconds < 0 || created.nanos < 0 || modified.nanos < 0
       || created.nanos >= NANOS || modified.nanos >= NANOS
       || created.seconds > (LONG_MAX - created.nanos) / NANOS || modified.seconds > (LONG_MAX - modified.nanos) / NANOS {
      return false, 0, 0;
    }
    return true, created.seconds * NANOS + created.nanos, modified.seconds * NANOS + modified.nanos;
  }
}
