/** The size of a canonical text as it is sent: in bytes of UTF-8. */
module Utf8Text {
  import opened Outcomes
  import opened Bytes
  import opened JsonReader
  import opened CanonicalJson

  /** Every surrogate is half of a pair. */
  predicate WellFormed(s: Text) {
    if s == [] then true
    else if 0xD800 <= s[0] < 0xDC00 then |s| >= 2 && 0xDC00 <= s[1] < 0xE000 && WellFormed(s[2..])
    else !(0xDC00 <= s[0] < 0xE000) && WellFormed(s[1..])
  }

  /** The code point of a pair of surrogates. */
  function PairPoint(high: int, low: int): int {
    0x1_0000 + (high - 0xD800) * 0x400 + (low - 0xDC00)
  }

  /** The bytes of a code point, by section 3 of RFC 3629. */
  function PointBytes(p: int): seq<Byte>
    requires 0 <= p < 0x11_0000
  {
    if p < 0x80 then [p]
    else if p < 0x800 then [0xC0 + p / 0x40, 0x80 + p % 0x40]
    else if p < 0x1_0000 then [0xE0 + p / 0x1000, 0x80 + p / 0x40 % 0x40, 0x80 + p % 0x40]
    else [0xF0 + p / 0x4_0000, 0x80 + p / 0x1000 % 0x40, 0x80 + p / 0x40 % 0x40, 0x80 + p % 0x40]
  }

  function Utf8(s: Text): seq<Byte>
    requires WellFormed(s)
  {
    if s == [] then []
    else if 0xD800 <= s[0] < 0xDC00 then PointBytes(PairPoint(s[0], s[1])) + Utf8(s[2..])
    else PointBytes(s[0]) + Utf8(s[1..])
  }

  function Weight(u: Unit): nat {
    if u < 0x80 then 1 else if u < 0x800 || 0xD800 <= u < 0xE000 then 2 else 3
  }

  lemma {:induction false} SizeOfFront(s: Text)
    requires s != []
    ensures Utf8Size(s) == Weight(s[0]) + Utf8Size(s[1..])
    decreases |s|
  {
    var n := |s| - 1;
    if n == 0 {
      assert s[..0] == [] && s[1..] == [];
    } else {
      SizeOfFront(s[..n]);
      assert s[..n][1..] == s[1..][..n - 1] && s[1..][n - 1] == s[n];
    }
  }

  /** The counted size of a well-formed text is the number of its bytes. */
  lemma {:induction false} SizeIs(s: Text)
    requires WellFormed(s)
    ensures |Utf8(s)| == Utf8Size(s)
    decreases |s|
  {
    if s != [] {
      SizeOfFront(s);
      if 0xD800 <= s[0] < 0xDC00 {
        SizeOfFront(s[1..]);
        SizeIs(s[2..]);
        assert s[1..][1..] == s[2..];
      } else {
        SizeIs(s[1..]);
      }
    }
  }

  // ---- What is printed is well formed

  lemma {:induction false} PlainFront(front: Text, s: Text)
    requires WellFormed(s) && forall i :: 0 <= i < |front| ==> front[i] < 0xD800
    ensures WellFormed(front + s)
    decreases |front|
  {
    if front == [] {
      assert front + s == s;
    } else {
      PlainFront(front[1..], s);
      assert (front + s)[0] == front[0] && (front + s)[1..] == front[1..] + s;
    }
  }

  /** A string is escaped unit by unit; the second half of a pair stays behind the first. */
  lemma {:induction false} EscapedIsWellFormed(s: Text, paired: bool, tail: Text)
    requires WellFormed(tail) && (paired ==> s != [] && Low(s[0]))
    ensures !paired ==> WellFormed(Escaped(s, paired, tail))
    ensures paired ==> var e := Escaped(s, paired, tail); e != [] && e[0] == s[0] && WellFormed(e[1..])
    decreases |s|
  {
    if s != [] {
      var next := !paired && BeginsPair(s);
      var more := Escaped(s[1..], next, tail);
      EscapedIsWellFormed(s[1..], next, tail);
      var e := Escaped(s, paired, tail);
      if ShortEscape(s[0]).Some? {
        PlainFront([92, ShortEscape(s[0]).value], more);
      } else if s[0] < 32 || Lone(s, paired) {
        PlainFront(HexEscape(s[0]), more);
      } else {
        assert e == [s[0]] + more && e[1..] == more;
        if next { assert e[2..] == more[1..] && e[1] == s[1]; }
      }
    }
  }

  lemma QuotedIsWellFormed(s: Text, tail: Text)
    requires WellFormed(tail)
    ensures WellFormed(Quoted(s, tail))
  {
    PlainFront([34], tail);
    EscapedIsWellFormed(s, false, [34] + tail);
    PlainFront([34], Escaped(s, false, [34] + tail));
  }

  /** A part of a number's grammar goes past ASCII units only. */
  predicate GoesPast(s: Text, rest: Text) {
    |rest| <= |s| && s[|s| - |rest|..] == rest && forall i :: 0 <= i < |s| - |rest| ==> s[i] < 0x80
  }

  lemma PastMore(s: Text, k: nat, rest: Text)
    requires k <= |s| && (forall i :: 0 <= i < k ==> s[i] < 0x80) && GoesPast(s[k..], rest)
    ensures GoesPast(s, rest)
  {
    assert forall i :: k <= i < |s| ==> s[i] == s[k..][i - k];
    assert s[|s| - |rest|..] == s[k..][|s| - k - |rest|..];
  }

  lemma PastBoth(s: Text, t: Text, rest: Text)
    requires GoesPast(s, t) && GoesPast(t, rest)
    ensures GoesPast(s, rest)
  {
    PastMore(s, |s| - |t|, rest);
  }

  lemma {:induction false} DigitsArePast(s: Text)
    ensures GoesPast(s, AfterDigits(s))
  {
    if s != [] && Digit(s[0]) {
      DigitsArePast(s[1..]);
      hide GoesPast;
      PastMore(s, 1, AfterDigits(s[1..]));
    }
  }

  lemma IntegerIsPast(s: Text)
    ensures AfterInteger(s).Some? ==> GoesPast(s, AfterInteger(s).value)
  {
    if s != [] && Digit(s[0]) && s[0] != 48 {
      DigitsArePast(s[1..]);
      PastMore(s, 1, AfterDigits(s[1..]));
      hide GoesPast;
    }
  }

  lemma FractionIsPast(s: Text)
    ensures AfterFraction(s).Some? ==> GoesPast(s, AfterFraction(s).value)
  {
    if AfterFraction(s).Some? && s != [] && s[0] == 46 {
      var k := 2;
      DigitsArePast(s[k..]);
      PastMore(s, k, AfterDigits(s[k..]));
      hide GoesPast;
    } else {
      assert s[|s| - |s|..] == s;
      hide AfterDigits;
    }
  }

  lemma ExponentIsPast(s: Text)
    ensures AfterExponent(s).Some? ==> GoesPast(s, AfterExponent(s).value)
  {
    if AfterExponent(s).Some? && s != [] && s[0] == 101 {
      var k := if |s| > 1 && (s[1] == 43 || s[1] == 45) then 2 else 1;
      DigitsArePast(s[k..]);
      PastMore(s, k, AfterDigits(s[k..]));
      hide GoesPast;
    }
  }

  lemma NumberIsAscii(digits: Text)
    requires NumberText(digits)
    ensures forall i :: 0 <= i < |digits| ==> digits[i] < 0x80
  {
    var s := if digits != [] && digits[0] == 45 then digits[1..] else digits;
    assert GoesPast(s, []) by {
      IntegerIsPast(s);
      var whole := AfterInteger(s).value;
      FractionIsPast(whole);
      var fraction := AfterFraction(whole).value;
      ExponentIsPast(fraction);
      hide AfterInteger, AfterFraction, AfterExponent, GoesPast;
      PastBoth(s, whole, fraction);
      PastBoth(s, fraction, []);
    }
    hide AfterNumber;
    if s != digits { PastMore(digits, 1, []); }
  }

  lemma {:induction false} PrintIsWellFormed(v: Json, tail: Text)
    requires Plain(v) && WellFormed(tail)
    ensures WellFormed(Print(v, tail))
    decreases v, 1
  {
    match v
    case Null => PlainFront(Word("null"), tail);
    case Bool(b) => PlainFront(if b then Word("true") else Word("false"), tail);
    case Num(digits) =>
      NumberIsAscii(digits);
      PlainFront(digits, tail);
    case Str(text) => QuotedIsWellFormed(text, tail);
    case Arr(items) =>
      PlainFront([93], tail);
      var end := [CLOSE_ARRAY] + tail;
      if items == [] {
        PlainFront([91], end);
      } else {
        ItemsAreWellFormed(items[1..], end);
        PrintIsWellFormed(items[0], MoreItems(items[1..], end));
        PlainFront([91], Print(items[0], MoreItems(items[1..], end)));
      }
    case Obj(entries) =>
      PlainFront([125], tail);
      var end := [CLOSE_OBJECT] + tail;
      if entries == [] {
        PlainFront([123], end);
      } else {
        EntriesAreWellFormed(entries[1..], end);
        EntryIsWellFormed(entries[0], MoreEntries(entries[1..], end));
        PlainFront([123], PrintEntry(entries[0], MoreEntries(entries[1..], end)));
      }
  }

  lemma {:induction false} ItemsAreWellFormed(items: seq<Json>, tail: Text)
    requires AllPlain(items) && WellFormed(tail)
    ensures WellFormed(MoreItems(items, tail))
    decreases items, 0
  {
    if items != [] {
      ItemsAreWellFormed(items[1..], tail);
      PrintIsWellFormed(items[0], MoreItems(items[1..], tail));
      PlainFront([44], Print(items[0], MoreItems(items[1..], tail)));
    }
  }

  lemma EntryIsWellFormed(e: Entry, tail: Text)
    requires Plain(e.value) && WellFormed(tail)
    ensures WellFormed(PrintEntry(e, tail))
    decreases e, 0
  {
    PrintIsWellFormed(e.value, tail);
    PlainFront([58], Print(e.value, tail));
    QuotedIsWellFormed(e.key, [58] + Print(e.value, tail));
  }

  lemma {:induction false} EntriesAreWellFormed(entries: seq<Entry>, tail: Text)
    requires AllPlainEntries(entries) && WellFormed(tail)
    ensures WellFormed(MoreEntries(entries, tail))
    decreases entries, 0
  {
    if entries != [] {
      EntriesAreWellFormed(entries[1..], tail);
      EntryIsWellFormed(entries[0], MoreEntries(entries[1..], tail));
      PlainFront([44], PrintEntry(entries[0], MoreEntries(entries[1..], tail)));
    }
  }

  /**
   * A value is accepted exactly when it is plain JSON of at most ten levels whose text has at most 16384 bytes in UTF-8; and
   * that text is well formed.
   */
  lemma AcceptsExactly(v: Json)
    requires Possible(v)
    ensures Plain(v) ==> WellFormed(Print(Norm(v), []))
    ensures Canonical(v).Some? <==> Plain(v) && Height(v) <= 10 && |Utf8(Print(Norm(v), []))| <= 16384
  {
    RefusesExactly(v);
    if Plain(v) {
      NormIsPlain(v);
      PrintIsWellFormed(Norm(v), []);
      SizeIs(Print(Norm(v), []));
    }
    hide Canonical, Plain, Print, Norm, Utf8, Utf8Size, Height, Possible;
  }
}
