/** Base64 with the URL-safe alphabet and without padding, as in sections 5 and 3.2 of RFC 4648. */
module Base64Url {
  import opened Outcomes
  import opened Bytes
  import opened CanonicalJson
  import opened JsonReader

  type Sextet = n: int | 0 <= n < 64

  function Symbol(n: Sextet): Unit {
    if n < 26 then 65 + n else if n < 52 then 71 + n else if n < 62 then n - 4 else if n == 62 then 45 else 95
  }

  predicate IsSymbol(u: Unit) {
    65 <= u <= 90 || 97 <= u <= 122 || 48 <= u <= 57 || u == 45 || u == 95
  }

  function Value(u: Unit): Sextet
    requires IsSymbol(u)
  {
    if 65 <= u <= 90 then u - 65 else if 97 <= u <= 122 then u - 71 else if 48 <= u <= 57 then u + 4 else if u == 45 then 62 else 63
  }

  lemma SymbolsMatch(n: Sextet, u: Unit)
    ensures IsSymbol(Symbol(n)) && Value(Symbol(n)) == n
    ensures IsSymbol(u) ==> Symbol(Value(u)) == u
  {}

  /** The four sextets of three bytes; absent bytes count as zero. */
  function First(a: Byte): Sextet { a / 4 }
  function Second(a: Byte, b: Byte): Sextet { a % 4 * 16 + b / 16 }
  function Third(b: Byte, c: Byte): Sextet { b % 16 * 4 + c / 64 }
  function Fourth(c: Byte): Sextet { c % 64 }

  /** `toActionBase64`. */
  function Encode(bytes: seq<Byte>): (text: Text)
    decreases |bytes|
  {
    if bytes == [] then []
    else if |bytes| == 1 then [Symbol(First(bytes[0])), Symbol(Second(bytes[0], 0))]
    else if |bytes| == 2 then [Symbol(First(bytes[0])), Symbol(Second(bytes[0], bytes[1])), Symbol(Third(bytes[1], 0))]
    else
      [Symbol(First(bytes[0])), Symbol(Second(bytes[0], bytes[1])), Symbol(Third(bytes[1], bytes[2])), Symbol(Fourth(bytes[2]))]
      + Encode(bytes[3..])
  }

  predicate AllSymbols(text: Text) {
    forall i :: 0 <= i < |text| ==> IsSymbol(text[i])
  }

  function Byte1(p: Sextet, q: Sextet): Byte { p * 4 + q / 16 }
  function Byte2(q: Sextet, r: Sextet): Byte { q % 16 * 16 + r / 4 }
  function Byte3(r: Sextet, s: Sextet): Byte { r % 4 * 64 + s }

  /** `atob`: it forgives missing padding and ignores left-over bits; a single left-over symbol fails. */
  function Forgiving(text: Text): Option<seq<Byte>>
    requires AllSymbols(text)
    decreases |text|
  {
    if text == [] then Some([])
    else if |text| == 1 then None
    else
      var p, q := Value(text[0]), Value(text[1]);
      if |text| == 2 then Some([Byte1(p, q)])
      else
        var r := Value(text[2]);
        if |text| == 3 then Some([Byte1(p, q), Byte2(q, r)])
        else
          var rest := Forgiving(text[4..]);
          if rest.None? then None else Some([Byte1(p, q), Byte2(q, r), Byte3(r, Value(text[3]))] + rest.value)
  }

  /** `fromActionBase64`; `None` stands for its refusal. */
  function Decode(text: Text, expectedLength: nat): Option<seq<Byte>> {
    if text == [] || !AllSymbols(text) || |text| > expectedLength * 2 then None
    else
      var bytes := Forgiving(text);
      if bytes.None? || |bytes.value| != expectedLength || Encode(bytes.value) != text then None else bytes
  }

  lemma BytesMatch(a: Byte, b: Byte, c: Byte)
    ensures Byte1(First(a), Second(a, b)) == a
    ensures Byte2(Second(a, b), Third(b, c)) == b
    ensures Byte3(Third(b, c), Fourth(c)) == c
  {}

  lemma {:induction false} EncodeShape(bytes: seq<Byte>)
    ensures AllSymbols(Encode(bytes)) && |Encode(bytes)| <= 2 * |bytes| && (bytes != [] ==> Encode(bytes) != [])
    decreases |bytes|
  {
    if |bytes| >= 3 {
      EncodeShape(bytes[3..]);
      SymbolsMatch(First(bytes[0]), 0);
      SymbolsMatch(Second(bytes[0], bytes[1]), 0);
      SymbolsMatch(Third(bytes[1], bytes[2]), 0);
      SymbolsMatch(Fourth(bytes[2]), 0);
      hide Symbol, IsSymbol;
    }
  }

  /** One full group is read as three bytes, whatever follows. */
  lemma Group(p: Sextet, q: Sextet, r: Sextet, s: Sextet, rest: Text)
    requires AllSymbols(rest) && Forgiving(rest).Some?
    ensures
      var text := [Symbol(p), Symbol(q), Symbol(r), Symbol(s)] + rest;
      AllSymbols(text) && Forgiving(text) == Some([Byte1(p, q), Byte2(q, r), Byte3(r, s)] + Forgiving(rest).value)
  {
    SymbolsMatch(p, 0);
    SymbolsMatch(q, 0);
    SymbolsMatch(r, 0);
    SymbolsMatch(s, 0);
    hide Symbol, IsSymbol, Value, Byte1, Byte2, Byte3;
    var text := [Symbol(p), Symbol(q), Symbol(r), Symbol(s)] + rest;
    assert text[4..] == rest;
    assert text[0] == Symbol(p) && text[1] == Symbol(q) && text[2] == Symbol(r) && text[3] == Symbol(s);
  }

  lemma LastGroup(p: Sextet, q: Sextet, r: Sextet)
    ensures AllSymbols([Symbol(p), Symbol(q)]) && Forgiving([Symbol(p), Symbol(q)]) == Some([Byte1(p, q)])
    ensures AllSymbols([Symbol(p), Symbol(q), Symbol(r)])
    ensures Forgiving([Symbol(p), Symbol(q), Symbol(r)]) == Some([Byte1(p, q), Byte2(q, r)])
  {}

  lemma {:induction false} ForgivingUndoes(bytes: seq<Byte>)
    ensures AllSymbols(Encode(bytes)) && Forgiving(Encode(bytes)) == Some(bytes)
    decreases |bytes|
  {
    hide Symbol, IsSymbol, Value, First, Second, Third, Fourth, Byte1, Byte2, Byte3;
    if |bytes| == 1 {
      BytesMatch(bytes[0], 0, 0);
      LastGroup(First(bytes[0]), Second(bytes[0], 0), 0);
      assert bytes == [bytes[0]];
    } else if |bytes| == 2 {
      BytesMatch(bytes[0], bytes[1], 0);
      LastGroup(First(bytes[0]), Second(bytes[0], bytes[1]), Third(bytes[1], 0));
      assert bytes == [bytes[0], bytes[1]];
    } else if |bytes| >= 3 {
      BytesMatch(bytes[0], bytes[1], bytes[2]);
      ForgivingUndoes(bytes[3..]);
      Group(First(bytes[0]), Second(bytes[0], bytes[1]), Third(bytes[1], bytes[2]), Fourth(bytes[2]), Encode(bytes[3..]));
      assert bytes == [bytes[0], bytes[1], bytes[2]] + bytes[3..];
      hide AllSymbols, Forgiving;
    }
  }

  /** A text is accepted as the encoding of given bytes exactly when it is the one that encoding them produces. */
  lemma DecodeIsExact(text: Text, expectedLength: nat, bytes: seq<Byte>)
    ensures Decode(text, expectedLength) == Some(bytes) <==> bytes != [] && |bytes| == expectedLength && text == Encode(bytes)
  {
    EncodeShape(bytes);
    ForgivingUndoes(bytes);
    hide Encode, Forgiving, AllSymbols;
  }

  /** Different bytes have different encodings. */
  lemma EncodeInjective(a: seq<Byte>, b: seq<Byte>)
    requires Encode(a) == Encode(b)
    ensures a == b
  {
    ForgivingUndoes(a);
    ForgivingUndoes(b);
    hide Encode, Forgiving, AllSymbols;
  }

  /** The bits of the last symbol that belong to no byte are zero. */
  predicate Padded(text: Text) {
    && AllSymbols(text) && |text| % 4 != 1
    && (|text| % 4 == 2 ==> Value(text[|text| - 1]) % 16 == 0) && (|text| % 4 == 3 ==> Value(text[|text| - 1]) % 4 == 0)
  }

  lemma PaddedBehind(front: Text, rest: Text)
    requires |front| == 4 && AllSymbols(front) && Padded(rest)
    ensures Padded(front + rest)
  {}

  lemma {:induction false} EncodePads(bytes: seq<Byte>)
    ensures Padded(Encode(bytes))
    decreases |bytes|
  {
    EncodeShape(bytes);
    if |bytes| == 1 {
      SymbolsMatch(Second(bytes[0], 0), 0);
    } else if |bytes| == 2 {
      SymbolsMatch(Third(bytes[1], 0), 0);
    } else if |bytes| >= 3 {
      EncodePads(bytes[3..]);
      var rest := Encode(bytes[3..]);
      var front := Encode(bytes)[..4];
      assert Encode(bytes) == front + rest;
      hide Padded, Encode, IsSymbol, Symbol;
      PaddedBehind(front, rest);
    }
  }

  /** An accepted text has no other bits set than those of its bytes, as section 3.5 of RFC 4648 asks. */
  lemma PadBitsAreZero(text: Text, expectedLength: nat)
    requires Decode(text, expectedLength).Some?
    ensures Padded(text)
  {
    EncodePads(Decode(text, expectedLength).value);
  }

  // ---- The alphabet and the groups of section 5

  const UPPER := "ABCDEFGHIJKLM" + "NOPQRSTUVWXYZ"
  const LOWER := "abcdefghijklm" + "nopqrstuvwxyz"
  const ALPHABET := UPPER + LOWER + "0123456789" + "-_"

  lemma LettersStand(n: nat)
    requires n < 26
    ensures |UPPER| == 26 && UPPER[n] as int == 65 + n
    ensures |LOWER| == 26 && LOWER[n] as int == 97 + n
  {}

  /** A sextet is written as the symbol that stands at its place of the alphabet. */
  lemma SymbolIs(n: Sextet)
    ensures |ALPHABET| == 64 && Symbol(n) == ALPHABET[n] as int
  {
    LettersStand(0);
    if n < 26 { LettersStand(n); } else if n < 52 { LettersStand(n - 26); }
    hide UPPER, LOWER;
  }

  /** Four sextets, or three bytes, as one number. */
  function FromSextets(p: int, q: int, r: int, s: int): int {
    ((p * 64 + q) * 64 + r) * 64 + s
  }

  function FromBytes(a: int, b: int, c: int): int {
    (a * 256 + b) * 256 + c
  }

  /** Four symbols hold the twenty-four bits of three bytes, the highest first. */
  predicate Holds(symbols: Text, bytes: seq<Byte>) {
    && |symbols| == 4 && |bytes| == 3 && AllSymbols(symbols)
    && FromSextets(Value(symbols[0]), Value(symbols[1]), Value(symbols[2]), Value(symbols[3])) == FromBytes(bytes[0], bytes[1], bytes[2])
  }

  /** What is left over is filled up with zero bits to a whole number of symbols. */
  predicate HoldsRest(symbols: Text, bytes: seq<Byte>) {
    && AllSymbols(symbols)
    && (|bytes| == 0 ==> symbols == [])
    && (|bytes| == 1 ==> |symbols| == 2 && FromSextets(Value(symbols[0]), Value(symbols[1]), 0, 0) == FromBytes(bytes[0], 0, 0))
    && (|bytes| == 2 ==> |symbols| == 3 && FromSextets(Value(symbols[0]), Value(symbols[1]), Value(symbols[2]), 0) == FromBytes(bytes[0], bytes[1], 0))
  }

  lemma BitsMatch(a: Byte, b: Byte, c: Byte)
    ensures FromSextets(First(a), Second(a, b), Third(b, c), Fourth(c)) == FromBytes(a, b, c)
  {}

  lemma GroupHolds(a: Byte, b: Byte, c: Byte)
    ensures Holds([Symbol(First(a)), Symbol(Second(a, b)), Symbol(Third(b, c)), Symbol(Fourth(c))], [a, b, c])
  {
    SymbolsMatch(First(a), 0);
    SymbolsMatch(Second(a, b), 0);
    SymbolsMatch(Third(b, c), 0);
    SymbolsMatch(Fourth(c), 0);
    BitsMatch(a, b, c);
    hide Symbol, IsSymbol, Value, First, Second, Third, Fourth, FromSextets, FromBytes;
  }

  lemma BitsOfFewer(a: Byte, b: Byte)
    ensures FromSextets(First(a), Second(a, 0), 0, 0) == FromBytes(a, 0, 0)
    ensures FromSextets(First(a), Second(a, b), Third(b, 0), 0) == FromBytes(a, b, 0)
  {}

  lemma ShortEncodings(a: Byte, b: Byte)
    ensures Encode([]) == []
    ensures Encode([a]) == [Symbol(First(a)), Symbol(Second(a, 0))]
    ensures Encode([a, b]) == [Symbol(First(a)), Symbol(Second(a, b)), Symbol(Third(b, 0))]
  {
    hide Symbol, First, Second, Third;
  }

  lemma OneHolds(a: Byte)
    ensures HoldsRest([Symbol(First(a)), Symbol(Second(a, 0))], [a])
  {
    hide First, Second, Third, Fourth, FromSextets, FromBytes, Symbol, IsSymbol, Value;
    var symbols, bytes: seq<Byte> := [Symbol(First(a)), Symbol(Second(a, 0))], [a];
    SymbolsMatch(First(a), 0);
    SymbolsMatch(Second(a, 0), 0);
    BitsOfFewer(a, 0);
    assert |symbols| == 2 && |bytes| == 1 && bytes[0] == a;
  }

  lemma TwoHold(a: Byte, b: Byte)
    ensures HoldsRest([Symbol(First(a)), Symbol(Second(a, b)), Symbol(Third(b, 0))], [a, b])
  {
    hide First, Second, Third, Fourth, FromSextets, FromBytes, Symbol, IsSymbol, Value;
    var symbols, bytes: seq<Byte> := [Symbol(First(a)), Symbol(Second(a, b)), Symbol(Third(b, 0))], [a, b];
    SymbolsMatch(First(a), 0);
    SymbolsMatch(Second(a, b), 0);
    SymbolsMatch(Third(b, 0), 0);
    BitsOfFewer(a, b);
    assert |symbols| == 3 && |bytes| == 2 && bytes[0] == a && bytes[1] == b;
  }

  lemma RestHolds(bytes: seq<Byte>)
    requires |bytes| < 3
    ensures HoldsRest(Encode(bytes), bytes)
  {
    hide Encode, HoldsRest, Symbol;
    if bytes == [] {
      ShortEncodings(0, 0);
      NoneHolds();
    } else if |bytes| == 1 {
      ShortEncodings(bytes[0], 0);
      OneHolds(bytes[0]);
      assert bytes == [bytes[0]];
    } else {
      ShortEncodings(bytes[0], bytes[1]);
      TwoHold(bytes[0], bytes[1]);
      assert bytes == [bytes[0], bytes[1]];
    }
  }

  lemma NoneHolds()
    ensures HoldsRest([], [])
  {}

  /** The encoding is that of its groups of three bytes, one after the other, and of what is left over. */
  predicate HoldsAll(text: Text, bytes: seq<Byte>) {
    var groups := |bytes| / 3;
    && |text| >= 4 * groups
    && (forall i :: 0 <= i < groups ==> Holds(text[4 * i..4 * i + 4], bytes[3 * i..3 * i + 3]))
    && HoldsRest(text[4 * groups..], bytes[3 * groups..])
  }

  lemma FrontHolds(front: Text, text: Text, first: seq<Byte>, bytes: seq<Byte>)
    requires Holds(front, first) && HoldsAll(text, bytes)
    ensures HoldsAll(front + text, first + bytes)
  {
    hide Holds, HoldsRest;
    var whole, all, groups := front + text, first + bytes, |bytes| / 3;
    assert |front| == 4 && |first| == 3 by { assert Holds(front, first); FrontSizes(front, first); }
    forall i | 0 <= i < groups + 1 ensures Holds(whole[4 * i..4 * i + 4], all[3 * i..3 * i + 3]) {
      if i == 0 {
        assert whole[..4] == front && all[..3] == first;
      } else {
        assert whole[4 * i..4 * i + 4] == text[4 * (i - 1)..4 * (i - 1) + 4] && all[3 * i..3 * i + 3] == bytes[3 * (i - 1)..3 * (i - 1) + 3];
      }
    }
    assert whole[4 * (groups + 1)..] == text[4 * groups..] && all[3 * (groups + 1)..] == bytes[3 * groups..];
  }

  lemma FrontSizes(front: Text, first: seq<Byte>)
    requires Holds(front, first)
    ensures |front| == 4 && |first| == 3
  {}

  lemma {:induction false} EncodeHolds(bytes: seq<Byte>)
    ensures HoldsAll(Encode(bytes), bytes)
    decreases |bytes|
  {
    if |bytes| < 3 {
      RestHolds(bytes);
      assert Encode(bytes)[0..] == Encode(bytes) && bytes[0..] == bytes;
    } else {
      EncodeHolds(bytes[3..]);
      GroupHolds(bytes[0], bytes[1], bytes[2]);
      var front := [Symbol(First(bytes[0])), Symbol(Second(bytes[0], bytes[1])), Symbol(Third(bytes[1], bytes[2])), Symbol(Fourth(bytes[2]))];
      assert Encode(bytes) == front + Encode(bytes[3..]) && bytes == [bytes[0], bytes[1], bytes[2]] + bytes[3..];
      hide Encode, HoldsAll, Holds;
      FrontHolds(front, Encode(bytes[3..]), [bytes[0], bytes[1], bytes[2]], bytes[3..]);
    }
  }
}
