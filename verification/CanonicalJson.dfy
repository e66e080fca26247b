/** One text for every plain JSON value, independent of the order in which its keys were inserted. */
module CanonicalJson {
  import opened Outcomes
  import opened Bytes
  import opened JsonReader
  import opened Sorting

  const MAX_DEPTH := 10
  const MAX_BYTES := 16384

  // ---- Keys

  predicate Digits(key: Text) {
    key != [] && forall i :: 0 <= i < |key| ==> 48 <= key[i] <= 57
  }

  function DigitsValue(key: Text): nat
    requires forall i :: 0 <= i < |key| ==> 48 <= key[i] <= 57
  {
    if key == [] then 0 else DigitsValue(key[..|key| - 1]) * 10 + (key[|key| - 1] as int - 48)
  }

  /** A key that counts as an array index. */
  predicate IndexKey(key: Text) {
    Digits(key) && (key[0] != 48 || |key| == 1) && DigitsValue(key) < 0xFFFF_FFFF
  }

  function Codes(key: Text): seq<int> {
    key
  }

  /**
   * The order in which an object built from sorted entries is printed: index keys first and by value, whatever was
   * inserted when, then the others by code units.
   */
  predicate KeyBefore(a: Text, b: Text) {
    if IndexKey(a) && IndexKey(b) then DigitsValue(a) < DigitsValue(b) || (DigitsValue(a) == DigitsValue(b) && LexLess(Codes(a), Codes(b)))
    else if IndexKey(a) || IndexKey(b) then IndexKey(a)
    else LexLess(Codes(a), Codes(b))
  }

  lemma {:induction false} DecimalIsIndex(n: nat)
    ensures
      var key := Decimal(n);
      Digits(key) && DigitsValue(key) == n && (key[0] == 48 <==> n == 0) && (n == 0 ==> |key| == 1)
  {
    if n >= 10 {
      DecimalIsIndex(n / 10);
      var front, key := Decimal(n / 10), Decimal(n);
      assert key[..|key| - 1] == front && key[|key| - 1] == 48 + n % 10;
    }
  }

  lemma {:induction false} IndexIsDecimal(key: Text)
    requires Digits(key) && (key[0] != 48 || |key| == 1)
    ensures Decimal(DigitsValue(key)) == key && (key[0] != 48 ==> DigitsValue(key) > 0)
  {
    var n := |key| - 1;
    if n > 0 {
      IndexIsDecimal(key[..n]);
      assert key == key[..n] + [key[n]];
      var v := DigitsValue(key[..n]);
      assert DigitsValue(key) == v * 10 + (key[n] - 48) && v > 0;
      assert DigitsValue(key) / 10 == v && DigitsValue(key) % 10 == key[n] - 48;
    } else {
      assert key[..0] == [] && DigitsValue(key) == key[0] - 48;
      assert Decimal(key[0] - 48) == [48 + (key[0] - 48)];
    }
  }

  /** An index key is the decimal text of a number below 2^32 - 1. */
  lemma IndexKeyIs(key: Text)
    ensures IndexKey(key) <==> exists n: nat :: n < 4294967295 && key == Decimal(n)
  {
    if IndexKey(key) {
      IndexIsDecimal(key);
      assert key == Decimal(DigitsValue(key));
    }
    if n: nat :| n < 4294967295 && key == Decimal(n) { DecimalIsIndex(n); }
  }

  lemma KeyTotal(a: Text, b: Text)
    ensures a == b || KeyBefore(a, b) || KeyBefore(b, a)
    ensures !(KeyBefore(a, b) && KeyBefore(b, a))
  {
    LexTotal(Codes(a), Codes(b));
    hide IndexKey, LexLess;
  }

  lemma KeyTransitive(a: Text, b: Text, c: Text)
    requires KeyBefore(a, b) && KeyBefore(b, c)
    ensures KeyBefore(a, c)
  {
    if LexLess(Codes(a), Codes(b)) && LexLess(Codes(b), Codes(c)) { LexTransitive(Codes(a), Codes(b), Codes(c)); }
    hide IndexKey, LexLess;
  }

  lemma KeysAreStrict()
    ensures StrictOrder(KeyBefore)
  {
    forall a: Text, b: Text ensures (a == b || KeyBefore(a, b) || KeyBefore(b, a)) && !(KeyBefore(a, b) && KeyBefore(b, a)) { KeyTotal(a, b); }
    forall a: Text, b: Text, c: Text | KeyBefore(a, b) && KeyBefore(b, c) ensures KeyBefore(a, c) { KeyTransitive(a, b, c); }
  }

  /** The order is not that of code units: of the keys "10" and "9" the latter is printed first. */
  lemma PrintedOrderIsNotCodeOrder()
    ensures KeyBefore([57], [49, 48]) && LexLess([49, 48], [57])
  {}

  // ---- Printing

  const QUOTE: Unit := 34
  const BACKSLASH: Unit := 92
  const COMMA: Unit := 44
  const COLON: Unit := 58
  const OPEN_ARRAY: Unit := 91
  const CLOSE_ARRAY: Unit := 93
  const OPEN_OBJECT: Unit := 123
  const CLOSE_OBJECT: Unit := 125

  function Hex(n: int): Unit
    requires 0 <= n < 16
  {
    if n < 10 then 48 + n else 87 + n
  }

  function HexEscape(u: Unit): (text: Text)
    ensures |text| == 6
  {
    [BACKSLASH, 117, Hex(u / 0x1000), Hex(u / 0x100 % 16), Hex(u / 16 % 16), Hex(u % 16)]
  }

  /** The letter of a short escape, if the unit has one. */
  function ShortEscape(u: Unit): Option<Unit> {
    if u == QUOTE || u == BACKSLASH then Some(u)
    else if u == 8 then Some(98)
    else if u == 9 then Some(116)
    else if u == 10 then Some(110)
    else if u == 12 then Some(102)
    else if u == 13 then Some(114)
    else None
  }

  /** The unit as it is printed, in front of what follows. */
  function Escape(u: Unit, lone: bool, tail: Text): Text {
    if ShortEscape(u).Some? then [BACKSLASH, ShortEscape(u).value] + tail
    else if u < 32 || lone then HexEscape(u) + tail
    else [u] + tail
  }

  predicate High(u: Unit) { 0xD800 <= u < 0xDC00 }

  predicate Low(u: Unit) { 0xDC00 <= u < 0xE000 }

  predicate BeginsPair(s: Text) {
    |s| >= 2 && High(s[0]) && Low(s[1])
  }

  /** A surrogate that is not half of a pair; `paired` says that the first unit is the second half of one. */
  predicate Lone(s: Text, paired: bool)
    requires s != []
  {
    !paired && !BeginsPair(s) && (High(s[0]) || Low(s[0]))
  }

  function Escaped(s: Text, paired: bool, tail: Text): Text {
    if s == [] then tail else Escape(s[0], Lone(s, paired), Escaped(s[1..], !paired && BeginsPair(s), tail))
  }

  function Quoted(s: Text, tail: Text): Text {
    [QUOTE] + Escaped(s, false, [QUOTE] + tail)
  }

  function Word(text: string): Text {
    seq(|text|, i requires 0 <= i < |text| => text[i] as int % 0x1_0000)
  }

  /** The text of a value, in front of what follows. */
  function Print(v: Json, tail: Text): Text
    decreases v, 1
  {
    match v
    case Null => Word("null") + tail
    case Bool(b) => (if b then Word("true") else Word("false")) + tail
    case Num(digits) => digits + tail
    case Str(text) => Quoted(text, tail)
    case Arr(items) =>
      var end := [CLOSE_ARRAY] + tail;
      [OPEN_ARRAY] + (if items == [] then end else Print(items[0], MoreItems(items[1..], end)))
    case Obj(entries) =>
      var end := [CLOSE_OBJECT] + tail;
      [OPEN_OBJECT] + (if entries == [] then end else PrintEntry(entries[0], MoreEntries(entries[1..], end)))
    case Alien => tail
  }

  function MoreItems(items: seq<Json>, tail: Text): Text
    decreases items, 0
  {
    if items == [] then tail else [COMMA] + Print(items[0], MoreItems(items[1..], tail))
  }

  function PrintEntry(e: Entry, tail: Text): Text
    decreases e, 0
  {
    Quoted(e.key, [COLON] + Print(e.value, tail))
  }

  function MoreEntries(entries: seq<Entry>, tail: Text): Text
    decreases entries, 0
  {
    if entries == [] then tail else [COMMA] + PrintEntry(entries[0], MoreEntries(entries[1..], tail))
  }

  // ---- Reading what was printed

  /** Plain JSON throughout: every number prints as a number, and no object has a key twice. */
  predicate Plain(v: Json) {
    match v
    case Num(digits) => NumberText(digits)
    case Arr(items) => AllPlain(items)
    case Obj(entries) => DistinctKeys(entries) && AllPlainEntries(entries)
    case Alien => false
    case _ => true
  }

  predicate AllPlain(items: seq<Json>) {
    forall i :: 0 <= i < |items| ==> Plain(items[i])
  }

  predicate AllPlainEntries(entries: seq<Entry>) {
    forall i :: 0 <= i < |entries| ==> Plain(entries[i].value)
  }

  lemma HexDigits(u: Unit)
    ensures u == u / 0x1000 * 0x1000 + u / 0x100 % 16 * 0x100 + u / 16 % 16 * 16 + u % 16
  {
    var v: int := u;
    var a, b, c := v / 16, v / 16 / 16, v / 16 / 16 / 16;
    assert v == a * 16 + v % 16 && a == b * 16 + a % 16 && b == c * 16 + b % 16;
    assert v == b * 0x100 + (a % 16 * 16 + v % 16) && v / 0x100 == b;
    assert v == c * 0x1000 + (b % 16 * 0x100 + a % 16 * 16 + v % 16) && v / 0x1000 == c;
  }

  lemma HexReads(u: Unit, tail: Text)
    ensures ReadUnit(HexEscape(u) + tail) == Some((u, tail))
  {
    var s := HexEscape(u) + tail;
    assert s[0] == 92 && s[1] == 117 && s[6..] == tail;
    assert s[2] == Hex(u / 0x1000) && s[3] == Hex(u / 0x100 % 16) && s[4] == Hex(u / 16 % 16) && s[5] == Hex(u % 16);
    HexDigits(u);
  }

  /** Each unit of a string is read back, however it was escaped. */
  lemma EscapeReads(u: Unit, lone: bool, tail: Text)
    ensures Escape(u, lone, tail) != [] && Escape(u, lone, tail)[0] != 34 && ReadUnit(Escape(u, lone, tail)) == Some((u, tail))
  {
    if ShortEscape(u).Some? {
      var s := [BACKSLASH, ShortEscape(u).value] + tail;
      assert s[0] == 92 && s[1] == ShortEscape(u).value && s[2..] == tail;
    } else if u < 32 || lone {
      HexReads(u, tail);
    } else {
      assert ([u] + tail)[1..] == tail;
    }
  }

  lemma {:induction false} EscapedReads(s: Text, paired: bool, x: Text)
    ensures ReadString(Escaped(s, paired, [QUOTE] + x)) == Some((s, x))
    decreases |s|
  {
    if s == [] {
      assert ([QUOTE] + x)[1..] == x;
    } else {
      var more := Escaped(s[1..], !paired && BeginsPair(s), [QUOTE] + x);
      EscapeReads(s[0], Lone(s, paired), more);
      EscapedReads(s[1..], !paired && BeginsPair(s), x);
      hide Escape, Lone, BeginsPair, ReadUnit;
      assert s == [s[0]] + s[1..];
    }
  }

  lemma QuotedReads(s: Text, x: Text)
    ensures Quoted(s, x) != [] && Quoted(s, x)[0] == 34 && ReadString(Quoted(s, x)[1..]) == Some((s, x))
  {
    EscapedReads(s, false, x);
    assert Quoted(s, x)[1..] == Escaped(s, false, [QUOTE] + x);
  }

  lemma WordReads(x: Text)
    ensures ReadValue(Word("null") + x) == Some((Null, x))
    ensures ReadValue(Word("true") + x) == Some((Bool(true), x))
    ensures ReadValue(Word("false") + x) == Some((Bool(false), x))
  {
    assert Word("null") == [110, 117, 108, 108] && Word("true") == [116, 114, 117, 101] && Word("false") == [102, 97, 108, 115, 101];
    assert (Word("null") + x)[4..] == x && (Word("true") + x)[4..] == x && (Word("false") + x)[5..] == x;
    assert (Word("true") + x)[0] == 116 && (Word("false") + x)[0] == 102;
  }

  lemma NumberReads(digits: Text, x: Text)
    requires NumberText(digits) && Delimited(x)
    ensures ReadValue(digits + x) == Some((Num(digits), x))
  {
    NumberEnds(digits, x);
    var s := digits + x;
    assert s[0] == digits[0] && (digits[0] == 45 || Digit(digits[0]));
    assert s[..|s| - |x|] == digits;
    hide AfterNumber;
  }

  /** The text of a value begins with no bracket that closes. */
  lemma PrintStarts(v: Json, x: Text)
    requires Plain(v)
    ensures Print(v, x) != [] && Print(v, x)[0] != 93
  {}

  lemma MoreDelimited(items: seq<Json>, entries: seq<Entry>, tail: Text)
    requires Delimited(tail)
    ensures Delimited(MoreItems(items, tail)) && Delimited(MoreEntries(entries, tail))
  {}

  /** The printed text of a plain value is read back as that value, whatever may follow it. */
  lemma {:induction false} PrintReads(v: Json, x: Text)
    requires Plain(v) && Delimited(x)
    ensures ReadValue(Print(v, x)) == Some((v, x))
    decreases v, 2
  {
    match v
    case Null => WordReads(x);
    case Bool(b) => WordReads(x);
    case Num(digits) => NumberReads(digits, x);
    case Str(text) =>
      QuotedReads(text, x);
      hide Quoted;
    case Arr(items) =>
      var end := [CLOSE_ARRAY] + x;
      if items == [] {
        assert Print(v, x)[1] == 93 && Print(v, x)[2..] == x;
      } else {
        var inner := Print(items[0], MoreItems(items[1..], end));
        PrintStarts(items[0], MoreItems(items[1..], end));
        ItemsRead(items, x);
        hide Print;
        assert Print(v, x) == [OPEN_ARRAY] + inner by { PrintsArray(items, x); }
        assert ([OPEN_ARRAY] + inner)[1..] == inner && ([OPEN_ARRAY] + inner)[0] == 91 && ([OPEN_ARRAY] + inner)[1] == inner[0];
      }
    case Obj(entries) =>
      var end := [CLOSE_OBJECT] + x;
      if entries == [] {
        assert Print(v, x)[1] == 125 && Print(v, x)[2..] == x;
      } else {
        var inner := PrintEntry(entries[0], MoreEntries(entries[1..], end));
        EntriesRead(entries, x);
        QuotedReads(entries[0].key, [COLON] + Print(entries[0].value, MoreEntries(entries[1..], end)));
        assert inner[0] == 34;
        hide PrintEntry, Quoted;
        assert Print(v, x) == [OPEN_OBJECT] + inner;
        assert ([OPEN_OBJECT] + inner)[1..] == inner && ([OPEN_OBJECT] + inner)[0] == 123 && ([OPEN_OBJECT] + inner)[1] == inner[0];
      }
  }

  lemma PrintsArray(items: seq<Json>, x: Text)
    requires items != []
    ensures Print(Arr(items), x) == [OPEN_ARRAY] + Print(items[0], MoreItems(items[1..], [CLOSE_ARRAY] + x))
  {}

  lemma {:induction false} ItemsRead(items: seq<Json>, x: Text)
    requires items != [] && AllPlain(items)
    ensures ReadItems(Print(items[0], MoreItems(items[1..], [CLOSE_ARRAY] + x))) == Some((items, x))
    decreases items, 1
  {
    var end := [CLOSE_ARRAY] + x;
    var rest := MoreItems(items[1..], end);
    MoreDelimited(items[1..], [], end);
    PrintReads(items[0], rest);
    if |items| == 1 {
      assert end[1..] == x && items == [items[0]];
    } else {
      var next := Print(items[1..][0], MoreItems(items[1..][1..], end));
      ItemsRead(items[1..], x);
      assert rest == [COMMA] + next && ([COMMA] + next)[1..] == next && items == [items[0]] + items[1..];
    }
    hide Print, ReadValue, Plain;
  }

  lemma EntryReads(e: Entry, x: Text)
    requires Plain(e.value) && Delimited(x)
    ensures ReadEntry(PrintEntry(e, x)) == Some((e, x))
    decreases e, 1
  {
    var value := Print(e.value, x);
    PrintReads(e.value, x);
    QuotedReads(e.key, [COLON] + value);
    assert ([COLON] + value)[1..] == value;
    hide Print, Quoted, ReadValue, ReadString;
  }

  lemma {:induction false} EntriesRead(entries: seq<Entry>, x: Text)
    requires entries != [] && AllPlainEntries(entries)
    ensures ReadEntries(PrintEntry(entries[0], MoreEntries(entries[1..], [CLOSE_OBJECT] + x))) == Some((entries, x))
    decreases entries, 2
  {
    var end := [CLOSE_OBJECT] + x;
    var rest := MoreEntries(entries[1..], end);
    MoreDelimited([], entries[1..], end);
    EntryReads(entries[0], rest);
    if |entries| == 1 {
      assert end[1..] == x && entries == [entries[0]];
    } else {
      var next := PrintEntry(entries[1..][0], MoreEntries(entries[1..][1..], end));
      EntriesRead(entries[1..], x);
      assert rest == [COMMA] + next && ([COMMA] + next)[1..] == next && entries == [entries[0]] + entries[1..];
    }
    hide PrintEntry, ReadEntry, Plain;
  }

  /** So no plain value's text is another's, even in front of further text. */
  lemma PrintPrefixFree(v: Json, w: Json, x: Text, y: Text)
    requires Plain(v) && Plain(w) && Delimited(x) && Delimited(y) && Print(v, x) == Print(w, y)
    ensures v == w && x == y
  {
    PrintReads(v, x);
    PrintReads(w, y);
    hide Print, ReadValue;
  }

  // ---- Normal forms

  function KeysOf(entries: seq<Entry>): (keys: seq<Text>)
    ensures |keys| == |entries|
  {
    seq(|entries|, i requires 0 <= i < |entries| => entries[i].key)
  }

  function IndexOf(entries: seq<Entry>, key: Text): (i: nat)
    requires key in KeysOf(entries)
    ensures i < |entries| && entries[i].key == key
  {
    if entries[0].key == key then 0
    else
      assert KeysOf(entries)[1..] == KeysOf(entries[1..]);
      assert key in KeysOf(entries)[1..];
      1 + IndexOf(entries[1..], key)
  }

  function SortedKeys(entries: seq<Entry>): (keys: seq<Text>)
    ensures forall k :: k in keys <==> k in KeysOf(entries)
  {
    SortPermutes(KeysOf(entries), KeyBefore);
    assert forall k :: k in Sort(KeysOf(entries), KeyBefore) <==> k in multiset(KeysOf(entries));
    Sort(KeysOf(entries), KeyBefore)
  }

  /** Every object with its entries in the order they are printed. */
  function Norm(v: Json): Json {
    match v
    case Arr(items) => Arr(seq(|items|, i requires 0 <= i < |items| => Norm(items[i])))
    case Obj(entries) =>
      var keys := SortedKeys(entries);
      Obj(seq(|keys|, i requires 0 <= i < |keys| => assert keys[i] in keys; Entry(keys[i], Norm(entries[IndexOf(entries, keys[i])].value))))
    case _ => v
  }

  /** Equal up to the order of keys. */
  ghost predicate Same(v: Json, w: Json) {
    match v
    case Arr(items) => w.Arr? && |items| == |w.items| && forall i :: 0 <= i < |items| ==> Same(items[i], w.items[i])
    case Obj(entries) =>
      && w.Obj? && (forall k :: k in KeysOf(entries) <==> k in KeysOf(w.entries))
      && forall i :: 0 <= i < |entries| ==>
           entries[i].key in KeysOf(w.entries) && Same(entries[i].value, w.entries[IndexOf(w.entries, entries[i].key)].value)
    case _ => v == w
  }

  lemma KeysInOrder(entries: seq<Entry>)
    requires DistinctKeys(entries)
    ensures NoDuplicates(KeysOf(entries)) && Ordered(SortedKeys(entries), KeyBefore) && NoDuplicates(SortedKeys(entries))
    ensures |SortedKeys(entries)| == |entries|
  {
    KeysAreStrict();
    SortOrders(KeysOf(entries), KeyBefore);
    SortPermutes(KeysOf(entries), KeyBefore);
    assert |multiset(SortedKeys(entries))| == |multiset(KeysOf(entries))|;
    forall i, j | 0 <= i < j < |SortedKeys(entries)| ensures SortedKeys(entries)[i] != SortedKeys(entries)[j] {
      assert KeyBefore(SortedKeys(entries)[i], SortedKeys(entries)[j]);
      KeyTotal(SortedKeys(entries)[i], SortedKeys(entries)[i]);
    }
  }

  lemma OwnIndex(entries: seq<Entry>, i: nat)
    requires DistinctKeys(entries) && i < |entries|
    ensures entries[i].key in KeysOf(entries) && IndexOf(entries, entries[i].key) == i
  {
    assert KeysOf(entries)[i] == entries[i].key;
  }

  lemma SameKeysSameOrder(es: seq<Entry>, ds: seq<Entry>)
    requires DistinctKeys(es) && DistinctKeys(ds)
    ensures (forall k :: k in KeysOf(es) <==> k in KeysOf(ds)) <==> SortedKeys(es) == SortedKeys(ds)
  {
    KeysInOrder(es);
    KeysInOrder(ds);
    KeysAreStrict();
    if forall k :: k in KeysOf(es) <==> k in KeysOf(ds) { SortOfSame(KeysOf(es), KeysOf(ds), KeyBefore); }
    assert forall k :: k in KeysOf(es) <==> k in SortedKeys(es);
  }

  /** Two plain values have one normal form exactly when they are equal up to the order of keys. */
  lemma {:induction false} NormIsCanonical(v: Json, w: Json)
    requires Plain(v) && Plain(w)
    ensures Same(v, w) <==> Norm(v) == Norm(w)
    decreases v
  {
    match v
    case Arr(items) =>
      if w.Arr? {
        forall i | 0 <= i < |items| && i < |w.items| ensures Same(items[i], w.items[i]) <==> Norm(items[i]) == Norm(w.items[i]) {
          NormIsCanonical(items[i], w.items[i]);
        }
        NormItems(items, w.items);
      }
    case Obj(entries) => if w.Obj? { NormEntries(entries, w.entries); }
    case _ =>
  }

  lemma NormItems(vs: seq<Json>, ws: seq<Json>)
    ensures Norm(Arr(vs)) == Norm(Arr(ws)) <==> |vs| == |ws| && forall i :: 0 <= i < |vs| ==> Norm(vs[i]) == Norm(ws[i])
  {
    var a, b := Norm(Arr(vs)).items, Norm(Arr(ws)).items;
    assert forall i :: 0 <= i < |vs| ==> a[i] == Norm(vs[i]);
    assert forall i :: 0 <= i < |ws| ==> b[i] == Norm(ws[i]);
  }

  lemma NormEntry(entries: seq<Entry>, i: nat)
    requires DistinctKeys(entries) && i < |entries|
    ensures
      var normal := Norm(Obj(entries)).entries;
      && |normal| == |entries| && normal[i].key == SortedKeys(entries)[i]
      && normal[i].key in KeysOf(entries) && normal[i].value == Norm(entries[IndexOf(entries, normal[i].key)].value)
  {
    KeysInOrder(entries);
    assert SortedKeys(entries)[i] in SortedKeys(entries);
  }

  lemma NormEntries(es: seq<Entry>, ds: seq<Entry>)
    requires Plain(Obj(es)) && Plain(Obj(ds))
    ensures Same(Obj(es), Obj(ds)) <==> Norm(Obj(es)) == Norm(Obj(ds))
    decreases es, 0
  {
    var a, b := Norm(Obj(es)).entries, Norm(Obj(ds)).entries;
    SameKeysSameOrder(es, ds);
    KeysInOrder(es);
    KeysInOrder(ds);
    if SortedKeys(es) == SortedKeys(ds) {
      forall i | 0 <= i < |es|
        ensures es[i].key in KeysOf(ds)
        ensures Same(es[i].value, ds[IndexOf(ds, es[i].key)].value) <==> Norm(es[i].value) == Norm(ds[IndexOf(ds, es[i].key)].value)
      {
        OwnIndex(es, i);
        NormIsCanonical(es[i].value, ds[IndexOf(ds, es[i].key)].value);
      }
      EntriesAgree(es, ds);
    } else {
      if a == b { SameNormSameKeys(es, ds); }
    }
  }

  lemma SameNormSameKeys(es: seq<Entry>, ds: seq<Entry>)
    requires DistinctKeys(es) && DistinctKeys(ds) && Norm(Obj(es)) == Norm(Obj(ds))
    ensures SortedKeys(es) == SortedKeys(ds)
  {
    KeysInOrder(es);
    KeysInOrder(ds);
    if es != [] { NormEntry(es, 0); }
    if ds != [] { NormEntry(ds, 0); }
    forall i | 0 <= i < |es| && i < |ds| ensures SortedKeys(es)[i] == SortedKeys(ds)[i] {
      NormEntry(es, i);
      NormEntry(ds, i);
    }
  }

  /** With the same keys, the normal forms agree exactly when the values do, key by key. */
  lemma EntriesAgree(es: seq<Entry>, ds: seq<Entry>)
    requires DistinctKeys(es) && DistinctKeys(ds) && SortedKeys(es) == SortedKeys(ds)
    requires forall i :: 0 <= i < |es| ==> es[i].key in KeysOf(ds)
    ensures Norm(Obj(es)) == Norm(Obj(ds)) <==> forall i :: 0 <= i < |es| ==> Norm(es[i].value) == Norm(ds[IndexOf(ds, es[i].key)].value)
  {
    if Norm(Obj(es)) == Norm(Obj(ds)) {
      forall i | 0 <= i < |es| ensures Norm(es[i].value) == Norm(ds[IndexOf(ds, es[i].key)].value) { ValueAgrees(es, ds, i); }
    }
    if forall i :: 0 <= i < |es| ==> Norm(es[i].value) == Norm(ds[IndexOf(ds, es[i].key)].value) { NormsAgree(es, ds); }
  }

  lemma ValueAgrees(es: seq<Entry>, ds: seq<Entry>, i: nat)
    requires DistinctKeys(es) && DistinctKeys(ds) && SortedKeys(es) == SortedKeys(ds) && i < |es| && es[i].key in KeysOf(ds)
    requires Norm(Obj(es)) == Norm(Obj(ds))
    ensures Norm(es[i].value) == Norm(ds[IndexOf(ds, es[i].key)].value)
  {
    KeysInOrder(es);
    KeysInOrder(ds);
    OwnIndex(es, i);
    assert es[i].key in SortedKeys(es);
    var j :| 0 <= j < |SortedKeys(es)| && SortedKeys(es)[j] == es[i].key;
    NormEntry(es, j);
    NormEntry(ds, j);
    hide Norm, SortedKeys, KeysOf, IndexOf;
  }

  lemma NormSize(entries: seq<Entry>)
    requires DistinctKeys(entries)
    ensures Norm(Obj(entries)).Obj? && |Norm(Obj(entries)).entries| == |entries|
  {
    KeysInOrder(entries);
  }

  lemma NormsAgree(es: seq<Entry>, ds: seq<Entry>)
    requires DistinctKeys(es) && DistinctKeys(ds) && SortedKeys(es) == SortedKeys(ds)
    requires forall i :: 0 <= i < |es| ==> es[i].key in KeysOf(ds)
    requires forall i :: 0 <= i < |es| ==> Norm(es[i].value) == Norm(ds[IndexOf(ds, es[i].key)].value)
    ensures Norm(Obj(es)) == Norm(Obj(ds))
  {
    hide Norm, SortedKeys, KeysOf, IndexOf, KeyBefore, Ordered, NoDuplicates;
    var a, b := Norm(Obj(es)), Norm(Obj(ds));
    KeysInOrder(es);
    KeysInOrder(ds);
    NormSize(es);
    NormSize(ds);
    forall j | 0 <= j < |es| ensures a.entries[j] == b.entries[j] {
      NormEntry(es, j);
      NormEntry(ds, j);
      var i := IndexOf(es, a.entries[j].key);
      assert Norm(es[i].value) == Norm(ds[IndexOf(ds, es[i].key)].value);
    }
    assert a.entries == b.entries;
  }

  /** Index keys are printed first and by value, the others behind them by code units. */
  lemma KeysAreInOrder(entries: seq<Entry>, i: nat, j: nat)
    requires DistinctKeys(entries) && i < j < |Norm(Obj(entries)).entries|
    ensures
      var a, b := Norm(Obj(entries)).entries[i].key, Norm(Obj(entries)).entries[j].key;
      && (IndexKey(b) ==> IndexKey(a))
      && (!IndexKey(a) && !IndexKey(b) ==> LexLess(Codes(a), Codes(b)))
      && (forall n: nat, m: nat :: a == Decimal(n) && b == Decimal(m) && n < 4294967295 && m < 4294967295 ==> n < m)
  {
    KeysInOrder(entries);
    NormEntry(entries, i);
    NormEntry(entries, j);
    var a, b := Norm(Obj(entries)).entries[i].key, Norm(Obj(entries)).entries[j].key;
    assert KeyBefore(a, b) && a != b;
    forall n: nat, m: nat | a == Decimal(n) && b == Decimal(m) && n < 4294967295 && m < 4294967295 ensures n < m {
      DecimalIsIndex(n);
      DecimalIsIndex(m);
    }
    hide Norm, SortedKeys, KeysOf, IndexOf;
  }

  // ---- What is accepted

  /** The walk of the normalization: no item deeper than the limit, and nothing alien. */
  predicate Fits(v: Json, depth: nat) {
    && depth <= MAX_DEPTH
    && match v
       case Arr(items) => forall i :: 0 <= i < |items| ==> Fits(items[i], depth + 1)
       case Obj(entries) => forall i :: 0 <= i < |entries| ==> Fits(entries[i].value, depth + 1)
       case Alien => false
       case _ => true
  }

  function Utf8Size(text: Text): nat {
    if text == [] then 0
    else
      var u := text[|text| - 1];
      Utf8Size(text[..|text| - 1]) + if u < 0x80 then 1 else if u < 0x800 || High(u) || Low(u) then 2 else 3
  }

  /** `canonicalActionJson`; `None` stands for any of its refusals. */
  function Canonical(v: Json): Option<Text> {
    var text := Print(Norm(v), []);
    if Fits(v, 0) && Utf8Size(text) <= MAX_BYTES then Some(text) else None
  }

  /** What a value can be at all: numbers print as numbers, no object has a key twice; parts may still be alien. */
  predicate Possible(v: Json) {
    match v
    case Num(digits) => NumberText(digits)
    case Arr(items) => forall i :: 0 <= i < |items| ==> Possible(items[i])
    case Obj(entries) => DistinctKeys(entries) && forall i :: 0 <= i < |entries| ==> Possible(entries[i].value)
    case _ => true
  }

  /** How many levels of items and values lie below a value. */
  function Height(v: Json): nat {
    match v
    case Arr(items) => Highest(Heights(items))
    case Obj(entries) => Highest(EntryHeights(entries))
    case _ => 0
  }

  function Heights(items: seq<Json>): seq<nat> {
    seq(|items|, i requires 0 <= i < |items| => Height(items[i]))
  }

  function EntryHeights(entries: seq<Entry>): seq<nat> {
    seq(|entries|, i requires 0 <= i < |entries| => Height(entries[i].value))
  }

  function Highest(heights: seq<nat>): nat {
    if heights == [] then 0
    else
      var rest, last := Highest(heights[..|heights| - 1]), heights[|heights| - 1] + 1;
      if last > rest then last else rest
  }

  lemma {:induction false} HighestIs(heights: seq<nat>, bound: int)
    requires bound >= 0
    ensures Highest(heights) <= bound <==> forall i :: 0 <= i < |heights| ==> heights[i] + 1 <= bound
  {
    if heights != [] {
      var n := |heights| - 1;
      HighestIs(heights[..n], bound);
      assert heights == heights[..n] + [heights[n]];
    }
  }

  /** Accepted is exactly what is plain throughout and not too high. */
  lemma {:induction false} FitsExactly(v: Json, depth: nat)
    requires Possible(v) && depth <= MAX_DEPTH
    ensures Fits(v, depth) <==> Plain(v) && Height(v) <= MAX_DEPTH - depth
    decreases v
  {
    match v
    case Arr(items) =>
      HighestIs(Heights(items), MAX_DEPTH - depth);
      forall i | 0 <= i < |items| ensures Fits(items[i], depth + 1) <==> Plain(items[i]) && Heights(items)[i] + 1 <= MAX_DEPTH - depth {
        if depth < MAX_DEPTH { FitsExactly(items[i], depth + 1); }
      }
      assert Height(v) == Highest(Heights(items)) && |Heights(items)| == |items|;
    case Obj(entries) =>
      HighestIs(EntryHeights(entries), MAX_DEPTH - depth);
      forall i | 0 <= i < |entries|
        ensures Fits(entries[i].value, depth + 1) <==> Plain(entries[i].value) && EntryHeights(entries)[i] + 1 <= MAX_DEPTH - depth
      {
        if depth < MAX_DEPTH { FitsExactly(entries[i].value, depth + 1); }
      }
      assert Height(v) == Highest(EntryHeights(entries)) && |EntryHeights(entries)| == |entries|;
      assert Fits(v, depth) <==> forall i :: 0 <= i < |entries| ==> Fits(entries[i].value, depth + 1);
      assert Plain(v) <==> forall i :: 0 <= i < |entries| ==> Plain(entries[i].value);
    case _ =>
  }

  /** It refuses exactly the values that are not plain JSON, too deep or too large. */
  lemma RefusesExactly(v: Json)
    requires Possible(v)
    ensures Canonical(v).Some? <==> Plain(v) && Height(v) <= 10 && Utf8Size(Print(Norm(v), [])) <= 16384
  {
    FitsExactly(v, 0);
    hide Fits, Height, Norm, Print, Utf8Size;
  }

  lemma {:induction false} NormIsPlain(v: Json)
    requires Plain(v)
    ensures Plain(Norm(v)) && Same(v, Norm(v))
    decreases v
  {
    match v
    case Arr(items) =>
      forall i | 0 <= i < |items| ensures Plain(Norm(items[i])) && Same(items[i], Norm(items[i])) { NormIsPlain(items[i]); }
    case Obj(entries) =>
      var normal := Norm(v).entries;
      KeysInOrder(entries);
      if entries != [] { NormEntry(entries, 0); }
      forall i | 0 <= i < |entries|
        ensures normal[i].key == SortedKeys(entries)[i] && Plain(normal[i].value) && normal[i].key in KeysOf(entries)
        ensures Same(entries[IndexOf(entries, normal[i].key)].value, normal[i].value)
      {
        NormEntry(entries, i);
        NormIsPlain(entries[IndexOf(entries, normal[i].key)].value);
      }
      assert KeysOf(normal) == SortedKeys(entries);
      assert Mirrors(entries, normal);
      NormSame(entries, normal);
    case _ =>
  }

  /** Key by key, the second holds the normal forms of the first. */
  ghost predicate Mirrors(entries: seq<Entry>, normal: seq<Entry>) {
    forall i :: 0 <= i < |normal| ==>
      normal[i].key in KeysOf(entries) && Plain(normal[i].value) && Same(entries[IndexOf(entries, normal[i].key)].value, normal[i].value)
  }

  lemma NormSame(entries: seq<Entry>, normal: seq<Entry>)
    requires DistinctKeys(entries) && NoDuplicates(KeysOf(normal)) && Mirrors(entries, normal)
    requires forall k :: k in KeysOf(normal) <==> k in KeysOf(entries)
    ensures Plain(Obj(normal)) && Same(Obj(entries), Obj(normal))
  {
    NamesDistinct(normal);
    forall i | 0 <= i < |entries|
      ensures entries[i].key in KeysOf(normal) && Same(entries[i].value, normal[IndexOf(normal, entries[i].key)].value)
    {
      NormSameAt(entries, normal, i);
    }
    assert AllPlainEntries(normal);
    hide Mirrors, KeysOf, IndexOf, NoDuplicates, DistinctKeys, AllPlainEntries;
  }

  lemma NamesDistinct(normal: seq<Entry>)
    requires NoDuplicates(KeysOf(normal))
    ensures DistinctKeys(normal)
  {
    assert forall i :: 0 <= i < |normal| ==> KeysOf(normal)[i] == normal[i].key;
  }

  lemma NormSameAt(entries: seq<Entry>, normal: seq<Entry>, i: nat)
    requires DistinctKeys(entries) && Mirrors(entries, normal) && i < |entries|
    requires forall k :: k in KeysOf(normal) <==> k in KeysOf(entries)
    ensures entries[i].key in KeysOf(normal) && Same(entries[i].value, normal[IndexOf(normal, entries[i].key)].value)
  {
    OwnIndex(entries, i);
    hide Same, Plain, IndexOf, KeysOf;
    var j := IndexOf(normal, entries[i].key);
    assert normal[j].key == entries[i].key;
    assert Same(entries[IndexOf(entries, normal[j].key)].value, normal[j].value);
  }

  /** Two accepted values have the same text exactly when they are equal up to the order of their keys. */
  lemma SameTextSameValue(v: Json, w: Json)
    requires Possible(v) && Possible(w) && Canonical(v).Some? && Canonical(w).Some?
    ensures Canonical(v) == Canonical(w) <==> Same(v, w)
  {
    RefusesExactly(v);
    RefusesExactly(w);
    NormIsPlain(v);
    NormIsPlain(w);
    NormIsCanonical(v, w);
    hide Norm, Print, Same, Plain, Fits, Height, Utf8Size;
    if Canonical(v) == Canonical(w) { PrintPrefixFree(Norm(v), Norm(w), [], []); }
  }

  /** The printed text of a plain value is JSON, and reading it gives the value. */
  lemma ReadsPrinted(v: Json)
    requires Plain(v)
    ensures Read(Print(v, [])) == Some(v)
  {
    PrintReads(v, []);
    hide Print, ReadValue;
  }

  /** Reading a canonical text gives the value again, up to the order of keys, and encoding that again changes nothing. */
  lemma ReadBack(v: Json)
    requires Possible(v) && Canonical(v).Some?
    ensures
      var back := Read(Canonical(v).value);
      back.Some? && Same(v, back.value) && Canonical(back.value) == Canonical(v)
  {
    RefusesExactly(v);
    NormIsPlain(v);
    ReadsPrinted(Norm(v));
    NormIsCanonical(v, Norm(v));
    NormFits(v, 0);
    hide Print, Same, Plain, Fits, Norm, Utf8Size, Read;
  }

  lemma {:induction false} NormFits(v: Json, depth: nat)
    requires Plain(v)
    ensures Fits(Norm(v), depth) <==> Fits(v, depth)
    decreases v
  {
    match v
    case Arr(items) =>
      forall i | 0 <= i < |items| ensures Fits(Norm(items[i]), depth + 1) <==> Fits(items[i], depth + 1) { NormFits(items[i], depth + 1); }
      assert forall i :: 0 <= i < |items| ==> Norm(v).items[i] == Norm(items[i]);
    case Obj(entries) => NormFitsEntries(entries, depth);
    case _ =>
  }

  lemma NormFitsEntries(entries: seq<Entry>, depth: nat)
    requires Plain(Obj(entries))
    ensures Fits(Norm(Obj(entries)), depth) <==> Fits(Obj(entries), depth)
    decreases entries, 0
  {
    var normal := Norm(Obj(entries)).entries;
    KeysInOrder(entries);
    if entries != [] { NormEntry(entries, 0); }
    assert Norm(Obj(entries)) == Obj(normal) && |normal| == |entries|;
    forall i | 0 <= i < |entries| ensures Fits(Norm(entries[i].value), depth + 1) <==> Fits(entries[i].value, depth + 1) {
      NormFits(entries[i].value, depth + 1);
    }
    if Fits(Obj(entries), depth) {
      forall i | 0 <= i < |normal| ensures Fits(normal[i].value, depth + 1) { NormEntry(entries, i); }
    }
    if Fits(Obj(normal), depth) {
      forall i | 0 <= i < |entries| ensures Fits(entries[i].value, depth + 1) {
        NormHas(entries, i);
        var j :| 0 <= j < |normal| && normal[j].value == Norm(entries[i].value);
      }
    }
    hide Norm, SortedKeys, KeysOf, IndexOf;
  }

  lemma NormHas(entries: seq<Entry>, i: nat)
    requires DistinctKeys(entries) && i < |entries|
    ensures var normal := Norm(Obj(entries)).entries; exists j :: 0 <= j < |normal| && normal[j].value == Norm(entries[i].value)
  {
    KeysInOrder(entries);
    OwnIndex(entries, i);
    assert entries[i].key in SortedKeys(entries);
    var j :| 0 <= j < |SortedKeys(entries)| && SortedKeys(entries)[j] == entries[i].key;
    NormEntry(entries, j);
  }
}
