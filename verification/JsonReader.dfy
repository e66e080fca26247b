/** Plain JSON values, and reading one from its text by the grammar of RFC 8259, with every code unit written out. */
module JsonReader {
  import opened Outcomes

  /** A finite number is given by the text it prints as, so 0 and -0 are the same; `Alien` is anything that is not plain JSON. */
  datatype Json = Null | Bool(value: bool) | Num(digits: Text) | Str(text: Text) | Arr(items: seq<Json>) | Obj(entries: seq<Entry>) | Alien
  datatype Entry = Entry(key: Text, value: Json)

  predicate DistinctKeys(entries: seq<Entry>) {
    forall i, j :: 0 <= i < j < |entries| ==> entries[i].key != entries[j].key
  }

  // ---- Numbers (section 6)

  predicate Digit(u: Unit) {
    48 <= u <= 57
  }

  /** What follows the digits at the front. */
  function AfterDigits(s: Text): (rest: Text)
    ensures |rest| <= |s|
  {
    if s != [] && Digit(s[0]) then AfterDigits(s[1..]) else s
  }

  /** An integer begins with no zero, unless it is zero. */
  function AfterInteger(s: Text): (rest: Option<Text>)
    ensures rest.Some? ==> |rest.value| < |s|
  {
    if s == [] || !Digit(s[0]) then None else if s[0] == 48 then Some(s[1..]) else Some(AfterDigits(s[1..]))
  }

  /** A point is followed by at least one digit. */
  function AfterFraction(s: Text): (rest: Option<Text>)
    ensures rest.Some? ==> |rest.value| <= |s|
  {
    if s == [] || s[0] != 46 then Some(s)
    else if |s| == 1 || !Digit(s[1]) then None
    else Some(AfterDigits(s[2..]))
  }

  /** So is the letter e, after an optional sign. */
  function AfterExponent(s: Text): (rest: Option<Text>)
    ensures rest.Some? ==> |rest.value| <= |s|
  {
    if s == [] || s[0] != 101 then Some(s)
    else
      var t := if |s| > 1 && (s[1] == 43 || s[1] == 45) then s[2..] else s[1..];
      if t == [] || !Digit(t[0]) then None else Some(AfterDigits(t))
  }

  function AfterNumber(s: Text): (rest: Option<Text>)
    ensures rest.Some? ==> |rest.value| < |s|
  {
    var whole := AfterInteger(if s != [] && s[0] == 45 then s[1..] else s);
    if whole.None? then None
    else
      var fraction := AfterFraction(whole.value);
      if fraction.None? then None else AfterExponent(fraction.value)
  }

  predicate NumberText(digits: Text) {
    AfterNumber(digits) == Some([])
  }

  // ---- Strings (section 7)

  predicate HexDigit(u: Unit) {
    48 <= u <= 57 || 97 <= u <= 102 || 65 <= u <= 70
  }

  function HexValue(u: Unit): (n: int)
    requires HexDigit(u)
    ensures 0 <= n < 16
  {
    if u <= 57 then u - 48 else if u <= 70 then u - 55 else u - 87
  }

  /** The unit a short escape stands for. */
  function Unescaped(letter: Unit): Option<Unit> {
    match letter
    case 34 => Some(34)
    case 92 => Some(92)
    case 47 => Some(47)
    case 98 => Some(8)
    case 102 => Some(12)
    case 110 => Some(10)
    case 114 => Some(13)
    case 116 => Some(9)
    case _ => None
  }

  /** The first unit of a string behind its opening quote, and what follows it. */
  function ReadUnit(s: Text): (r: Option<(Unit, Text)>)
    requires s != []
    ensures r.Some? ==> |r.value.1| < |s|
  {
    if s[0] == 92 then
      if |s| >= 6 && s[1] == 117 && HexDigit(s[2]) && HexDigit(s[3]) && HexDigit(s[4]) && HexDigit(s[5]) then
        Some((HexValue(s[2]) * 4096 + HexValue(s[3]) * 256 + HexValue(s[4]) * 16 + HexValue(s[5]), s[6..]))
      else if |s| >= 2 && Unescaped(s[1]).Some? then Some((Unescaped(s[1]).value, s[2..]))
      else None
    else if s[0] < 32 || s[0] == 34 then None
    else Some((s[0], s[1..]))
  }

  function ReadString(s: Text): (r: Option<(Text, Text)>)
    ensures r.Some? ==> |r.value.1| < |s|
    decreases |s|
  {
    if s == [] then None
    else if s[0] == 34 then Some(([], s[1..]))
    else
      var first := ReadUnit(s);
      if first.None? then None
      else
        var more := ReadString(first.value.1);
        if more.None? then None else Some(([first.value.0] + more.value.0, more.value.1))
  }

  // ---- Values (sections 3 to 5)

  function ReadValue(s: Text): (r: Option<(Json, Text)>)
    ensures r.Some? ==> |r.value.1| < |s|
    decreases |s|, 0
  {
    if s == [] then None
    else if s[0] == 34 then
      var text := ReadString(s[1..]);
      if text.None? then None else Some((Str(text.value.0), text.value.1))
    else if s[0] == 91 then
      if |s| > 1 && s[1] == 93 then Some((Arr([]), s[2..]))
      else
        var items := ReadItems(s[1..]);
        if items.None? then None else Some((Arr(items.value.0), items.value.1))
    else if s[0] == 123 then
      if |s| > 1 && s[1] == 125 then Some((Obj([]), s[2..]))
      else
        var entries := ReadEntries(s[1..]);
        if entries.None? || !DistinctKeys(entries.value.0) then None else Some((Obj(entries.value.0), entries.value.1))
    else if [110, 117, 108, 108] <= s then Some((Null, s[4..]))
    else if [116, 114, 117, 101] <= s then Some((Bool(true), s[4..]))
    else if [102, 97, 108, 115, 101] <= s then Some((Bool(false), s[5..]))
    else
      var rest := AfterNumber(s);
      if rest.None? then None else Some((Num(s[..|s| - |rest.value|]), rest.value))
  }

  /** Items up to the bracket that closes them. */
  function ReadItems(s: Text): (r: Option<(seq<Json>, Text)>)
    ensures r.Some? ==> |r.value.1| < |s|
    decreases |s|, 1
  {
    var first := ReadValue(s);
    if first.None? || first.value.1 == [] then None
    else
      var (v, rest) := first.value;
      if rest[0] == 93 then Some(([v], rest[1..]))
      else if rest[0] != 44 then None
      else
        var more := ReadItems(rest[1..]);
        if more.None? then None else Some(([v] + more.value.0, more.value.1))
  }

  function ReadEntry(s: Text): (r: Option<(Entry, Text)>)
    ensures r.Some? ==> |r.value.1| < |s|
    decreases |s|, 1
  {
    if s == [] || s[0] != 34 then None
    else
      var key := ReadString(s[1..]);
      if key.None? || key.value.1 == [] || key.value.1[0] != 58 then None
      else
        var value := ReadValue(key.value.1[1..]);
        if value.None? then None else Some((Entry(key.value.0, value.value.0), value.value.1))
  }

  function ReadEntries(s: Text): (r: Option<(seq<Entry>, Text)>)
    ensures r.Some? ==> |r.value.1| < |s|
    decreases |s|, 2
  {
    var first := ReadEntry(s);
    if first.None? || first.value.1 == [] then None
    else
      var (e, rest) := first.value;
      if rest[0] == 125 then Some(([e], rest[1..]))
      else if rest[0] != 44 then None
      else
        var more := ReadEntries(rest[1..]);
        if more.None? then None else Some(([e] + more.value.0, more.value.1))
  }

  /** The value of a whole text, without blanks. */
  function Read(text: Text): Option<Json> {
    var r := ReadValue(text);
    if r.Some? && r.value.1 == [] then Some(r.value.0) else None
  }

  // ---- A number ends where no number unit follows

  /** A unit that may follow a value. */
  predicate Delimited(x: Text) {
    x == [] || x[0] == 44 || x[0] == 93 || x[0] == 125
  }

  lemma {:induction false} DigitsEnd(s: Text, x: Text)
    requires x == [] || !Digit(x[0])
    ensures AfterDigits(s + x) == AfterDigits(s) + x
  {
    if s == [] {
      assert s + x == x;
    } else if Digit(s[0]) {
      assert (s + x)[1..] == s[1..] + x;
      DigitsEnd(s[1..], x);
    }
  }

  lemma IntegerEnds(s: Text, x: Text)
    requires Delimited(x) && AfterInteger(s).Some?
    ensures AfterInteger(s + x) == Some(AfterInteger(s).value + x)
  {
    assert (s + x)[1..] == s[1..] + x;
    DigitsEnd(s[1..], x);
  }

  lemma FractionEnds(s: Text, x: Text)
    requires Delimited(x) && AfterFraction(s).Some?
    ensures AfterFraction(s + x) == Some(AfterFraction(s).value + x)
  {
    if s == [] {
      assert s + x == x;
    } else if s[0] == 46 {
      assert (s + x)[2..] == s[2..] + x;
      DigitsEnd(s[2..], x);
    }
  }

  lemma ExponentEnds(s: Text, x: Text)
    requires Delimited(x) && AfterExponent(s).Some?
    ensures AfterExponent(s + x) == Some(AfterExponent(s).value + x)
  {
    if s == [] {
      assert s + x == x;
    } else if s[0] == 101 {
      var t := if |s| > 1 && (s[1] == 43 || s[1] == 45) then s[2..] else s[1..];
      assert |s| > 1;
      assert (s + x)[1..] == s[1..] + x && (s + x)[2..] == s[2..] + x;
      DigitsEnd(t, x);
    }
  }

  lemma NumberEnds(digits: Text, x: Text)
    requires NumberText(digits) && Delimited(x)
    ensures AfterNumber(digits + x) == Some(x)
  {
    var s := if digits[0] == 45 then digits[1..] else digits;
    assert (digits + x)[1..] == digits[1..] + x;
    IntegerEnds(s, x);
    FractionEnds(AfterInteger(s).value, x);
    ExponentEnds(AfterFraction(AfterInteger(s).value).value, x);
    assert [] + x == x;
  }
}
