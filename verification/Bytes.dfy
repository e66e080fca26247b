/** Bytes, and cutting strings of them into pieces of a fixed size. */
module Bytes {
  type Byte = b: int | 0 <= b < 256

  lemma SplitSame<T>(a: seq<T>, x: seq<T>, b: seq<T>, y: seq<T>)
    requires |a| == |b| && a + x == b + y
    ensures a == b && x == y
  {
    assert a == (a + x)[..|a|] && b == (b + y)[..|a|];
    assert x == (a + x)[|a|..] && y == (b + y)[|a|..];
  }

  /** The pieces the loop `for offset in range(0, length, size)` takes. */
  function Pieces<T>(bytes: seq<T>, size: nat): (pieces: seq<seq<T>>)
    requires size > 0
    decreases |bytes|
  {
    if bytes == [] then []
    else if |bytes| <= size then [bytes]
    else [bytes[..size]] + Pieces(bytes[size..], size)
  }

  function Join<T>(pieces: seq<seq<T>>): seq<T> {
    if pieces == [] then [] else pieces[0] + Join(pieces[1..])
  }

  /** The pieces are the whole, in order and without overlap. */
  lemma {:induction false} PiecesJoin<T>(bytes: seq<T>, size: nat)
    requires size > 0
    ensures Join(Pieces(bytes, size)) == bytes
    decreases |bytes|
  {
    if bytes == [] {
    } else if |bytes| <= size {
      assert Join([bytes]) == bytes + Join([]);
    } else {
      PiecesJoin(bytes[size..], size);
      assert bytes == bytes[..size] + bytes[size..];
    }
  }

  /** Every piece but the last is full, and none is empty. */
  lemma {:induction false} PiecesAreFull<T>(bytes: seq<T>, size: nat, i: nat)
    requires size > 0 && i < |Pieces(bytes, size)|
    ensures 0 < |Pieces(bytes, size)[i]| <= size
    ensures i + 1 < |Pieces(bytes, size)| ==> |Pieces(bytes, size)[i]| == size
    decreases |bytes|
  {
    if |bytes| > size && i > 0 { PiecesAreFull(bytes[size..], size, i - 1); }
  }

  function Rest<T>(bytes: seq<T>, offset: nat, size: nat): seq<seq<T>>
    requires size > 0
  {
    if offset <= |bytes| then Pieces(bytes[offset..], size) else []
  }

  lemma RestNext<T>(bytes: seq<T>, offset: nat, end: nat, size: nat)
    requires size > 0 && offset < |bytes| && end == (if offset + size < |bytes| then offset + size else |bytes|)
    ensures Rest(bytes, offset, size) == [bytes[offset..end]] + Rest(bytes, offset + size, size)
  {
    var rest := bytes[offset..];
    if offset + size < |bytes| {
      assert rest[..size] == bytes[offset..end] && rest[size..] == bytes[offset + size..];
    } else {
      assert rest == bytes[offset..end];
      assert Rest(bytes, offset + size, size) == [];
    }
  }

  method Cut<T>(bytes: seq<T>, size: nat) returns (pieces: seq<seq<T>>)
    requires size > 0
    ensures pieces == Pieces(bytes, size)
  {
    pieces := [];
    var offset := 0;
    while offset < |bytes|
      invariant 0 <= offset
      invariant pieces + Rest(bytes, offset, size) == Pieces(bytes, size)
      decreases |bytes| - offset
    {
      var end := if offset + size < |bytes| then offset + size else |bytes|;
      RestNext(bytes, offset, end, size);
      pieces := pieces + [bytes[offset..end]];
      offset := offset + size;
    }
  }

  // ---- Numbers

  /** A number in decimal, as JSON prints it. */
  function Decimal(n: nat): (text: seq<Byte>)
    ensures text != [] && forall i :: 0 <= i < |text| ==> 48 <= text[i] <= 57
  {
    if n < 10 then [48 + n] else Decimal(n / 10) + [48 + n % 10]
  }

  lemma {:induction false} DecimalInjective(a: nat, b: nat)
    requires Decimal(a) == Decimal(b)
    ensures a == b
  {
    var x, y := Decimal(a), Decimal(b);
    assert x[|x| - 1] == y[|y| - 1];
    if a >= 10 && b >= 10 {
      assert x[..|x| - 1] == Decimal(a / 10) && y[..|y| - 1] == Decimal(b / 10);
      DecimalInjective(a / 10, b / 10);
    }
  }
}
