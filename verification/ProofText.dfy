/** What is signed: a text that says what it is for, and then the canonical text of the payload. */
module ProofText {
  import opened Outcomes
  import opened Bytes
  import opened JsonReader
  import opened CanonicalJson

  datatype Purpose = Registering | Renewing | Receipting

  function PurposeName(purpose: Purpose): string {
    match purpose
    case Registering => "register"
    case Renewing => "renew"
    case Receipting => "receipt"
  }

  /** `actionProofBytes`, as text; `None` when the payload has no canonical text. */
  function ProofText(purpose: Purpose, payload: Json): Option<Text> {
    var text := Canonical(payload);
    if text.None? then None else Some(Word("app-actions-transport/v1/") + Word(PurposeName(purpose)) + [10] + text.value)
  }

  /** No name of a purpose is the beginning of another with a line end behind it. */
  lemma NamesSeparate(p: Purpose, q: Purpose, a: Text, b: Text)
    requires Word(PurposeName(p)) + [10] + a == Word(PurposeName(q)) + [10] + b
    ensures p == q && a == b
  {
    var x, y := Word(PurposeName(p)) + [10] + a, Word(PurposeName(q)) + [10] + b;
    assert |Word("register")| == 8 && |Word("renew")| == 5 && |Word("receipt")| == 7;
    assert Word("register")[2] == 103 && Word("renew")[2] == 110 && Word("receipt")[2] == 99;
    assert x[2] == Word(PurposeName(p))[2] && y[2] == Word(PurposeName(q))[2];
    SplitSame(Word(PurposeName(p)) + [10], a, Word(PurposeName(q)) + [10], b);
  }

  /** A signature for one purpose is never one for another, nor for another payload. */
  lemma ProofsAreSeparate(p: Purpose, q: Purpose, v: Json, w: Json)
    requires Possible(v) && Possible(w) && ProofText(p, v).Some? && ProofText(q, w).Some?
    ensures ProofText(p, v) == ProofText(q, w) <==> p == q && Same(v, w)
  {
    SameTextSameValue(v, w);
    hide Canonical, Same;
    var a, b := Canonical(v).value, Canonical(w).value;
    if ProofText(p, v) == ProofText(q, w) { TextsSeparate(Word("app-actions-transport/v1/"), p, q, a, b); }
    hide Word, PurposeName;
  }

  lemma TextsSeparate(version: Text, p: Purpose, q: Purpose, a: Text, b: Text)
    requires version + Word(PurposeName(p)) + [10] + a == version + Word(PurposeName(q)) + [10] + b
    ensures p == q && a == b
  {
    var x, y := Word(PurposeName(p)) + [10] + a, Word(PurposeName(q)) + [10] + b;
    assert version + Word(PurposeName(p)) + [10] + a == version + x && version + Word(PurposeName(q)) + [10] + b == version + y;
    SplitSame(version, x, version, y);
    hide Word, PurposeName;
    NamesSeparate(p, q, a, b);
  }

  /** The text of a proof, written out as far as it does not depend on the payload. */
  lemma ProofTextIs(v: Json)
    requires Canonical(v).Some?
    ensures
      var version := [97, 112, 112, 45, 97, 99, 116, 105, 111, 110, 115, 45, 116, 114, 97, 110, 115, 112, 111, 114, 116, 47, 118, 49, 47];
      && ProofText(Registering, v).value == version + [114, 101, 103, 105, 115, 116, 101, 114, 10] + Canonical(v).value
      && ProofText(Renewing, v).value == version + [114, 101, 110, 101, 119, 10] + Canonical(v).value
      && ProofText(Receipting, v).value == version + [114, 101, 99, 101, 105, 112, 116, 10] + Canonical(v).value
  {
    hide Canonical;
    assert Word("register") + [10] == [114, 101, 103, 105, 115, 116, 101, 114, 10];
    assert Word("renew") + [10] == [114, 101, 110, 101, 119, 10];
    assert Word("receipt") + [10] == [114, 101, 99, 101, 105, 112, 116, 10];
    assert Word("app-actions-transport/v1/") == [97, 112, 112, 45, 97, 99, 116, 105, 111, 110, 115, 45, 116, 114, 97, 110, 115, 112, 111, 114, 116, 47, 118, 49, 47];
  }
}
