/** The intent of a supplied-file action: one text for its request and all its files. */
module FileIntent {
  import opened Outcomes
  import opened Bytes
  import opened CanonicalJson
  import opened JsonReader
  import Base64Url

  const CHUNK_BYTES := 4 * 1024 * 1024

  datatype SuppliedFile = SuppliedFile(name: Text, mimeType: Text, content: seq<Byte>)

  /** The two uses of SHA-256: of a chunk, and of the UTF-8 encoding of a text. */
  datatype Hashes = Hashes(ofBytes: seq<Byte> -> seq<Byte>, ofText: Text -> seq<Byte>)

  ghost predicate Injective(hashes: Hashes) {
    && (forall a, b :: hashes.ofBytes(a) == hashes.ofBytes(b) ==> a == b)
    && (forall a, b :: hashes.ofText(a) == hashes.ofText(b) ==> a == b)
  }

  // ---- Records with fixed keys

  function Zip(names: seq<Text>, values: seq<Json>): seq<Entry>
    requires |names| == |values|
  {
    seq(|names|, i requires 0 <= i < |names| => Entry(names[i], values[i]))
  }

  predicate DistinctNames(names: seq<Text>) {
    forall i, j :: 0 <= i < j < |names| ==> names[i] != names[j]
  }

  /** Two records with the same keys are equal exactly when their fields are. */
  lemma RecordsSame(names: seq<Text>, vs: seq<Json>, ws: seq<Json>)
    requires DistinctNames(names) && |vs| == |ws| == |names|
    ensures Same(Obj(Zip(names, vs)), Obj(Zip(names, ws))) <==> forall i :: 0 <= i < |names| ==> Same(vs[i], ws[i])
  {
    var es, ds := Zip(names, vs), Zip(names, ws);
    assert KeysOf(es) == names == KeysOf(ds);
    forall i | 0 <= i < |names| ensures IndexOf(ds, names[i]) == i && es[i].key == names[i] && ds[i].value == ws[i] && es[i].value == vs[i] {
      OwnIndex(ds, i);
    }
    hide IndexOf, KeysOf;
  }

  // ---- The fingerprint of a file

  lemma {:induction false} OnlyDigits(s: Text)
    requires forall i :: 0 <= i < |s| ==> Digit(s[i])
    ensures AfterDigits(s) == []
  {
    if s != [] { OnlyDigits(s[1..]); }
  }

  lemma {:induction false} DecimalStarts(n: nat)
    ensures Decimal(n)[0] == 48 <==> n == 0
  {
    if n >= 10 { DecimalStarts(n / 10); }
  }

  /** A number in decimal is a number of JSON. */
  lemma DecimalIsNumber(n: nat)
    ensures NumberText(Decimal(n))
  {
    DecimalStarts(n);
    OnlyDigits(Decimal(n));
  }

  function Number(n: nat): (v: Json)
    ensures v == Num(Decimal(n)) && Possible(v)
  {
    DecimalIsNumber(n);
    Num(Decimal(n))
  }

  function ChunkTexts(hashes: Hashes, pieces: seq<seq<Byte>>): seq<Json> {
    seq(|pieces|, i requires 0 <= i < |pieces| => Str(Base64Url.Encode(hashes.ofBytes(pieces[i]))))
  }

  function ContentNames(): seq<Text> {
    [Word("domain"), Word("chunkBytes"), Word("size"), Word("chunks")]
  }

  /** The record that is hashed for one file. */
  function ContentRecord(size: nat, chunks: seq<Json>): Json {
    Obj(Zip(ContentNames(), [Str(Word("app-actions-supplied-file/v1")), Number(CHUNK_BYTES), Number(size), Arr(chunks)]))
  }

  function FileNames(): seq<Text> {
    [Word("filename"), Word("mimeType"), Word("size"), Word("hash")]
  }

  function FileRecord(file: SuppliedFile, hash: seq<Byte>): Json {
    Obj(Zip(FileNames(), [Str(file.name), Str(file.mimeType), Number(|file.content|), Str(Base64Url.Encode(hash))]))
  }

  /** `None`: the record of its chunks is refused as too large. */
  function Fingerprint(hashes: Hashes, file: SuppliedFile): Option<Json> {
    var content := Canonical(ContentRecord(|file.content|, ChunkTexts(hashes, Pieces(file.content, CHUNK_BYTES))));
    if content.None? then None else Some(FileRecord(file, hashes.ofText(content.value)))
  }

  function Fingerprints(hashes: Hashes, files: seq<SuppliedFile>): Option<seq<Json>> {
    if files == [] then Some([])
    else
      var rest := Fingerprints(hashes, files[..|files| - 1]);
      var last := Fingerprint(hashes, files[|files| - 1]);
      if rest.None? || last.None? then None else Some(rest.value + [last.value])
  }

  function IntentNames(): seq<Text> {
    [Word("request"), Word("files")]
  }

  /** The value that is printed as the intent. */
  function IntentValue(request: Json, fingerprints: seq<Json>): Json {
    Obj(Zip(IntentNames(), [request, Arr(fingerprints)]))
  }

  function Intent(hashes: Hashes, request: Json, files: seq<SuppliedFile>): Option<Text> {
    var fingerprints := Fingerprints(hashes, files);
    if fingerprints.None? then None else Canonical(IntentValue(request, fingerprints.value))
  }

  method HashChunks(hashes: Hashes, file: SuppliedFile) returns (chunks: seq<Json>)
    ensures chunks == ChunkTexts(hashes, Pieces(file.content, CHUNK_BYTES))
  {
    hide Pieces;
    var pieces := Cut(file.content, CHUNK_BYTES);
    chunks := [];
    for c := 0 to |pieces|
      invariant chunks == ChunkTexts(hashes, pieces[..c])
    {
      chunks := chunks + [Str(Base64Url.Encode(hashes.ofBytes(pieces[c])))];
    }
    assert pieces[..|pieces|] == pieces;
  }

  /** `suppliedFileIntent`: one chunk at a time, one file after the other. */
  method SuppliedFileIntent(hashes: Hashes, request: Json, files: seq<SuppliedFile>) returns (intent: Option<Text>)
    ensures intent == Intent(hashes, request, files)
  {
    hide Canonical, ContentRecord, FileRecord, ChunkTexts, Pieces, Zip;
    var fingerprints: seq<Json> := [];
    for i := 0 to |files|
      invariant Fingerprints(hashes, files[..i]) == Some(fingerprints)
    {
      var file := files[i];
      assert files[..i + 1][..i] == files[..i];
      var chunks := HashChunks(hashes, file);
      var content := Canonical(ContentRecord(|file.content|, chunks));
      if content.None? {
        NoFingerprint(hashes, files, i + 1);
        return None;
      }
      fingerprints := fingerprints + [FileRecord(file, hashes.ofText(content.value))];
    }
    assert files[..|files|] == files;
    return Canonical(IntentValue(request, fingerprints));
  }

  lemma {:induction false} NoFingerprint(hashes: Hashes, files: seq<SuppliedFile>, n: nat)
    requires n <= |files| && Fingerprints(hashes, files[..n]).None?
    ensures Fingerprints(hashes, files).None?
    decreases |files|
  {
    if n < |files| {
      assert files[..|files| - 1][..n] == files[..n];
      NoFingerprint(hashes, files[..|files| - 1], n);
    } else {
      assert files[..n] == files;
    }
  }

  // ---- What two equal intents say

  lemma NamesAreDistinct()
    ensures DistinctNames(ContentNames()) && DistinctNames(FileNames()) && DistinctNames(IntentNames())
  {
    assert |Word("domain")| == 6 && |Word("chunkBytes")| == 10 && |Word("size")| == 4;
    assert Word("domain")[0] == 100 && Word("chunks")[0] == 99;
    assert |Word("filename")| == 8 && |Word("mimeType")| == 8 && Word("filename")[0] == 102 && Word("mimeType")[0] == 109;
    assert |Word("hash")| == 4 && Word("hash")[0] == 104 && Word("size")[0] == 115;
    assert |Word("request")| == 7 && |Word("files")| == 5;
  }

  lemma RecordsArePossible(names: seq<Text>, values: seq<Json>)
    requires DistinctNames(names) && |values| == |names| && forall i :: 0 <= i < |values| ==> Possible(values[i])
    ensures Possible(Obj(Zip(names, values)))
  {}

  lemma ContentSame(size: nat, chunks: seq<Json>, size': nat, chunks': seq<Json>)
    requires Same(ContentRecord(size, chunks), ContentRecord(size', chunks'))
    ensures size == size' && Same(Arr(chunks), Arr(chunks'))
  {
    NamesAreDistinct();
    var vs := [Str(Word("app-actions-supplied-file/v1")), Number(CHUNK_BYTES), Number(size), Arr(chunks)];
    var ws := [Str(Word("app-actions-supplied-file/v1")), Number(CHUNK_BYTES), Number(size'), Arr(chunks')];
    RecordsSame(ContentNames(), vs, ws);
    assert Same(vs[2], ws[2]) && Same(vs[3], ws[3]);
    DecimalInjective(size, size');
  }

  lemma RecordPossible(domain: Text, size: nat, chunks: seq<Json>)
    requires Possible(Arr(chunks))
    ensures Possible(Obj(Zip(ContentNames(), [Str(domain), Number(CHUNK_BYTES), Number(size), Arr(chunks)])))
  {
    NamesAreDistinct();
    hide Word, DistinctNames, Zip;
    RecordsArePossible(ContentNames(), [Str(domain), Number(CHUNK_BYTES), Number(size), Arr(chunks)]);
  }

  lemma ContentPossible(hashes: Hashes, file: SuppliedFile)
    ensures Possible(ContentRecord(|file.content|, ChunkTexts(hashes, Pieces(file.content, CHUNK_BYTES))))
  {
    var chunks := ChunkTexts(hashes, Pieces(file.content, CHUNK_BYTES));
    assert Possible(Arr(chunks));
    hide ChunkTexts, Pieces;
    RecordPossible(Word("app-actions-supplied-file/v1"), |file.content|, chunks);
  }

  lemma ChunksTell(hashes: Hashes, a: seq<Byte>, b: seq<Byte>)
    requires Injective(hashes)
    requires Same(Arr(ChunkTexts(hashes, Pieces(a, CHUNK_BYTES))), Arr(ChunkTexts(hashes, Pieces(b, CHUNK_BYTES))))
    ensures a == b
  {
    var x, y := Pieces(a, CHUNK_BYTES), Pieces(b, CHUNK_BYTES);
    var s, t := ChunkTexts(hashes, x), ChunkTexts(hashes, y);
    assert |x| == |y|;
    forall i | 0 <= i < |x| ensures x[i] == y[i] {
      assert Same(s[i], t[i]);
      Base64Url.EncodeInjective(hashes.ofBytes(x[i]), hashes.ofBytes(y[i]));
    }
    assert x == y;
    PiecesJoin(a, CHUNK_BYTES);
    PiecesJoin(b, CHUNK_BYTES);
  }

  /** Two files with one fingerprint are the same file. */
  lemma FingerprintTells(hashes: Hashes, a: SuppliedFile, b: SuppliedFile)
    requires Injective(hashes) && Fingerprint(hashes, a).Some? && Fingerprint(hashes, b).Some?
    requires Same(Fingerprint(hashes, a).value, Fingerprint(hashes, b).value)
    ensures a == b
  {
    var x := ContentRecord(|a.content|, ChunkTexts(hashes, Pieces(a.content, CHUNK_BYTES)));
    var y := ContentRecord(|b.content|, ChunkTexts(hashes, Pieces(b.content, CHUNK_BYTES)));
    ContentPossible(hashes, a);
    ContentPossible(hashes, b);
    hide ContentRecord, Canonical, Pieces, ChunkTexts;
    FileRecordTells(a, b, hashes.ofText(Canonical(x).value), hashes.ofText(Canonical(y).value));
    SameTextSameValue(x, y);
    ContentSame(|a.content|, ChunkTexts(hashes, Pieces(a.content, CHUNK_BYTES)), |b.content|, ChunkTexts(hashes, Pieces(b.content, CHUNK_BYTES)));
    ChunksTell(hashes, a.content, b.content);
  }

  lemma FileRecordTells(a: SuppliedFile, b: SuppliedFile, x: seq<Byte>, y: seq<Byte>)
    requires Same(FileRecord(a, x), FileRecord(b, y))
    ensures a.name == b.name && a.mimeType == b.mimeType && |a.content| == |b.content| && x == y
  {
    NamesAreDistinct();
    var vs := [Str(a.name), Str(a.mimeType), Number(|a.content|), Str(Base64Url.Encode(x))];
    var ws := [Str(b.name), Str(b.mimeType), Number(|b.content|), Str(Base64Url.Encode(y))];
    RecordsSame(FileNames(), vs, ws);
    assert Same(vs[0], ws[0]) && Same(vs[1], ws[1]) && Same(vs[2], ws[2]) && Same(vs[3], ws[3]);
    DecimalInjective(|a.content|, |b.content|);
    Base64Url.EncodeInjective(x, y);
  }

  ghost predicate AllSame(vs: seq<Json>, ws: seq<Json>) {
    |vs| == |ws| && forall i :: 0 <= i < |vs| ==> Same(vs[i], ws[i])
  }

  lemma {:induction false} FingerprintsTell(hashes: Hashes, mine: seq<SuppliedFile>, theirs: seq<SuppliedFile>)
    requires Injective(hashes) && Fingerprints(hashes, mine).Some? && Fingerprints(hashes, theirs).Some?
    requires AllSame(Fingerprints(hashes, mine).value, Fingerprints(hashes, theirs).value)
    ensures mine == theirs
  {
    hide Fingerprint, Same, Possible, Injective;
    FingerprintCount(hashes, mine);
    FingerprintCount(hashes, theirs);
    if mine != [] {
      var n := |mine| - 1;
      var x, y := Fingerprints(hashes, mine).value, Fingerprints(hashes, theirs).value;
      FingerprintCount(hashes, mine[..n]);
      FingerprintCount(hashes, theirs[..n]);
      assert x == x[..n] + [Fingerprint(hashes, mine[n]).value] && y == y[..n] + [Fingerprint(hashes, theirs[n]).value];
      assert Same(x[n], y[n]);
      FingerprintTells(hashes, mine[n], theirs[n]);
      FingerprintsTell(hashes, mine[..n], theirs[..n]);
      assert mine == mine[..n] + [mine[n]] && theirs == theirs[..n] + [theirs[n]];
    }
  }

  lemma FingerprintPossible(hashes: Hashes, file: SuppliedFile)
    requires Fingerprint(hashes, file).Some?
    ensures Possible(Fingerprint(hashes, file).value)
  {
    NamesAreDistinct();
    var content := Canonical(ContentRecord(|file.content|, ChunkTexts(hashes, Pieces(file.content, CHUNK_BYTES))));
    var hash := hashes.ofText(content.value);
    RecordsArePossible(FileNames(), [Str(file.name), Str(file.mimeType), Number(|file.content|), Str(Base64Url.Encode(hash))]);
  }

  lemma {:induction false} FingerprintCount(hashes: Hashes, files: seq<SuppliedFile>)
    requires Fingerprints(hashes, files).Some?
    ensures |Fingerprints(hashes, files).value| == |files|
    ensures forall i :: 0 <= i < |files| ==> Possible(Fingerprints(hashes, files).value[i])
  {
    hide Fingerprint, Possible;
    if files != [] {
      FingerprintCount(hashes, files[..|files| - 1]);
      FingerprintPossible(hashes, files[|files| - 1]);
    }
  }

  lemma IntentPossible(request: Json, fingerprints: seq<Json>)
    requires Possible(request) && forall i :: 0 <= i < |fingerprints| ==> Possible(fingerprints[i])
    ensures Possible(IntentValue(request, fingerprints))
  {}

  lemma ValuesSame(request: Json, x: seq<Json>, request': Json, y: seq<Json>)
    ensures Same(IntentValue(request, x), IntentValue(request', y)) <==> Same(request, request') && Same(Arr(x), Arr(y))
  {
    NamesAreDistinct();
    RecordsSame(IntentNames(), [request, Arr(x)], [request', Arr(y)]);
    TwoFields(request, Arr(x), request', Arr(y));
    hide Zip, Same;
  }

  lemma FingerprintsSame(hashes: Hashes, files: seq<SuppliedFile>, files': seq<SuppliedFile>)
    requires Injective(hashes) && Fingerprints(hashes, files).Some? && Fingerprints(hashes, files').Some?
    ensures Same(Arr(Fingerprints(hashes, files).value), Arr(Fingerprints(hashes, files').value)) <==> files == files'
  {
    var x, y := Fingerprints(hashes, files).value, Fingerprints(hashes, files').value;
    FingerprintCount(hashes, files);
    if Same(Arr(x), Arr(y)) {
      assert AllSame(x, y);
      FingerprintsTell(hashes, files, files');
    }
    forall i | 0 <= i < |x| && files == files' ensures Same(x[i], y[i]) { SameAsItself(x[i]); }
    hide Fingerprints, Possible;
  }

  /**
   * With hashes that have no collisions, two intents are equal exactly when the requests are, up to the order of keys,
   * and the files are the same, one by one, in name, type and every byte.
   */
  lemma SameIntentSameFiles(hashes: Hashes, request: Json, files: seq<SuppliedFile>, request': Json, files': seq<SuppliedFile>)
    requires Injective(hashes) && Possible(request) && Possible(request')
    requires Intent(hashes, request, files).Some? && Intent(hashes, request', files').Some?
    ensures Intent(hashes, request, files) == Intent(hashes, request', files') <==> Same(request, request') && files == files'
  {
    hide Fingerprints, Canonical, Zip, Possible, Same, Injective;
    var x, y := Fingerprints(hashes, files).value, Fingerprints(hashes, files').value;
    FingerprintCount(hashes, files);
    FingerprintCount(hashes, files');
    IntentPossible(request, x);
    IntentPossible(request', y);
    FingerprintsSame(hashes, files, files');
    ValuesSame(request, x, request', y);
    SameTextSameValue(IntentValue(request, x), IntentValue(request', y));
  }

  lemma TwoFields(a: Json, b: Json, a': Json, b': Json)
    ensures (forall i :: 0 <= i < 2 ==> Same([a, b][i], [a', b'][i])) <==> Same(a, a') && Same(b, b')
  {
    assert [a, b][0] == a && [a, b][1] == b && [a', b'][0] == a' && [a', b'][1] == b';
  }

  lemma {:induction false} SameAsItself(v: Json)
    requires Possible(v)
    ensures Same(v, v)
    decreases v
  {
    match v
    case Arr(items) => forall i | 0 <= i < |items| ensures Same(items[i], items[i]) { SameAsItself(items[i]); }
    case Obj(entries) =>
      forall i | 0 <= i < |entries|
        ensures entries[i].key in KeysOf(entries) && Same(entries[i].value, entries[IndexOf(entries, entries[i].key)].value)
      {
        OwnIndex(entries, i);
        SameAsItself(entries[i].value);
      }
    case _ =>
  }
}
