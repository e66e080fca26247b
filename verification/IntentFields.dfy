/** What an intent says of its request and its files. */
module IntentFields {
  import opened Outcomes
  import opened Bytes
  import opened JsonReader
  import opened CanonicalJson
  import opened FileIntent
  import Base64Url

  /** The object has this value under this name. */
  ghost predicate Has(v: Json, name: string, value: Json) {
    v.Obj? && Word(name) in KeysOf(v.entries) && v.entries[IndexOf(v.entries, Word(name))].value == value
  }

  lemma SameHas(v: Json, w: Json, name: string, value: Json) returns (value': Json)
    requires v.Obj? && Same(v, w) && Has(v, name, value)
    ensures Has(w, name, value') && Same(value, value')
  {
    var i := IndexOf(v.entries, Word(name));
    value' := w.entries[IndexOf(w.entries, v.entries[i].key)].value;
  }

  lemma ZipHas(names: seq<Text>, values: seq<Json>, i: nat, name: string)
    requires DistinctNames(names) && |values| == |names| && i < |names| && names[i] == Word(name)
    ensures Has(Obj(Zip(names, values)), name, values[i])
  {
    var entries := Zip(names, values);
    assert forall j :: 0 <= j < |names| ==> entries[j].key == names[j];
    OwnIndex(entries, i);
  }

  function TextsOf(hashes: Hashes, pieces: seq<seq<Byte>>): seq<Json> {
    seq(|pieces|, i requires 0 <= i < |pieces| => Str(Base64Url.Encode(hashes.ofBytes(pieces[i]))))
  }

  /** The record of the content: its domain, the size of the chunks and of the whole, and the hash of every chunk of 4 MiB. */
  ghost predicate ContentSays(hashes: Hashes, v: Json, content: seq<Byte>) {
    && Has(v, "domain", Str(Word("app-actions-supplied-file/v1"))) && Has(v, "chunkBytes", Num(Decimal(4194304)))
    && Has(v, "size", Num(Decimal(|content|))) && Has(v, "chunks", Arr(TextsOf(hashes, Pieces(content, 4194304))))
  }

  /** The entry of one file: name, type, size, and the hash of the record of its content. */
  ghost predicate FileSays(hashes: Hashes, v: Json, file: SuppliedFile, content: Text) {
    && Has(v, "filename", Str(file.name)) && Has(v, "mimeType", Str(file.mimeType)) && Has(v, "size", Num(Decimal(|file.content|)))
    && Has(v, "hash", Str(Base64Url.Encode(hashes.ofText(content))))
    && Read(content).Some? && ContentSays(hashes, Read(content).value, file.content)
  }

  ghost predicate FileTold(hashes: Hashes, v: Json, file: SuppliedFile) {
    exists content :: FileSays(hashes, v, file, content)
  }

  ghost predicate IntentSays(hashes: Hashes, v: Json, request: Json, files: seq<SuppliedFile>) {
    exists request', items ::
      && Has(v, "request", request') && Same(request, request')
      && Has(v, "files", Arr(items)) && |items| == |files|
      && forall i :: 0 <= i < |files| ==> FileTold(hashes, items[i], files[i])
  }

  // ---- Proofs

  lemma SameTexts(vs: seq<Json>, w: Json)
    requires Same(Arr(vs), w) && forall i :: 0 <= i < |vs| ==> vs[i].Str?
    ensures w == Arr(vs)
  {
    forall i | 0 <= i < |vs| ensures vs[i] == w.items[i] { assert Same(vs[i], w.items[i]); }
    assert w.items == vs;
  }

  lemma ContentReads(hashes: Hashes, file: SuppliedFile, content: Text)
    requires Canonical(ContentRecord(|file.content|, ChunkTexts(hashes, Pieces(file.content, CHUNK_BYTES)))) == Some(content)
    ensures Read(content).Some? && ContentSays(hashes, Read(content).value, file.content)
  {
    hide Canonical, ContentRecord, Read, Pieces, Has, Decimal, Same, Possible, ChunkTexts;
    var chunks := ChunkTexts(hashes, Pieces(file.content, CHUNK_BYTES));
    var record := ContentRecord(|file.content|, chunks);
    ContentPossible(hashes, file);
    ReadBack(record);
    ContentHas(|file.content|, chunks);
    ChunksAre(hashes, file.content);
    SameContent(record, Read(content).value, |file.content|, chunks);
  }

  lemma ChunksAre(hashes: Hashes, content: seq<Byte>)
    ensures var chunks := ChunkTexts(hashes, Pieces(content, CHUNK_BYTES)); chunks == TextsOf(hashes, Pieces(content, 4194304)) && forall i :: 0 <= i < |chunks| ==> chunks[i].Str?
  {
    hide Pieces;
  }

  lemma ContentHas(size: nat, chunks: seq<Json>)
    ensures
      var v := ContentRecord(size, chunks);
      && v.Obj? && Has(v, "domain", Str(Word("app-actions-supplied-file/v1"))) && Has(v, "chunkBytes", Num(Decimal(4194304)))
      && Has(v, "size", Num(Decimal(size))) && Has(v, "chunks", Arr(chunks))
  {
    NamesAreDistinct();
    hide Has, Word, Decimal;
    var values := [Str(Word("app-actions-supplied-file/v1")), Number(CHUNK_BYTES), Number(size), Arr(chunks)];
    ZipHas(ContentNames(), values, 0, "domain");
    ZipHas(ContentNames(), values, 1, "chunkBytes");
    ZipHas(ContentNames(), values, 2, "size");
    ZipHas(ContentNames(), values, 3, "chunks");
  }

  lemma SameContent(v: Json, w: Json, size: nat, chunks: seq<Json>)
    requires v.Obj? && Same(v, w) && Has(v, "domain", Str(Word("app-actions-supplied-file/v1"))) && Has(v, "chunkBytes", Num(Decimal(4194304)))
    requires Has(v, "size", Num(Decimal(size))) && Has(v, "chunks", Arr(chunks)) && forall i :: 0 <= i < |chunks| ==> chunks[i].Str?
    ensures Has(w, "domain", Str(Word("app-actions-supplied-file/v1"))) && Has(w, "chunkBytes", Num(Decimal(4194304)))
    ensures Has(w, "size", Num(Decimal(size))) && Has(w, "chunks", Arr(chunks))
  {
    hide Has, Word, Decimal;
    var a := SameHas(v, w, "domain", Str(Word("app-actions-supplied-file/v1")));
    var b := SameHas(v, w, "chunkBytes", Num(Decimal(4194304)));
    var c := SameHas(v, w, "size", Num(Decimal(size)));
    var d := SameHas(v, w, "chunks", Arr(chunks));
    SameTexts(chunks, d);
  }

  lemma FileHas(file: SuppliedFile, hash: seq<Byte>, w: Json)
    requires Same(FileRecord(file, hash), w)
    ensures Has(w, "filename", Str(file.name)) && Has(w, "mimeType", Str(file.mimeType)) && Has(w, "size", Num(Decimal(|file.content|)))
    ensures Has(w, "hash", Str(Base64Url.Encode(hash)))
  {
    NamesAreDistinct();
    hide Has, Word, Decimal;
    var v := FileRecord(file, hash);
    var values := [Str(file.name), Str(file.mimeType), Number(|file.content|), Str(Base64Url.Encode(hash))];
    ZipHas(FileNames(), values, 0, "filename");
    ZipHas(FileNames(), values, 1, "mimeType");
    ZipHas(FileNames(), values, 2, "size");
    ZipHas(FileNames(), values, 3, "hash");
    var a := SameHas(v, w, "filename", Str(file.name));
    var b := SameHas(v, w, "mimeType", Str(file.mimeType));
    var c := SameHas(v, w, "size", Num(Decimal(|file.content|)));
    var d := SameHas(v, w, "hash", Str(Base64Url.Encode(hash)));
  }

  lemma FileReads(hashes: Hashes, file: SuppliedFile, w: Json)
    requires Fingerprint(hashes, file).Some? && Same(Fingerprint(hashes, file).value, w)
    ensures FileTold(hashes, w, file)
  {
    var content := Canonical(ContentRecord(|file.content|, ChunkTexts(hashes, Pieces(file.content, CHUNK_BYTES)))).value;
    hide Canonical, ContentRecord, ChunkTexts, Pieces, Has, Read, ContentSays, FileRecord;
    ContentReads(hashes, file, content);
    FileHas(file, hashes.ofText(content), w);
    assert FileSays(hashes, w, file, content);
  }

  lemma {:induction false} FingerprintAt(hashes: Hashes, files: seq<SuppliedFile>, i: nat)
    requires Fingerprints(hashes, files).Some? && i < |files|
    ensures |Fingerprints(hashes, files).value| == |files| && Fingerprint(hashes, files[i]) == Some(Fingerprints(hashes, files).value[i])
  {
    hide Fingerprint;
    FingerprintCount(hashes, files);
    var n := |files| - 1;
    FingerprintCount(hashes, files[..n]);
    if i < n { FingerprintAt(hashes, files[..n], i); }
  }

  /** The intent is the JSON of the request and of one entry for each file, in order. */
  lemma IntentReads(hashes: Hashes, request: Json, files: seq<SuppliedFile>)
    requires Possible(request) && Intent(hashes, request, files).Some?
    ensures var back := Read(Intent(hashes, request, files).value); back.Some? && IntentSays(hashes, back.value, request, files)
  {
    hide Canonical, Read, Fingerprints, Fingerprint, Possible, Same, IntentSays, IntentValue;
    var fingerprints := Fingerprints(hashes, files).value;
    FingerprintCount(hashes, files);
    IntentPossible(request, fingerprints);
    ReadBack(IntentValue(request, fingerprints));
    IntentHas(hashes, request, files, Read(Canonical(IntentValue(request, fingerprints)).value).value);
  }

  lemma IntentHas(hashes: Hashes, request: Json, files: seq<SuppliedFile>, back: Json)
    requires Fingerprints(hashes, files).Some? && Same(IntentValue(request, Fingerprints(hashes, files).value), back)
    ensures IntentSays(hashes, back, request, files)
  {
    hide Fingerprints, Fingerprint, Has, FileTold, IntentValue, Same;
    var fingerprints := Fingerprints(hashes, files).value;
    var value := IntentValue(request, fingerprints);
    ValueHas(request, fingerprints);
    var request' := SameHas(value, back, "request", request);
    var items := SameHas(value, back, "files", Arr(fingerprints));
    FilesRead(hashes, files, items);
    assert items == Arr(items.items);
  }

  lemma ValueHas(request: Json, fingerprints: seq<Json>)
    ensures var value := IntentValue(request, fingerprints); value.Obj? && Has(value, "request", request) && Has(value, "files", Arr(fingerprints))
  {
    hide Has, Word;
    NamesAreDistinct();
    ZipHas(IntentNames(), [request, Arr(fingerprints)], 0, "request");
    ZipHas(IntentNames(), [request, Arr(fingerprints)], 1, "files");
  }

  lemma FilesRead(hashes: Hashes, files: seq<SuppliedFile>, items: Json)
    requires Fingerprints(hashes, files).Some? && Same(Arr(Fingerprints(hashes, files).value), items)
    ensures items.Arr? && |items.items| == |files|
    ensures forall i :: 0 <= i < |files| ==> FileTold(hashes, items.items[i], files[i])
  {
    hide Fingerprints, Fingerprint, Has, FileTold;
    FingerprintCount(hashes, files);
    var fingerprints := Fingerprints(hashes, files).value;
    forall i | 0 <= i < |files| ensures FileTold(hashes, items.items[i], files[i]) {
      FingerprintAt(hashes, files, i);
      assert Same(fingerprints[i], items.items[i]);
      FileReads(hashes, files[i], items.items[i]);
    }
  }
}
