/** Which motion files of a goon are loaded at once and which later. */
module LoadPlan {
  import opened AnimationNames

  // ---- Sizes and their order

  function ResolveSize(file: FileRef, fallback: int): int {
    if file.size <= 0 then fallback else file.size
  }

  function FallbackSize(maxBytes: int, maxFiles: int): (size: int)
    ensures size >= 1
  {
    if maxBytes > 0 && maxFiles > 0 && maxBytes / maxFiles >= 1 then maxBytes / maxFiles else 1
  }

  function Sum(files: seq<FileRef>, fallback: int): int {
    if files == [] then 0 else Sum(files[..|files| - 1], fallback) + ResolveSize(files[|files| - 1], fallback)
  }

  /** A file goes behind those of its own size that came before it. */
  function InsertBySize(sorted: seq<FileRef>, file: FileRef, fallback: int): seq<FileRef> {
    if sorted == [] then [file]
    else if ResolveSize(sorted[|sorted| - 1], fallback) <= ResolveSize(file, fallback) then sorted + [file]
    else InsertBySize(sorted[..|sorted| - 1], file, fallback) + [sorted[|sorted| - 1]]
  }

  /** The stable sort by size. */
  function SortBySize(files: seq<FileRef>, fallback: int): seq<FileRef> {
    if files == [] then [] else InsertBySize(SortBySize(files[..|files| - 1], fallback), files[|files| - 1], fallback)
  }

  predicate Ascending(files: seq<FileRef>, fallback: int) {
    forall i, j :: 0 <= i < j < |files| ==> ResolveSize(files[i], fallback) <= ResolveSize(files[j], fallback)
  }

  lemma {:induction false} InsertBySizeAdds(sorted: seq<FileRef>, file: FileRef, fallback: int)
    ensures multiset(InsertBySize(sorted, file, fallback)) == multiset(sorted) + multiset{file}
  {
    hide ResolveSize;
    if sorted != [] {
      var n := |sorted| - 1;
      assert sorted == sorted[..n] + [sorted[n]];
      InsertBySizeAdds(sorted[..n], file, fallback);
    }
  }

  lemma {:induction false} InsertBySizeSorts(sorted: seq<FileRef>, file: FileRef, fallback: int)
    requires Ascending(sorted, fallback)
    ensures Ascending(InsertBySize(sorted, file, fallback), fallback)
  {
    hide ResolveSize;
    if sorted != [] {
      var n := |sorted| - 1;
      if ResolveSize(sorted[n], fallback) > ResolveSize(file, fallback) {
        InsertBySizeSorts(sorted[..n], file, fallback);
        var front := InsertBySize(sorted[..n], file, fallback);
        InsertBySizeAdds(sorted[..n], file, fallback);
        forall i | 0 <= i < |front| ensures ResolveSize(front[i], fallback) <= ResolveSize(sorted[n], fallback) {
          assert front[i] in multiset(front);
          assert front[i] == file || front[i] in sorted[..n];
        }
      }
    }
  }

  lemma {:induction false} SortBySizeSorts(files: seq<FileRef>, fallback: int)
    ensures Ascending(SortBySize(files, fallback), fallback)
    ensures multiset(SortBySize(files, fallback)) == multiset(files)
  {
    if files != [] {
      var n := |files| - 1;
      assert files == files[..n] + [files[n]];
      SortBySizeSorts(files[..n], fallback);
      InsertBySizeSorts(SortBySize(files[..n], fallback), files[n], fallback);
      InsertBySizeAdds(SortBySize(files[..n], fallback), files[n], fallback);
    }
  }

  // ---- Files of one size keep their order

  function OfSize(files: seq<FileRef>, size: int, fallback: int): seq<FileRef> {
    if files == [] then []
    else
      var rest := OfSize(files[..|files| - 1], size, fallback);
      if ResolveSize(files[|files| - 1], fallback) == size then rest + [files[|files| - 1]] else rest
  }

  lemma {:induction false} InsertBySizeStable(sorted: seq<FileRef>, file: FileRef, size: int, fallback: int)
    requires Ascending(sorted, fallback)
    ensures OfSize(InsertBySize(sorted, file, fallback), size, fallback) ==
            OfSize(sorted, size, fallback) + if ResolveSize(file, fallback) == size then [file] else []
  {
    if sorted == [] {
      assert [file][..0] == [];
    } else {
      var n := |sorted| - 1;
      if ResolveSize(sorted[n], fallback) <= ResolveSize(file, fallback) {
        assert (sorted + [file])[..|sorted|] == sorted;
      } else {
        InsertBySizeStable(sorted[..n], file, size, fallback);
        var front := InsertBySize(sorted[..n], file, fallback);
        assert (front + [sorted[n]])[..|front|] == front;
      }
    }
  }

  /** Sorting keeps the order of files that are equally large. */
  lemma {:induction false} SortBySizeStable(files: seq<FileRef>, size: int, fallback: int)
    ensures OfSize(SortBySize(files, fallback), size, fallback) == OfSize(files, size, fallback)
  {
    if files != [] {
      var n := |files| - 1;
      SortBySizeStable(files[..n], size, fallback);
      SortBySizeSorts(files[..n], fallback);
      InsertBySizeStable(SortBySize(files[..n], fallback), files[n], size, fallback);
    }
  }

  // ---- The partition

  function Max(a: int, b: int): int {
    if a < b then b else a
  }

  /** The first `k` of the size order are as many as fit: within both limits, but for the bytes of a single first file. */
  predicate FitsExactly(sorted: seq<FileRef>, k: nat, maxBytes: int, maxFiles: int, fallback: int) {
    && k <= |sorted| && k <= Max(0, maxFiles)
    && (sorted != [] && maxFiles > 0 ==> k >= 1)
    && (k <= 1 || Sum(sorted[..k], fallback) <= maxBytes)
    && (k == |sorted| || k >= maxFiles || Sum(sorted[..k + 1], fallback) > maxBytes)
  }

  lemma SumNext(files: seq<FileRef>, i: nat, fallback: int)
    requires i < |files|
    ensures Sum(files[..i + 1], fallback) == Sum(files[..i], fallback) + ResolveSize(files[i], fallback)
  {
    assert files[..i + 1][..i] == files[..i];
  }

  lemma {:induction false} SumIsPositive(files: seq<FileRef>, fallback: int)
    requires fallback >= 1
    ensures Sum(files, fallback) >= |files|
  {
    if files != [] { SumIsPositive(files[..|files| - 1], fallback); }
  }

  /** After `i` files of the size order the first `k` are eager and the others deferred. */
  predicate Filled(sorted: seq<FileRef>, i: nat, k: nat, byteBudget: int, maxBytes: int, maxFiles: int, fallback: int) {
    && k <= i <= |sorted| && k <= Max(0, maxFiles) && (i > 0 && maxFiles > 0 ==> k >= 1)
    && (k >= 2 ==> Sum(sorted[..k], fallback) <= maxBytes)
    && byteBudget == Max(0, Max(0, maxBytes) - Sum(sorted[..k], fallback))
    && (k < i ==> k >= maxFiles || Sum(sorted[..k + 1], fallback) > maxBytes)
  }

  lemma FilledMore(sorted: seq<FileRef>, i: nat, k: nat, byteBudget: int, maxBytes: int, maxFiles: int, fallback: int)
    requires fallback >= 1 && Ascending(sorted, fallback) && Filled(sorted, i, k, byteBudget, maxBytes, maxFiles, fallback)
    requires i < |sorted| && k < maxFiles && (k == 0 || ResolveSize(sorted[i], fallback) <= byteBudget)
    ensures k == i && Filled(sorted, i + 1, k + 1, Max(0, byteBudget - ResolveSize(sorted[i], fallback)), maxBytes, maxFiles, fallback)
  {
    SumNext(sorted, k, fallback);
    SumIsPositive(sorted[..k], fallback);
    hide Ascending;
    assert ResolveSize(sorted[k], fallback) <= ResolveSize(sorted[i], fallback);
  }

  lemma FilledUp(sorted: seq<FileRef>, i: nat, k: nat, byteBudget: int, maxBytes: int, maxFiles: int, fallback: int)
    requires fallback >= 1 && Ascending(sorted, fallback) && Filled(sorted, i, k, byteBudget, maxBytes, maxFiles, fallback)
    requires i < |sorted| && (k >= maxFiles || (k > 0 && ResolveSize(sorted[i], fallback) > byteBudget))
    ensures Filled(sorted, i + 1, k, byteBudget, maxBytes, maxFiles, fallback)
  {
    SumNext(sorted, k, fallback);
  }

  /** The size order is cut where no further file fits. */
  predicate Partition(files: seq<FileRef>, maxBytes: int, maxFiles: int, eager: seq<FileRef>, deferred: seq<FileRef>) {
    var fallback := FallbackSize(maxBytes, maxFiles);
    var sorted := SortBySize(files, fallback);
    eager + deferred == sorted && FitsExactly(sorted, |eager|, maxBytes, maxFiles, fallback)
  }

  method PartitionBySize(files: seq<FileRef>, maxBytes: int, maxFiles: int) returns (eager: seq<FileRef>, deferred: seq<FileRef>)
    ensures Partition(files, maxBytes, maxFiles, eager, deferred)
  {
    if files == [] { return [], []; }
    var fallback := FallbackSize(maxBytes, maxFiles);
    var sorted := SortBySize(files, fallback);
    SortBySizeSorts(files, fallback);
    hide SortBySize, FallbackSize;
    eager, deferred := Fill(sorted, maxBytes, maxFiles, fallback);
  }

  method Fill(sorted: seq<FileRef>, maxBytes: int, maxFiles: int, fallback: int) returns (eager: seq<FileRef>, deferred: seq<FileRef>)
    requires fallback >= 1 && Ascending(sorted, fallback)
    ensures eager + deferred == sorted && FitsExactly(sorted, |eager|, maxBytes, maxFiles, fallback)
  {
    hide Sum, Ascending, Filled, FitsExactly, ResolveSize;
    eager, deferred := [], [];
    var byteBudget := Max(0, maxBytes);
    FilledFirst(sorted, maxBytes, maxFiles, fallback);
    for i := 0 to |sorted|
      invariant eager + deferred == sorted[..i] && (deferred == [] ==> |eager| == i)
      invariant Filled(sorted, i, |eager|, byteBudget, maxBytes, maxFiles, fallback)
    {
      var file := sorted[i];
      assert sorted[..i + 1] == sorted[..i] + [file];
      if |eager| >= maxFiles {
        FilledUp(sorted, i, |eager|, byteBudget, maxBytes, maxFiles, fallback);
        deferred := deferred + [file];
      } else {
        var size := ResolveSize(file, fallback);
        if |eager| == 0 || size <= byteBudget {
          FilledMore(sorted, i, |eager|, byteBudget, maxBytes, maxFiles, fallback);
          assert deferred == [];
          eager := eager + [file];
          byteBudget := Max(0, byteBudget - size);
        } else {
          FilledUp(sorted, i, |eager|, byteBudget, maxBytes, maxFiles, fallback);
          deferred := deferred + [file];
        }
      }
    }
    FilledLast(sorted, |eager|, byteBudget, maxBytes, maxFiles, fallback);
    assert sorted[..|sorted|] == sorted;
  }

  lemma FilledFirst(sorted: seq<FileRef>, maxBytes: int, maxFiles: int, fallback: int)
    ensures Filled(sorted, 0, 0, Max(0, maxBytes), maxBytes, maxFiles, fallback)
  {}

  lemma FilledLast(sorted: seq<FileRef>, k: nat, byteBudget: int, maxBytes: int, maxFiles: int, fallback: int)
    requires Filled(sorted, |sorted|, k, byteBudget, maxBytes, maxFiles, fallback)
    ensures FitsExactly(sorted, k, maxBytes, maxFiles, fallback)
  {}

  lemma NoSum(files: seq<FileRef>, fallback: int)
    ensures Sum(files[..0], fallback) == 0
  {}

  // ---- No other selection contains more files

  lemma {:induction false} SumSplits(a: seq<FileRef>, b: seq<FileRef>, fallback: int)
    ensures Sum(a + b, fallback) == Sum(a, fallback) + Sum(b, fallback)
  {
    if b == [] {
      assert a + b == a;
    } else {
      var n := |b| - 1;
      assert (a + b)[..|a + b| - 1] == a + b[..n];
      SumSplits(a, b[..n], fallback);
    }
  }

  /** Taking one file out of a selection. */
  lemma TakeOut(files: seq<FileRef>, i: nat, fallback: int)
    requires i < |files|
    ensures
      var rest := files[..i] + files[i + 1..];
      multiset(rest) == multiset(files) - multiset{files[i]} && Sum(files, fallback) == Sum(rest, fallback) + ResolveSize(files[i], fallback)
  {
    var rest := files[..i] + files[i + 1..];
    assert files == files[..i] + [files[i]] + files[i + 1..];
    SumSplits(files[..i] + [files[i]], files[i + 1..], fallback);
    SumSplits(files[..i], [files[i]], fallback);
    SumSplits(files[..i], files[i + 1..], fallback);
    assert [files[i]][..0] == [];
  }

  lemma AscendingParts(sorted: seq<FileRef>, k: nat, fallback: int)
    requires Ascending(sorted, fallback) && k < |sorted|
    ensures Ascending(sorted[..|sorted| - 1], fallback)
    ensures ResolveSize(sorted[k], fallback) <= ResolveSize(sorted[|sorted| - 1], fallback)
  {}

  lemma NotMore(sorted: seq<FileRef>, selection: seq<FileRef>)
    requires multiset(selection) <= multiset(sorted)
    ensures |selection| <= |sorted|
  {
    assert multiset(sorted) == multiset(selection) + (multiset(sorted) - multiset(selection));
    assert |multiset(selection)| == |selection| && |multiset(sorted)| == |sorted|;
  }

  /** The first files of the size order are the smallest selection of their number: exchange any other for them. */
  lemma {:induction false} FirstAreSmallest(sorted: seq<FileRef>, selection: seq<FileRef>, fallback: int)
    requires Ascending(sorted, fallback) && multiset(selection) <= multiset(sorted)
    ensures |selection| <= |sorted| && Sum(sorted[..|selection|], fallback) <= Sum(selection, fallback)
    decreases |sorted|, 1
  {
    hide Sum, ResolveSize, Ascending;
    NotMore(sorted, selection);
    if selection == [] {
      NoSum(sorted, fallback);
      NoSum(selection, fallback);
      assert selection == selection[..0];
    } else {
      SmallestSoFar(sorted, selection, fallback);
    }
  }

  lemma SmallestSoFar(sorted: seq<FileRef>, selection: seq<FileRef>, fallback: int)
    requires Ascending(sorted, fallback) && multiset(selection) <= multiset(sorted) && selection != [] && |selection| <= |sorted|
    ensures Sum(sorted[..|selection|], fallback) <= Sum(selection, fallback)
    decreases |sorted|, 0
  {
    hide Sum, ResolveSize, Ascending;
    var n := |sorted| - 1;
    AscendingParts(sorted, |selection| - 1, fallback);
    if sorted[n] in selection {
      var i :| 0 <= i < |selection| && selection[i] == sorted[n];
      var rest := selection[..i] + selection[i + 1..];
      TakeOut(selection, i, fallback);
      Chosen(sorted, selection, rest);
      FirstAreSmallest(sorted[..n], rest, fallback);
      assert sorted[..n][..|rest|] == sorted[..|rest|];
      SumNext(sorted, |rest|, fallback);
    } else {
      NotChosen(sorted, selection);
      FirstAreSmallest(sorted[..n], selection, fallback);
      assert sorted[..n][..|selection|] == sorted[..|selection|];
    }
  }

  lemma Chosen(sorted: seq<FileRef>, selection: seq<FileRef>, rest: seq<FileRef>)
    requires sorted != [] && multiset(selection) <= multiset(sorted)
    requires sorted[|sorted| - 1] in selection && multiset(rest) == multiset(selection) - multiset{sorted[|sorted| - 1]}
    ensures multiset(rest) <= multiset(sorted[..|sorted| - 1])
  {
    var n := |sorted| - 1;
    assert sorted == sorted[..n] + [sorted[n]];
    assert multiset(sorted) == multiset(sorted[..n]) + multiset{sorted[n]};
  }

  lemma NotChosen(sorted: seq<FileRef>, selection: seq<FileRef>)
    requires sorted != [] && multiset(selection) <= multiset(sorted) && sorted[|sorted| - 1] !in selection
    ensures multiset(selection) <= multiset(sorted[..|sorted| - 1])
  {
    var n := |sorted| - 1;
    assert sorted == sorted[..n] + [sorted[n]];
    forall f ensures multiset(selection)[f] <= multiset(sorted[..n])[f] {
      if f == sorted[n] { assert f !in multiset(selection); }
    }
  }

  /** No selection of the given files within both limits contains more files than the eager part. */
  lemma EagerIsLargest(files: seq<FileRef>, maxBytes: int, maxFiles: int, eager: seq<FileRef>, deferred: seq<FileRef>, selection: seq<FileRef>)
    requires Partition(files, maxBytes, maxFiles, eager, deferred) && multiset(selection) <= multiset(files)
    requires |selection| <= maxFiles && Sum(selection, FallbackSize(maxBytes, maxFiles)) <= maxBytes
    ensures |selection| <= |eager|
  {
    var fallback := FallbackSize(maxBytes, maxFiles);
    var sorted := SortBySize(files, fallback);
    SortBySizeSorts(files, fallback);
    FirstAreSmallest(sorted, selection, fallback);
    hide SortBySize, FallbackSize, Sum, Ascending, ResolveSize;
    if |selection| > |eager| { SumGrows(sorted, |eager| + 1, |selection|, fallback); }
  }

  lemma SumGrows(files: seq<FileRef>, k: nat, n: nat, fallback: int)
    requires fallback >= 1 && k <= n <= |files|
    ensures Sum(files[..k], fallback) <= Sum(files[..n], fallback)
  {
    assert files[..n] == files[..k] + files[k..n];
    SumSplits(files[..k], files[k..n], fallback);
    SumIsPositive(files[k..n], fallback);
  }

  /** The conditions leave no choice: there is only one such partition. */
  lemma PartitionIsUnique(files: seq<FileRef>, maxBytes: int, maxFiles: int,
                          eager: seq<FileRef>, deferred: seq<FileRef>, eager': seq<FileRef>, deferred': seq<FileRef>)
    requires Partition(files, maxBytes, maxFiles, eager, deferred) && Partition(files, maxBytes, maxFiles, eager', deferred')
    ensures eager == eager' && deferred == deferred'
  {
    var fallback := FallbackSize(maxBytes, maxFiles);
    var sorted := SortBySize(files, fallback);
    if |eager| < |eager'| { FitsNoMore(sorted, |eager|, |eager'|, maxBytes, maxFiles, fallback); }
    if |eager'| < |eager| { FitsNoMore(sorted, |eager'|, |eager|, maxBytes, maxFiles, fallback); }
    hide SortBySize, FallbackSize, FitsExactly;
    assert eager == sorted[..|eager|] && eager' == sorted[..|eager'|] && deferred == sorted[|eager|..] && deferred' == sorted[|eager'|..];
  }

  lemma FitsNoMore(sorted: seq<FileRef>, k: nat, l: nat, maxBytes: int, maxFiles: int, fallback: int)
    requires fallback >= 1 && k < l && FitsExactly(sorted, k, maxBytes, maxFiles, fallback)
    ensures !FitsExactly(sorted, l, maxBytes, maxFiles, fallback)
  {
    if l <= |sorted| { SumGrows(sorted, k + 1, l, fallback); }
  }

  // ---- Removing duplicates

  function Keys(files: seq<FileRef>): set<string> {
    set i | 0 <= i < |files| && FileKey(files[i]) != "" :: FileKey(files[i])
  }

  /** The first file of every key that was not seen before. */
  function FirstOfKey(files: seq<FileRef>, seen: set<string>): seq<FileRef> {
    if files == [] then []
    else
      var rest := files[..|files| - 1];
      var key := FileKey(files[|files| - 1]);
      if key == "" || key in seen || key in Keys(rest) then FirstOfKey(rest, seen) else FirstOfKey(rest, seen) + [files[|files| - 1]]
  }

  method DedupeFiles(files: seq<FileRef>, seen: set<string>) returns (result: seq<FileRef>, seen': set<string>)
    ensures result == FirstOfKey(files, seen) && seen' == seen + Keys(files)
  {
    result, seen' := [], seen;
    for i := 0 to |files|
      invariant result == FirstOfKey(files[..i], seen) && seen' == seen + Keys(files[..i])
    {
      var key := FileKey(files[i]);
      assert files[..i + 1][..i] == files[..i];
      KeysNext(files[..i], files[i]);
      assert files[..i + 1] == files[..i] + [files[i]];
      if key != "" && key !in seen' {
        seen' := seen' + {key};
        result := result + [files[i]];
      }
    }
    assert files[..|files|] == files;
  }

  lemma KeysNext(files: seq<FileRef>, file: FileRef)
    ensures Keys(files + [file]) == Keys(files) + if FileKey(file) != "" then {FileKey(file)} else {}
  {
    var all := files + [file];
    forall key | key in Keys(files) + (if FileKey(file) != "" then {FileKey(file)} else {}) ensures key in Keys(all) {
      if key in Keys(files) {
        var i :| 0 <= i < |files| && FileKey(files[i]) != "" && FileKey(files[i]) == key;
        assert all[i] == files[i];
      } else {
        assert all[|files|] == file;
      }
    }
    forall key | key in Keys(all) ensures key in Keys(files) + (if FileKey(file) != "" then {FileKey(file)} else {}) {
      var i :| 0 <= i < |all| && FileKey(all[i]) != "" && FileKey(all[i]) == key;
      if i < |files| { assert all[i] == files[i]; }
    }
  }

  lemma KeysJoin(a: seq<FileRef>, b: seq<FileRef>)
    ensures Keys(a + b) == Keys(a) + Keys(b)
  {
    if b == [] {
      assert a + b == a;
    } else {
      var n := |b| - 1;
      KeysJoin(a, b[..n]);
      KeysNext(a + b[..n], b[n]);
      KeysNext(b[..n], b[n]);
      assert a + b == (a + b[..n]) + [b[n]] && b == b[..n] + [b[n]];
    }
  }

  predicate DistinctKeys(files: seq<FileRef>) {
    && (forall i :: 0 <= i < |files| ==> FileKey(files[i]) != "")
    && (forall i, j :: 0 <= i < j < |files| ==> FileKey(files[i]) != FileKey(files[j]))
  }

  /** Each new key is kept exactly once. */
  lemma {:induction false} DedupeConserves(files: seq<FileRef>, seen: set<string>)
    ensures DistinctKeys(FirstOfKey(files, seen))
    ensures Keys(FirstOfKey(files, seen)) == Keys(files) - seen
    ensures |FirstOfKey(files, seen)| <= |files| && forall f :: f in FirstOfKey(files, seen) ==> f in files
  {
    if files != [] {
      var n := |files| - 1;
      var rest, last := files[..n], files[n];
      assert files == rest + [last];
      DedupeConserves(rest, seen);
      KeysNext(rest, last);
      KeysNext(FirstOfKey(rest, seen), last);
      hide Keys, DistinctKeys, FileKey;
      var key := FileKey(last);
      if key != "" && key !in seen && key !in Keys(rest) { DistinctNext(FirstOfKey(rest, seen), last); }
    }
  }

  /** The file is the first of its key, and its key is new. */
  predicate FirstAt(files: seq<FileRef>, seen: set<string>, i: nat) {
    i < |files| && FileKey(files[i]) != "" && FileKey(files[i]) !in seen && forall j :: 0 <= j < i ==> FileKey(files[j]) != FileKey(files[i])
  }

  lemma KeysMean(files: seq<FileRef>, key: string)
    ensures key in Keys(files) <==> key != "" && exists i :: 0 <= i < |files| && FileKey(files[i]) == key
  {}

  /** The last file is kept exactly when it is the first of its key. */
  lemma LastIsFirst(files: seq<FileRef>, seen: set<string>)
    requires files != []
    ensures
      var n := |files| - 1;
      FirstOfKey(files, seen) == if FirstAt(files, seen, n) then FirstOfKey(files[..n], seen) + [files[n]] else FirstOfKey(files[..n], seen)
  {
    var n := |files| - 1;
    KeysMean(files[..n], FileKey(files[n]));
    hide Keys, FileKey;
    assert forall j :: 0 <= j < n ==> files[..n][j] == files[j];
  }

  /** What is kept are exactly the first files of the new keys. */
  lemma {:induction false} FirstsAreKept(files: seq<FileRef>, seen: set<string>)
    ensures forall i: nat :: FirstAt(files, seen, i) ==> files[i] in FirstOfKey(files, seen)
    ensures forall f :: f in FirstOfKey(files, seen) ==> exists i: nat :: FirstAt(files, seen, i) && files[i] == f
  {
    if files != [] {
      var n := |files| - 1;
      FirstsAreKept(files[..n], seen);
      LastIsFirst(files, seen);
      hide FirstOfKey, FileKey;
      assert forall i: nat :: i < n ==> FirstAt(files[..n], seen, i) == FirstAt(files, seen, i) && files[..n][i] == files[i];
    }
  }

  lemma DistinctNext(files: seq<FileRef>, file: FileRef)
    requires DistinctKeys(files) && FileKey(file) != "" && FileKey(file) !in Keys(files)
    ensures DistinctKeys(files + [file])
  {}

  // ---- Poses that must be there at once

  predicate Starts(s: string, prefix: string) {
    |prefix| <= |s| && s[..|prefix|] == prefix
  }

  /** `(stand|sit|lay)` after an optional `_` or `-`. */
  predicate PoseWord(s: string) {
    Starts(s, "stand") || Starts(s, "sit") || Starts(s, "lay")
  }

  /** `base` or `pose`, and such a word behind it. */
  predicate PoseLabelAt(text: string, i: int)
    requires 0 <= i <= |text|
  {
    && (Starts(text[i..], "base") || Starts(text[i..], "pose"))
    && (PoseWord(text[i + 4..]) || (i + 4 < |text| && (text[i + 4] == '_' || text[i + 4] == '-') && PoseWord(text[i + 5..])))
  }

  predicate PoseLabel(text: string) {
    exists i :: 0 <= i <= |text| && PoseLabelAt(text, i)
  }

  predicate IsPriorityPose(file: FileRef, names: set<string>, lowerNames: set<string>) {
    var name := AnimationName(file, "");
    name in names || Lower(name) in lowerNames || PoseLabel(Lower(file.originalName + " " + file.filename))
  }

  // ---- The plan

  datatype Options = Options(maxLibraryBytes: int, maxLibraryFiles: int, maxGoonBytes: int, maxGoonFiles: int, priorityNames: seq<string>)

  /** The names, given without blanks around them; an empty one names nothing. */
  function Names(options: Options): set<string> {
    set n | n in options.priorityNames && n != ""
  }

  function LowerNames(names: set<string>): set<string> {
    set n | n in names :: Lower(n)
  }

  function Select(files: seq<FileRef>, names: set<string>): seq<FileRef> {
    if files == [] then []
    else
      var rest := Select(files[..|files| - 1], names);
      if IsPriorityPose(files[|files| - 1], names, LowerNames(names)) then rest + [files[|files| - 1]] else rest
  }

  function Without(files: seq<FileRef>, keys: set<string>): seq<FileRef> {
    if files == [] then []
    else
      var rest := Without(files[..|files| - 1], keys);
      if FileKey(files[|files| - 1]) in keys then rest else rest + [files[|files| - 1]]
  }

  lemma {:induction false} SelectKeys(files: seq<FileRef>, names: set<string>)
    ensures Keys(Select(files, names)) <= Keys(files)
  {
    if files != [] {
      var n := |files| - 1;
      SelectKeys(files[..n], names);
      KeysNext(files[..n], files[n]);
      KeysNext(Select(files[..n], names), files[n]);
      assert files == files[..n] + [files[n]];
    }
  }

  lemma {:induction false} WithoutKeys(files: seq<FileRef>, keys: set<string>)
    ensures Keys(Without(files, keys)) == Keys(files) - keys
  {
    if files != [] {
      var n := |files| - 1;
      WithoutKeys(files[..n], keys);
      KeysNext(files[..n], files[n]);
      KeysNext(Without(files[..n], keys), files[n]);
      assert files == files[..n] + [files[n]];
    }
  }

  lemma {:induction false} SameFilesSameKeys(a: seq<FileRef>, b: seq<FileRef>)
    requires multiset(a) == multiset(b)
    ensures Keys(a) == Keys(b)
  {
    forall key | key in Keys(a) ensures key in Keys(b) {
      var i :| 0 <= i < |a| && FileKey(a[i]) != "" && FileKey(a[i]) == key;
      assert a[i] in multiset(b);
      var j :| 0 <= j < |b| && b[j] == a[i];
    }
    forall key | key in Keys(b) ensures key in Keys(a) {
      var i :| 0 <= i < |b| && FileKey(b[i]) != "" && FileKey(b[i]) == key;
      assert b[i] in multiset(a);
      var j :| 0 <= j < |a| && a[j] == b[i];
    }
  }

  lemma {:induction false} SelectMembers(files: seq<FileRef>, names: set<string>)
    ensures forall f :: f in Select(files, names) <==> f in files && IsPriorityPose(f, names, LowerNames(names))
  {
    hide IsPriorityPose, LowerNames;
    if files != [] {
      SelectMembers(files[..|files| - 1], names);
      assert files == files[..|files| - 1] + [files[|files| - 1]];
    }
  }

  /** Selecting goes file by file, in the order given. */
  lemma {:induction false} SelectsInOrder(a: seq<FileRef>, b: seq<FileRef>, file: FileRef, names: set<string>)
    ensures Select([file], names) == if IsPriorityPose(file, names, LowerNames(names)) then [file] else []
    ensures Select(a + b, names) == Select(a, names) + Select(b, names)
    decreases |b|
  {
    hide IsPriorityPose, LowerNames;
    assert [file][..0] == [];
    if b == [] {
      assert a + b == a;
    } else {
      var n := |b| - 1;
      SelectsInOrder(a, b[..n], file, names);
      assert (a + b)[..|a + b| - 1] == a + b[..n] && (a + b)[|a + b| - 1] == b[n];
    }
  }

  /** So does dropping. */
  lemma {:induction false} DropsInOrder(a: seq<FileRef>, b: seq<FileRef>, file: FileRef, keys: set<string>)
    ensures Without([file], keys) == if FileKey(file) in keys then [] else [file]
    ensures Without(a + b, keys) == Without(a, keys) + Without(b, keys)
    decreases |b|
  {
    hide FileKey;
    assert [file][..0] == [];
    if b == [] {
      assert a + b == a;
    } else {
      var n := |b| - 1;
      DropsInOrder(a, b[..n], file, keys);
      assert (a + b)[..|a + b| - 1] == a + b[..n] && (a + b)[|a + b| - 1] == b[n];
    }
  }

  /** The files that come first: one per key, in the order they are given. */
  function Priority(libraryFiles: seq<FileRef>, goonFiles: seq<FileRef>, names: set<string>): seq<FileRef> {
    FirstOfKey(Select(libraryFiles + goonFiles, names), {})
  }

  /** They are priority poses, and every priority pose with a key is among them, or another one with its key. */
  lemma PriorityMembers(libraryFiles: seq<FileRef>, goonFiles: seq<FileRef>, names: set<string>)
    ensures forall f :: f in Priority(libraryFiles, goonFiles, names) ==> f in libraryFiles + goonFiles && IsPriorityPose(f, names, LowerNames(names))
    ensures forall f :: f in libraryFiles + goonFiles && IsPriorityPose(f, names, LowerNames(names)) && FileKey(f) != "" ==>
      FileKey(f) in Keys(Priority(libraryFiles, goonFiles, names))
  {
    var selected := Select(libraryFiles + goonFiles, names);
    SelectMembers(libraryFiles + goonFiles, names);
    DedupeConserves(selected, {});
    hide IsPriorityPose, LowerNames, Select, FirstOfKey, DistinctKeys, FileKey;
    forall f | f in selected && FileKey(f) != "" ensures FileKey(f) in Keys(selected) {
      var i :| 0 <= i < |selected| && selected[i] == f;
      assert FileKey(selected[i]) in Keys(selected);
    }
  }

  lemma LastKeyIsNew(files: seq<FileRef>)
    requires DistinctKeys(files) && files != []
    ensures FileKey(files[|files| - 1]) != "" && FileKey(files[|files| - 1]) !in Keys(files[..|files| - 1]) && DistinctKeys(files[..|files| - 1])
  {}

  lemma {:induction false} DistinctStay(files: seq<FileRef>)
    requires DistinctKeys(files)
    ensures FirstOfKey(files, {}) == files
  {
    hide Keys, DistinctKeys, FileKey;
    if files != [] {
      var n := |files| - 1;
      LastKeyIsNew(files);
      DistinctStay(files[..n]);
      assert files == files[..n] + [files[n]];
    }
  }

  lemma {:induction false} FirstsStayFirst(files: seq<FileRef>, more: seq<FileRef>)
    requires DistinctKeys(files)
    ensures files <= FirstOfKey(files + more, {})
  {
    if more == [] {
      DistinctStay(files);
      assert files + more == files;
    } else {
      var n := |more| - 1;
      FirstsStayFirst(files, more[..n]);
      assert (files + more)[..|files| + n] == files + more[..n];
    }
  }

  /** What the two partitions and the two removals of duplicates do to the keys. */
  lemma PlanKeys(all: seq<FileRef>, first: seq<FileRef>, eager: seq<FileRef>, deferred: seq<FileRef>)
    requires DistinctKeys(first) && Keys(first) <= Keys(all)
    requires Keys(eager) + Keys(deferred) == Keys(all) - Keys(first)
    ensures
      var now := FirstOfKey(first + eager, {});
      var later := FirstOfKey(deferred, Keys(first + eager));
      && first <= now && |now| <= |first| + |eager|
      && DistinctKeys(now + later) && Keys(now + later) == Keys(all)
  {
    hide Keys, DistinctKeys, FirstOfKey;
    FirstsStayFirst(first, eager);
    DedupeConserves(first + eager, {});
    DedupeConserves(deferred, Keys(first + eager));
    KeysJoin(first, eager);
    var now, later := FirstOfKey(first + eager, {}), FirstOfKey(deferred, Keys(first + eager));
    KeysJoin(now, later);
    DistinctJoin(now, later);
    assert |now| <= |first + eager|;
    assert Keys(now + later) == Keys(first) + (Keys(eager) + Keys(deferred));
    assert Keys(first) + (Keys(all) - Keys(first)) == Keys(all);
  }

  lemma DistinctJoin(a: seq<FileRef>, b: seq<FileRef>)
    requires DistinctKeys(a) && DistinctKeys(b) && Keys(a) !! Keys(b)
    ensures DistinctKeys(a + b)
  {
    forall i, j | 0 <= i < |a| && 0 <= j < |b| ensures FileKey(a[i]) != FileKey(b[j]) {
      assert FileKey(a[i]) in Keys(a) && FileKey(b[j]) in Keys(b);
    }
  }

  lemma PartitionKeys(files: seq<FileRef>, maxBytes: int, maxFiles: int, eager: seq<FileRef>, deferred: seq<FileRef>)
    requires Partition(files, maxBytes, maxFiles, eager, deferred)
    ensures Keys(eager) + Keys(deferred) == Keys(files) && |eager| <= Max(0, maxFiles)
  {
    SortBySizeSorts(files, FallbackSize(maxBytes, maxFiles));
    SameFilesSameKeys(eager + deferred, files);
    KeysJoin(eager, deferred);
  }

  lemma AllKeys(libraryFiles: seq<FileRef>, goonFiles: seq<FileRef>, keys: set<string>)
    ensures Keys(Without(libraryFiles, keys)) + Keys(Without(goonFiles, keys)) == Keys(libraryFiles + goonFiles) - keys
  {
    WithoutKeys(libraryFiles, keys);
    WithoutKeys(goonFiles, keys);
    KeysJoin(libraryFiles, goonFiles);
    hide Keys;
  }

  /** The plan made of the two partitions: priority poses, then the eager files, each key once, then the deferred ones. */
  ghost predicate PlanOf(libraryFiles: seq<FileRef>, goonFiles: seq<FileRef>, options: Options, priority: seq<FileRef>,
                         eager: seq<FileRef>, deferred: seq<FileRef>) {
    exists libraryEager, libraryDeferred, goonEager, goonDeferred ::
      && Partition(Without(libraryFiles, Keys(priority)), options.maxLibraryBytes, options.maxLibraryFiles, libraryEager, libraryDeferred)
      && Partition(Without(goonFiles, Keys(priority)), options.maxGoonBytes, options.maxGoonFiles, goonEager, goonDeferred)
      && eager == FirstOfKey(priority + (libraryEager + goonEager), {})
      && deferred == FirstOfKey(libraryDeferred + goonDeferred, Keys(priority + (libraryEager + goonEager)))
  }

  /**
   * Every key is planned exactly once; the poses that must be there at once come first; the rest of the eager part
   * stays within the two file limits, each partition within its own.
   */
  method BuildLoadPlan(libraryFiles: seq<FileRef>, goonFiles: seq<FileRef>, options: Options) returns (eager: seq<FileRef>, deferred: seq<FileRef>)
    ensures DistinctKeys(eager + deferred) && Keys(eager + deferred) == Keys(libraryFiles + goonFiles)
    ensures
      var priority := Priority(libraryFiles, goonFiles, Names(options));
      && priority <= eager
      && |eager| <= |priority| + Max(0, options.maxLibraryFiles) + Max(0, options.maxGoonFiles)
      && PlanOf(libraryFiles, goonFiles, options, priority, eager, deferred)
  {
    hide Keys, DistinctKeys, FirstOfKey, SortBySize, Without, Select, FallbackSize, Sum, Partition;
    var all := libraryFiles + goonFiles;
    var poses := Select(all, Names(options));
    var priority, priorityKeys := DedupeFiles(poses, {});
    DedupeConserves(poses, {});
    SelectKeys(all, Names(options));
    assert Keys(priority) == priorityKeys && Keys(priority) <= Keys(all);
    var library, goon := Without(libraryFiles, priorityKeys), Without(goonFiles, priorityKeys);
    var libraryEager, libraryDeferred := PartitionBySize(library, options.maxLibraryBytes, options.maxLibraryFiles);
    var goonEager, goonDeferred := PartitionBySize(goon, options.maxGoonBytes, options.maxGoonFiles);
    PartitionKeys(library, options.maxLibraryBytes, options.maxLibraryFiles, libraryEager, libraryDeferred);
    PartitionKeys(goon, options.maxGoonBytes, options.maxGoonFiles, goonEager, goonDeferred);
    AllKeys(libraryFiles, goonFiles, priorityKeys);
    KeysJoin(libraryEager, goonEager);
    KeysJoin(libraryDeferred, goonDeferred);
    var seen: set<string>;
    eager, seen := DedupeFiles(priority + (libraryEager + goonEager), {});
    assert seen == Keys(priority + (libraryEager + goonEager));
    deferred, seen := DedupeFiles(libraryDeferred + goonDeferred, seen);
    PlanKeys(all, priority, libraryEager + goonEager, libraryDeferred + goonDeferred);
  }
}
