/** Motion files that share a name form one entry of the library, shown with the metadata of one of them. */
module MotionGroups {
  import opened AnimationNames

  // ---- The file whose metadata is shown

  function Score(file: FileRef): int {
    if file.metaUpdatedAt != 0 then file.metaUpdatedAt else file.uploadedAt
  }

  /** `a` beats `b`: a later stamp, or as late a stamp and the VRM lane against the GLB lane. */
  predicate Beats(a: FileRef, b: FileRef) {
    Score(a) > Score(b) || (Score(a) == Score(b) && LaneOf(a) == Vrm && LaneOf(b) == Glb)
  }

  function Filtered(files: seq<FileRef>, keep: FileRef -> bool): seq<FileRef> {
    if files == [] then []
    else
      var rest := Filtered(files[..|files| - 1], keep);
      if keep(files[|files| - 1]) then rest + [files[|files| - 1]] else rest
  }

  lemma {:induction false} FilteredMembers(files: seq<FileRef>, keep: FileRef -> bool)
    ensures forall f :: f in Filtered(files, keep) <==> f in files && keep(f)
  {
    if files != [] {
      var n := |files| - 1;
      FilteredMembers(files[..n], keep);
      assert files == files[..n] + [files[n]];
    }
  }

  predicate Stamped(file: FileRef) {
    file.metaUpdatedAt > 0
  }

  predicate Authored(file: FileRef) {
    file.authored
  }

  /** Explicitly edited files, or else those with metadata of their own, or else all. */
  function Pool(files: seq<FileRef>): (pool: seq<FileRef>)
    requires files != []
    ensures pool != [] && forall f :: f in pool ==> f in files
  {
    FilteredMembers(files, Stamped);
    FilteredMembers(files, Authored);
    if exists f :: f in files && Stamped(f) then
      assert Filtered(files, Stamped) != [] by {
        var f :| f in files && Stamped(f);
        assert f in Filtered(files, Stamped);
      }
      Filtered(files, Stamped)
    else if exists f :: f in files && Authored(f) then
      assert Filtered(files, Authored) != [] by {
        var f :| f in files && Authored(f);
        assert f in Filtered(files, Authored);
      }
      Filtered(files, Authored)
    else files
  }

  /** The first of the best: nothing in the pool beats it, and it beats everything before it. */
  predicate WinsAt(pool: seq<FileRef>, i: nat) {
    && i < |pool|
    && (forall j :: 0 <= j < |pool| ==> !Beats(pool[j], pool[i]))
    && (forall j :: 0 <= j < i ==> Beats(pool[i], pool[j]))
  }

  ghost predicate Wins(files: seq<FileRef>, winner: FileRef)
    requires files != []
  {
    exists i: nat :: WinsAt(Pool(files), i) && winner == Pool(files)[i]
  }

  /** One more file challenges the winner so far. */
  lemma Challenge(pool: seq<FileRef>, i: nat, at: nat)
    requires i < |pool| && WinsAt(pool[..i], at)
    ensures if Beats(pool[i], pool[at]) then WinsAt(pool[..i + 1], i) else WinsAt(pool[..i + 1], at)
  {}

  lemma BeatsNotItself(a: FileRef)
    ensures !Beats(a, a)
  {}

  method MetadataWinner(files: seq<FileRef>) returns (winner: FileRef)
    requires files != []
    ensures Wins(files, winner)
  {
    hide LaneOf, Pool;
    if |files| == 1 {
      SinglePool(files);
      BeatsNotItself(files[0]);
      assert WinsAt(Pool(files), 0);
      return files[0];
    }
    var pool := Pool(files);
    winner := pool[0];
    ghost var at: nat := 0;
    BeatsNotItself(winner);
    for i := 1 to |pool|
      invariant at < i && winner == pool[at] && WinsAt(pool[..i], at)
    {
      Challenge(pool, i, at);
      var winnerScore, fileScore := Score(winner), Score(pool[i]);
      if fileScore > winnerScore || (fileScore == winnerScore && LaneOf(pool[i]) == Vrm && LaneOf(winner) == Glb) {
        winner := pool[i];
        at := i;
      }
    }
    assert pool[..|pool|] == pool;
    assert WinsAt(pool, at);
  }

  lemma FilteredOne(file: FileRef, keep: FileRef -> bool)
    ensures Filtered([file], keep) == if keep(file) then [file] else []
  {}

  lemma SinglePool(files: seq<FileRef>)
    requires |files| == 1
    ensures Pool(files) == files
  {
    assert files == [files[0]];
    FilteredOne(files[0], Stamped);
    FilteredOne(files[0], Authored);
    assert forall f :: f in files ==> f == files[0];
  }

  /** There is one winner: its score is the highest, and no GLB file wins against a VRM file of that score. */
  lemma WinnerIsUnique(pool: seq<FileRef>, i: nat, j: nat)
    requires WinsAt(pool, i) && WinsAt(pool, j)
    ensures i == j
    ensures forall f :: f in pool ==> Score(f) <= Score(pool[i]) && (Score(f) == Score(pool[i]) && LaneOf(f) == Vrm ==> LaneOf(pool[i]) == Vrm)
  {
    var a, b := pool[i], pool[j];
    assert i < j ==> Beats(b, a);
    assert j < i ==> Beats(a, b);
    hide LaneOf;
  }

  /** Which files the metadata is taken from: the edited ones, or else the authored ones, or else all. */
  predicate Eligible(files: seq<FileRef>, file: FileRef) {
    if exists f :: f in files && f.metaUpdatedAt > 0 then file.metaUpdatedAt > 0
    else if exists f :: f in files && f.authored then file.authored
    else true
  }

  /** When the file was edited, or else uploaded. */
  function TouchedAt(file: FileRef): int {
    if file.metaUpdatedAt == 0 then file.uploadedAt else file.metaUpdatedAt
  }

  /** What is kept keeps its order. */
  lemma {:induction false} FilteredPlace(files: seq<FileRef>, keep: FileRef -> bool, i: nat) returns (k: nat)
    requires i < |Filtered(files, keep)|
    ensures k < |files| && files[k] == Filtered(files, keep)[i] && keep(files[k])
    ensures forall j :: 0 <= j < k && keep(files[j]) ==> files[j] in Filtered(files, keep)[..i]
  {
    var n := |files| - 1;
    var rest := Filtered(files[..n], keep);
    if i < |rest| {
      k := FilteredPlace(files[..n], keep, i);
      assert Filtered(files, keep)[..i] == rest[..i];
    } else {
      k := n;
      FilteredMembers(files[..n], keep);
      assert Filtered(files, keep)[..i] == rest;
      assert forall j :: 0 <= j < n ==> files[j] == files[..n][j];
    }
  }

  lemma PoolPlace(files: seq<FileRef>, i: nat) returns (k: nat)
    requires files != [] && i < |Pool(files)|
    ensures k < |files| && files[k] == Pool(files)[i] && Eligible(files, files[k])
    ensures forall j :: 0 <= j < k && Eligible(files, files[j]) ==> files[j] in Pool(files)[..i]
    ensures forall f :: f in files && Eligible(files, f) ==> f in Pool(files)
  {
    FilteredMembers(files, Stamped);
    FilteredMembers(files, Authored);
    if exists f :: f in files && Stamped(f) {
      k := FilteredPlace(files, Stamped, i);
    } else if exists f :: f in files && Authored(f) {
      k := FilteredPlace(files, Authored, i);
    } else {
      k := i;
      assert forall j :: 0 <= j < k ==> files[j] in files[..i];
    }
  }

  /**
   * The metadata shown is that of the eligible file touched last; of those touched at one time, that of a VRM file rather
   * than a GLB file, and then of the file given first.
   */
  lemma ShownMetadata(files: seq<FileRef>, winner: FileRef)
    requires files != [] && Wins(files, winner)
    ensures forall f :: f in files && Eligible(files, f) ==> TouchedAt(f) <= TouchedAt(winner)
    ensures forall f :: f in files && Eligible(files, f) && TouchedAt(f) == TouchedAt(winner) && LaneOf(f) == Vrm ==> LaneOf(winner) == Vrm
    ensures
      exists k :: 0 <= k < |files| && files[k] == winner && Eligible(files, winner)
        && forall j :: 0 <= j < k && Eligible(files, files[j]) && TouchedAt(files[j]) == TouchedAt(winner) ==>
             LaneOf(files[j]) == Glb && LaneOf(winner) == Vrm
  {
    var i: nat :| WinsAt(Pool(files), i) && winner == Pool(files)[i];
    var k := PoolPlace(files, i);
    hide LaneOf, Pool, Eligible;
    assert files[k] == winner;
    assert forall j :: 0 <= j < k && Eligible(files, files[j]) ==> Beats(winner, files[j]);
  }

  // ---- Grouping

  datatype Entry = Entry(name: string, files: seq<FileRef>, vrma: seq<FileRef>, glb: seq<FileRef>, primary: FileRef)

  function NameOf(file: FileRef): string {
    AnimationName(file, Or(file.filename, file.url))
  }

  /** The names in the order in which they first appear. */
  function NamesOf(files: seq<FileRef>): seq<string> {
    if files == [] then []
    else
      var rest := NamesOf(files[..|files| - 1]);
      var name := NameOf(files[|files| - 1]);
      if name == "" || name in rest then rest else rest + [name]
  }

  function Bucket(files: seq<FileRef>, name: string): seq<FileRef> {
    Filtered(files, f => NameOf(f) == name)
  }

  /** The first file of a lane, as a sequence of at most one. */
  function FirstOf(files: seq<FileRef>, lane: Lane): (first: seq<FileRef>) {
    if files == [] then [] else if LaneOf(files[0]) == lane then [files[0]] else FirstOf(files[1..], lane)
  }

  ghost predicate EntryFits(entry: Entry, files: seq<FileRef>, name: string) {
    && entry.name == name && entry.files == Bucket(files, name) && entry.files != []
    && entry.vrma == FirstOf(entry.files, Vrm) && entry.glb == FirstOf(entry.files, Glb)
    && Wins(entry.files, entry.primary)
  }

  /** The table holds the bucket of every name so far. */
  ghost predicate Collected(files: seq<FileRef>, names: seq<string>, buckets: map<string, seq<FileRef>>) {
    && names == NamesOf(files) && "" !in buckets
    && (forall n :: n in buckets <==> n in names)
    && (forall n :: n in buckets ==> buckets[n] == Bucket(files, n) && buckets[n] != [])
    && (forall n :: n !in buckets && n != "" ==> Bucket(files, n) == [])
  }

  lemma BucketNext(files: seq<FileRef>, file: FileRef, n: string)
    ensures Bucket(files + [file], n) == Bucket(files, n) + if NameOf(file) == n then [file] else []
  {}

  lemma CollectedNext(files: seq<FileRef>, names: seq<string>, buckets: map<string, seq<FileRef>>, file: FileRef)
    requires Collected(files, names, buckets)
    ensures
      var name := NameOf(file);
      if name == "" then Collected(files + [file], names, buckets)
      else
        Collected(files + [file], if name in buckets then names else names + [name],
                  buckets[name := (if name in buckets then buckets[name] else []) + [file]])
  {
    hide NameOf;
    assert (files + [file])[..|files|] == files;
    forall n ensures Bucket(files + [file], n) == Bucket(files, n) + if NameOf(file) == n then [file] else [] { BucketNext(files, file, n); }
    hide Bucket;
  }

  method GroupEntries(files: seq<FileRef>) returns (entries: seq<Entry>)
    ensures |entries| == |NamesOf(files)|
    ensures forall k :: 0 <= k < |entries| ==> EntryFits(entries[k], files, NamesOf(files)[k])
  {
    hide NameOf, Wins, FirstOf, Pool;
    var names: seq<string> := [];
    var buckets: map<string, seq<FileRef>> := map[];
    for i := 0 to |files|
      invariant Collected(files[..i], names, buckets)
    {
      CollectedNext(files[..i], names, buckets, files[i]);
      assert files[..i + 1] == files[..i] + [files[i]];
      hide Collected;
      var name := NameOf(files[i]);
      if name != "" {
        var bucket := if name in buckets then buckets[name] else [];
        if name !in buckets { names := names + [name]; }
        buckets := buckets[name := bucket + [files[i]]];
      }
    }
    assert files[..|files|] == files;
    entries := [];
    for k := 0 to |names|
      invariant |entries| == k && forall m :: 0 <= m < k ==> EntryFits(entries[m], files, names[m])
    {
      var bucket := buckets[names[k]];
      var primary := MetadataWinner(bucket);
      entries := entries + [Entry(names[k], bucket, FirstOf(bucket, Vrm), FirstOf(bucket, Glb), primary)];
    }
  }

  /** The names are distinct and are exactly those of the named files. */
  lemma {:induction false} NamesAre(files: seq<FileRef>)
    ensures forall n :: n in NamesOf(files) <==> n != "" && exists f :: f in files && NameOf(f) == n
    ensures forall i, j :: 0 <= i < j < |NamesOf(files)| ==> NamesOf(files)[i] != NamesOf(files)[j]
  {
    if files != [] {
      var n := |files| - 1;
      NamesAre(files[..n]);
      assert files == files[..n] + [files[n]];
    }
  }

  /** A name stands before another exactly because a file of it comes before all files of the other. */
  lemma {:induction false} NamesInOrder(files: seq<FileRef>, a: nat, b: nat)
    requires a < b < |NamesOf(files)|
    ensures exists i :: 0 <= i < |files| && NameOf(files[i]) == NamesOf(files)[a] && forall j :: 0 <= j <= i ==> NameOf(files[j]) != NamesOf(files)[b]
    decreases |files|
  {
    hide NameOf;
    var n := |files| - 1;
    var rest := NamesOf(files[..n]);
    NamesAre(files[..n]);
    NamesAre(files);
    if b < |rest| {
      NamesInOrder(files[..n], a, b);
      var i :| 0 <= i < n && NameOf(files[..n][i]) == rest[a] && forall j :: 0 <= j <= i ==> NameOf(files[..n][j]) != rest[b];
      assert forall j :: 0 <= j <= i ==> files[..n][j] == files[j];
    } else {
      assert rest[a] in rest;
      var f :| f in files[..n] && NameOf(f) == rest[a];
      var i :| 0 <= i < n && files[..n][i] == f;
      forall j | 0 <= j <= i ensures NameOf(files[j]) != NamesOf(files)[b] {
        assert files[..n][j] in files[..n];
        assert NamesOf(files)[b] !in rest && NamesOf(files)[b] != "";
      }
    }
  }

  /** The first file of a lane is there exactly when the lane has one, and no file of the lane comes before it. */
  lemma {:induction false} FirstOfIs(files: seq<FileRef>, lane: Lane)
    ensures FirstOf(files, lane) == [] <==> forall f :: f in files ==> LaneOf(f) != lane
    ensures FirstOf(files, lane) != [] ==>
      exists i :: 0 <= i < |files| && FirstOf(files, lane) == [files[i]] && LaneOf(files[i]) == lane && forall j :: 0 <= j < i ==> LaneOf(files[j]) != lane
  {
    hide LaneOf;
    if files != [] && LaneOf(files[0]) != lane {
      FirstOfIs(files[1..], lane);
      assert files == [files[0]] + files[1..];
      if FirstOf(files, lane) != [] {
        var i :| 0 <= i < |files[1..]| && FirstOf(files[1..], lane) == [files[1..][i]] && LaneOf(files[1..][i]) == lane
                 && forall j :: 0 <= j < i ==> LaneOf(files[1..][j]) != lane;
        assert files[i + 1] == files[1..][i];
        assert forall j :: 0 < j <= i ==> files[j] == files[1..][j - 1];
      }
    }
  }

  function Joined(files: seq<FileRef>, names: seq<string>): multiset<FileRef> {
    if names == [] then multiset{} else Joined(files, names[..|names| - 1]) + multiset(Bucket(files, names[|names| - 1]))
  }

  lemma {:induction false} JoinedNext(files: seq<FileRef>, file: FileRef, names: seq<string>)
    requires forall i, j :: 0 <= i < j < |names| ==> names[i] != names[j]
    ensures Joined(files + [file], names) == Joined(files, names) + if NameOf(file) in names then multiset{file} else multiset{}
  {
    if names != [] {
      var n := |names| - 1;
      JoinedNext(files, file, names[..n]);
      assert (files + [file])[..|files|] == files;
      assert names == names[..n] + [names[n]];
    }
  }

  /** The entries partition the named files: each is in exactly one of them, as often as it was given. */
  lemma {:induction false} GroupingPartitions(files: seq<FileRef>)
    ensures Joined(files, NamesOf(files)) == multiset(Filtered(files, f => NameOf(f) != ""))
  {
    if files != [] {
      var n := |files| - 1;
      var rest, last := files[..n], files[n];
      assert files == rest + [last];
      GroupingPartitions(rest);
      NamesAre(rest);
      JoinedNext(rest, last, NamesOf(rest));
      if NameOf(last) != "" && NameOf(last) !in NamesOf(rest) {
        NewBucket(rest, last);
      }
    }
  }

  lemma NewBucket(rest: seq<FileRef>, last: FileRef)
    requires NameOf(last) != "" && NameOf(last) !in NamesOf(rest)
    ensures Joined(rest + [last], NamesOf(rest) + [NameOf(last)]) == Joined(rest + [last], NamesOf(rest)) + multiset{last}
  {
    var name := NameOf(last);
    var names := NamesOf(rest) + [name];
    NamesAre(rest);
    EmptyBucket(rest, name);
    BucketNext(rest, last, name);
    hide NameOf, Bucket;
    assert names[..|names| - 1] == NamesOf(rest) && names[|names| - 1] == name;
  }

  lemma {:induction false} EmptyBucket(files: seq<FileRef>, name: string)
    requires forall f :: f in files ==> NameOf(f) != name
    ensures Bucket(files, name) == []
  {
    hide NameOf;
    if files != [] {
      var n := |files| - 1;
      assert files == files[..n] + [files[n]];
      EmptyBucket(files[..n], name);
    }
  }
}
