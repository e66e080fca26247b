/**
 * Pruning the cache directory: newest entries first, within a byte and an entry limit, and never the entry just stored.
 * What stays is said of the files by their times, sizes and paths.
 */
module CachePrune {
  import opened Outcomes
  import opened Sorting

  /** A file name, as code points. */
  type Path = seq<int>

  datatype Stat = Stat(mtime: int, size: nat)

  datatype Entry = Entry(mtime: int, size: nat, path: Path)

  // ---- Recency order

  /** `a` comes before `b` in the reversed order of (mtime, size, path). */
  predicate Before(a: Entry, b: Entry) {
    || a.mtime > b.mtime
    || (a.mtime == b.mtime && (a.size > b.size || (a.size == b.size && LexLess(b.path, a.path))))
  }

  lemma BeforeIsStrict()
    ensures StrictOrder(Before)
  {
    forall a: Entry, b: Entry ensures (a == b || Before(a, b) || Before(b, a)) && !(Before(a, b) && Before(b, a)) {
      LexTotal(a.path, b.path);
    }
    forall a: Entry, b: Entry, c: Entry | Before(a, b) && Before(b, c) ensures Before(a, c) {
      if LexLess(b.path, a.path) && LexLess(c.path, b.path) { LexTransitive(c.path, b.path, a.path); }
    }
  }

  /** `entries.sort(reverse=True)`. */
  function NewestFirst(entries: seq<Entry>): seq<Entry> {
    Sort(entries, Before)
  }

  // ---- The greedy choice

  datatype Limits = Limits(maxBytes: nat, maxEntries: nat)

  function Total(entries: seq<Entry>): nat {
    if entries == [] then 0 else Total(entries[..|entries| - 1]) + entries[|entries| - 1].size
  }

  predicate Spared(e: Entry, keep: Option<Path>) {
    keep == Some(e.path)
  }

  /** Whether an entry is kept at its turn, when these were kept before it. */
  predicate StaysAfter(before: seq<Entry>, e: Entry, keep: Option<Path>, limits: Limits) {
    Spared(e, keep) || (|before| < limits.maxEntries && Total(before) + e.size <= limits.maxBytes)
  }

  function Kept(entries: seq<Entry>, keep: Option<Path>, limits: Limits): seq<Entry> {
    if entries == [] then []
    else
      var last := entries[|entries| - 1];
      var before := Kept(entries[..|entries| - 1], keep, limits);
      if StaysAfter(before, last, keep, limits) then before + [last] else before
  }

  lemma {:induction false} KeptMembers(entries: seq<Entry>, keep: Option<Path>, limits: Limits)
    ensures |Kept(entries, keep, limits)| <= |entries|
    ensures forall e :: e in Kept(entries, keep, limits) ==> e in entries
  {
    if entries != [] {
      KeptMembers(entries[..|entries| - 1], keep, limits);
    }
  }

  /** An entry is kept exactly when it is the spared one, or fitted both limits when its turn came, newest first. */
  lemma {:induction false} KeptAtItsTurn(entries: seq<Entry>, keep: Option<Path>, limits: Limits, i: nat)
    requires NoDuplicates(entries) && i < |entries|
    ensures entries[i] in Kept(entries, keep, limits) <==> StaysAfter(Kept(entries[..i], keep, limits), entries[i], keep, limits)
    decreases |entries|
  {
    var n := |entries| - 1;
    var shorter := entries[..n];
    if i < n {
      KeptAtItsTurn(shorter, keep, limits, i);
      assert shorter[..i] == entries[..i];
    } else {
      KeptMembers(shorter, keep, limits);
      assert entries[i] !in shorter;
    }
  }

  predicate DistinctPaths(entries: seq<Entry>) {
    forall i, j :: 0 <= i < j < |entries| ==> entries[i].path != entries[j].path
  }

  /** The size of the spared entry, if it is there. */
  function SparedSize(entries: seq<Entry>, keep: Option<Path>): nat {
    if entries == [] then 0
    else if Spared(entries[|entries| - 1], keep) then entries[|entries| - 1].size
    else SparedSize(entries[..|entries| - 1], keep)
  }

  predicate HasSpared(entries: seq<Entry>, keep: Option<Path>) {
    exists e :: e in entries && Spared(e, keep)
  }

  lemma TotalNext(entries: seq<Entry>, e: Entry)
    ensures Total(entries + [e]) == Total(entries) + e.size
  {
    assert (entries + [e])[..|entries|] == entries;
  }

  /** The limits are exceeded by the spared entry at most. */
  lemma {:induction false} KeptWithinLimits(entries: seq<Entry>, keep: Option<Path>, limits: Limits)
    requires DistinctPaths(entries)
    ensures |Kept(entries, keep, limits)| <= limits.maxEntries + (if HasSpared(entries, keep) then 1 else 0)
    ensures Total(Kept(entries, keep, limits)) <= limits.maxBytes + SparedSize(entries, keep)
    ensures !HasSpared(entries, keep) ==> SparedSize(entries, keep) == 0
  {
    if entries != [] {
      var n := |entries| - 1;
      var shorter, last := entries[..n], entries[n];
      KeptWithinLimits(shorter, keep, limits);
      SparedOnce(entries, keep);
      TotalNext(Kept(shorter, keep, limits), last);
      hide HasSpared, DistinctPaths;
    }
  }

  lemma SparedOnce(entries: seq<Entry>, keep: Option<Path>)
    requires DistinctPaths(entries) && entries != []
    ensures
      var n := |entries| - 1;
      if Spared(entries[n], keep) then HasSpared(entries, keep) && !HasSpared(entries[..n], keep)
      else HasSpared(entries, keep) == HasSpared(entries[..n], keep)
  {
    var n := |entries| - 1;
    assert entries == entries[..n] + [entries[n]];
  }

  lemma {:induction false} SparedIsKept(entries: seq<Entry>, keep: Option<Path>, limits: Limits)
    requires HasSpared(entries, keep)
    ensures HasSpared(Kept(entries, keep, limits), keep)
  {
    var n := |entries| - 1;
    assert entries == entries[..n] + [entries[n]];
    var before := Kept(entries[..n], keep, limits);
    if Spared(entries[n], keep) {
      assert entries[n] in before + [entries[n]];
    } else {
      SparedIsKept(entries[..n], keep, limits);
      var e :| e in before && Spared(e, keep);
      assert e in before + [entries[n]];
    }
  }

  /** When the spared entry is the newest, the limits hold, but for the bytes of that one entry. */
  lemma {:induction false} NewestSparedFits(entries: seq<Entry>, keep: Option<Path>, limits: Limits)
    requires DistinctPaths(entries) && entries != [] && Spared(entries[0], keep) && limits.maxEntries >= 1
    ensures |Kept(entries, keep, limits)| <= limits.maxEntries
    ensures Total(Kept(entries, keep, limits)) <= if limits.maxBytes < entries[0].size then entries[0].size else limits.maxBytes
    decreases |entries|
  {
    var n := |entries| - 1;
    var shorter, last := entries[..n], entries[n];
    var before := Kept(shorter, keep, limits);
    assert (before + [last])[..|before|] == before;
    if n == 0 {
      assert before == [];
    } else {
      NewestSparedFits(shorter, keep, limits);
    }
  }

  /** The turn of the spared entry comes when the others kept before it already fill the entry limit. */
  ghost predicate SparedIntoFull(entries: seq<Entry>, keep: Option<Path>, limits: Limits) {
    exists i :: 0 <= i < |entries| && Spared(entries[i], keep) && |Kept(entries[..i], keep, limits)| >= limits.maxEntries
  }

  /** Its turn comes when it does not fit beside the bytes kept before it. */
  ghost predicate SparedTooLarge(entries: seq<Entry>, keep: Option<Path>, limits: Limits) {
    exists i :: 0 <= i < |entries| && Spared(entries[i], keep) && Total(Kept(entries[..i], keep, limits)) + entries[i].size > limits.maxBytes
  }

  /** Without a spared entry both limits hold. */
  lemma {:induction false} NoneSpared(entries: seq<Entry>, keep: Option<Path>, limits: Limits)
    requires forall e :: e in entries ==> !Spared(e, keep)
    ensures |Kept(entries, keep, limits)| <= limits.maxEntries && Total(Kept(entries, keep, limits)) <= limits.maxBytes
  {
    if entries != [] {
      var n := |entries| - 1;
      NoneSpared(entries[..n], keep, limits);
      TotalNext(Kept(entries[..n], keep, limits), entries[n]);
    }
  }

  lemma SparedComesLast(entries: seq<Entry>, keep: Option<Path>, limits: Limits)
    requires DistinctPaths(entries) && entries != [] && Spared(entries[|entries| - 1], keep)
    ensures |Kept(entries, keep, limits)| > limits.maxEntries <==> SparedIntoFull(entries, keep, limits)
    ensures Total(Kept(entries, keep, limits)) > limits.maxBytes <==> SparedTooLarge(entries, keep, limits)
  {
    var n := |entries| - 1;
    var before := Kept(entries[..n], keep, limits);
    NoneSpared(entries[..n], keep, limits);
    TotalNext(before, entries[n]);
    assert Kept(entries, keep, limits) == before + [entries[n]];
    hide Kept;
    assert forall i :: 0 <= i < n ==> !Spared(entries[i], keep);
  }

  /** The entry limit is exceeded exactly when the spared entry finds it full, and the byte limit exactly when it does not fit. */
  lemma {:induction false} LimitsAreExceeded(entries: seq<Entry>, keep: Option<Path>, limits: Limits)
    requires DistinctPaths(entries)
    ensures |Kept(entries, keep, limits)| > limits.maxEntries <==> SparedIntoFull(entries, keep, limits)
    ensures Total(Kept(entries, keep, limits)) > limits.maxBytes <==> SparedTooLarge(entries, keep, limits)
  {
    if entries != [] {
      var n := |entries| - 1;
      var shorter, last := entries[..n], entries[n];
      if Spared(last, keep) {
        SparedComesLast(entries, keep, limits);
      } else {
        TotalNext(Kept(shorter, keep, limits), last);
        LimitsAreExceeded(shorter, keep, limits);
        SameTurns(entries, keep, limits);
      }
      hide SparedIntoFull, SparedTooLarge;
    }
  }

  /** An entry that is not the spared one does not change whether the spared one finds room. */
  lemma SameTurns(entries: seq<Entry>, keep: Option<Path>, limits: Limits)
    requires entries != [] && !Spared(entries[|entries| - 1], keep)
    ensures SparedIntoFull(entries, keep, limits) <==> SparedIntoFull(entries[..|entries| - 1], keep, limits)
    ensures SparedTooLarge(entries, keep, limits) <==> SparedTooLarge(entries[..|entries| - 1], keep, limits)
  {
    var shorter := entries[..|entries| - 1];
    assert forall i :: 0 <= i < |shorter| ==> entries[..i] == shorter[..i] && entries[i] == shorter[i];
    hide Kept;
  }

  // ---- The directory

  /** The entries that could be inspected, in the order the directory lists them. */
  function Listed(files: map<Path, Stat>, listing: seq<Path>, unreadable: set<Path>): seq<Entry>
    requires forall p :: p in listing ==> p in files
  {
    if listing == [] then []
    else
      var rest := Listed(files, listing[..|listing| - 1], unreadable);
      var p := listing[|listing| - 1];
      if p in unreadable then rest else rest + [Entry(files[p].mtime, files[p].size, p)]
  }

  lemma {:induction false} ListedMembers(files: map<Path, Stat>, listing: seq<Path>, unreadable: set<Path>)
    requires forall p :: p in listing ==> p in files
    ensures forall e :: e in Listed(files, listing, unreadable) <==>
      e.path in listing && e.path !in unreadable && e == Entry(files[e.path].mtime, files[e.path].size, e.path)
  {
    if listing != [] {
      var shorter := listing[..|listing| - 1];
      ListedMembers(files, shorter, unreadable);
      assert listing == shorter + [listing[|listing| - 1]];
    }
  }

  predicate NoRepeats(listing: seq<Path>) {
    forall i, j :: 0 <= i < j < |listing| ==> listing[i] != listing[j]
  }

  lemma {:induction false} ListedDistinct(files: map<Path, Stat>, listing: seq<Path>, unreadable: set<Path>)
    requires (forall p :: p in listing ==> p in files) && NoRepeats(listing)
    ensures DistinctPaths(Listed(files, listing, unreadable))
  {
    if listing != [] {
      var shorter := listing[..|listing| - 1];
      ListedDistinct(files, shorter, unreadable);
      ListedMembers(files, shorter, unreadable);
      assert listing == shorter + [listing[|listing| - 1]];
    }
  }

  lemma DistinctPathsLast(entries: seq<Entry>)
    requires DistinctPaths(entries)
    ensures
      var sorted := NewestFirst(entries);
      DistinctPaths(sorted) && NoDuplicates(sorted) && Ordered(sorted, Before) && multiset(sorted) == multiset(entries)
  {
    var sorted := NewestFirst(entries);
    BeforeIsStrict();
    SortPermutes(entries, Before);
    SortOrders(entries, Before);
    forall i, j | 0 <= i < j < |sorted| ensures sorted[i].path != sorted[j].path {
      assert sorted[i] in multiset(entries) && sorted[j] in multiset(entries);
      assert Before(sorted[i], sorted[j]) && !Before(sorted[i], sorted[i]);
      var k :| 0 <= k < |entries| && entries[k] == sorted[i];
      var l :| 0 <= l < |entries| && entries[l] == sorted[j];
    }
  }

  /** What `prune` leaves: unreadable files, and the entries kept of those inspected. */
  ghost predicate Survives(files: map<Path, Stat>, sorted: seq<Entry>, keep: Option<Path>, limits: Limits, p: Path) {
    p in files && ((forall e :: e in sorted ==> e.path != p) || exists e :: e in Kept(sorted, keep, limits) && e.path == p)
  }

  // ---- In terms of the stamps

  predicate Inspected(files: map<Path, Stat>, unreadable: set<Path>, p: Path) {
    p in files && p !in unreadable
  }

  /** A later stamp is looked at first; of equal stamps the larger file; of equal sizes as well the greater name. */
  predicate LookedAtFirst(q: Path, stat: Stat, p: Path, other: Stat) {
    || stat.mtime > other.mtime
    || (stat.mtime == other.mtime && stat.size > other.size)
    || (stat.mtime == other.mtime && stat.size == other.size && LexLess(p, q))
  }

  /** The entries left over are the files left over, apart from those that could not be inspected. */
  ghost predicate Lists(left: seq<Entry>, files: map<Path, Stat>, unreadable: set<Path>) {
    && DistinctPaths(left)
    && (forall e :: e in left ==> Inspected(files, unreadable, e.path) && e == Entry(files[e.path].mtime, files[e.path].size, e.path))
    && (forall p :: Inspected(files, unreadable, p) ==> Entry(files[p].mtime, files[p].size, p) in left)
  }

  lemma {:induction false} KeptGrows(entries: seq<Entry>, i: nat, j: nat, keep: Option<Path>, limits: Limits)
    requires i <= j <= |entries|
    ensures |Kept(entries[..i], keep, limits)| <= |Kept(entries[..j], keep, limits)|
    ensures Total(Kept(entries[..i], keep, limits)) <= Total(Kept(entries[..j], keep, limits))
    decreases j - i
  {
    if i < j {
      KeptNext(entries, i, keep, limits);
      KeptGrows(entries, i + 1, j, keep, limits);
    }
  }

  /** Of two entries to which nothing else applies, the one looked at first and not larger survives if the other does. */
  lemma FirstSurvives(entries: seq<Entry>, keep: Option<Path>, limits: Limits, q: Entry, p: Entry)
    requires NoDuplicates(entries) && Ordered(entries, Before) && q in entries && p in entries && Before(q, p)
    requires !Spared(p, keep) && p in Kept(entries, keep, limits)
    requires q.size <= p.size || Total(entries) <= limits.maxBytes
    ensures q in Kept(entries, keep, limits)
  {
    var i :| 0 <= i < |entries| && entries[i] == q;
    if Total(entries) <= limits.maxBytes { RoomFor(entries, q, keep, limits); }
    var j :| 0 <= j < |entries| && entries[j] == p;
    BeforeIsStrict();
    assert j < i ==> Before(p, q);
    KeptAtItsTurn(entries, keep, limits, i);
    KeptAtItsTurn(entries, keep, limits, j);
    KeptGrows(entries, i, j, keep, limits);
    hide Kept, Total, Before, StrictOrder;
  }

  lemma {:induction false} TotalJoins(a: seq<Entry>, b: seq<Entry>)
    ensures Total(a + b) == Total(a) + Total(b)
    decreases |b|
  {
    if b == [] {
      assert a + b == a;
    } else {
      var n := |b| - 1;
      TotalJoins(a, b[..n]);
      assert (a + b)[..|a| + n] == a + b[..n];
    }
  }

  lemma TotalWithout(entries: seq<Entry>, k: nat)
    requires k < |entries|
    ensures
      var rest := entries[..k] + entries[k + 1..];
      Total(entries) == Total(rest) + entries[k].size && multiset(rest) == multiset(entries) - multiset{entries[k]}
  {
    var front, back := entries[..k], entries[k + 1..];
    assert entries == front + [entries[k]] + back;
    TotalNext(front, entries[k]);
    TotalJoins(front + [entries[k]], back);
    TotalJoins(front, back);
  }

  /** The total depends only on which entries there are. */
  lemma {:induction false} TotalOfSame(a: seq<Entry>, b: seq<Entry>)
    requires multiset(a) == multiset(b)
    ensures Total(a) == Total(b)
    decreases |a|
  {
    SameLength(a, b);
    if a != [] {
      var n := |a| - 1;
      assert a[n] in multiset(b) && a == a[..n] + [a[n]];
      var k :| 0 <= k < |b| && b[k] == a[n];
      TotalWithout(b, k);
      TotalOfSame(a[..n], b[..k] + b[k + 1..]);
    }
  }

  /** What is kept before an entry's turn leaves room for it, when there is room for everything. */
  lemma {:induction false} RoomForAll(entries: seq<Entry>, i: nat, keep: Option<Path>, limits: Limits)
    requires i <= |entries|
    ensures Total(Kept(entries[..i], keep, limits)) <= Total(entries[..i]) <= Total(entries)
    decreases i
  {
    assert entries == entries[..i] + entries[i..];
    TotalJoins(entries[..i], entries[i..]);
    if i > 0 {
      RoomForAll(entries, i - 1, keep, limits);
      KeptNext(entries, i - 1, keep, limits);
      TotalNext(entries[..i - 1], entries[i - 1]);
      assert entries[..i - 1] + [entries[i - 1]] == entries[..i];
    }
  }

  lemma RoomFor(entries: seq<Entry>, q: Entry, keep: Option<Path>, limits: Limits)
    requires NoDuplicates(entries) && q in entries && Total(entries) <= limits.maxBytes
    ensures exists i :: 0 <= i < |entries| && entries[i] == q && Total(Kept(entries[..i], keep, limits)) + q.size <= limits.maxBytes
  {
    var i :| 0 <= i < |entries| && entries[i] == q;
    RoomForAll(entries, i, keep, limits);
    RoomForAll(entries, i + 1, keep, limits);
    TotalNext(entries[..i], q);
    assert entries[..i] + [q] == entries[..i + 1];
  }

  /** Every file that was inspected stands in the sorted list, once. */
  lemma InspectedAreSorted(files: map<Path, Stat>, listing: seq<Path>, unreadable: set<Path>)
    requires NoRepeats(listing) && forall p :: p in listing <==> p in files
    ensures
      var sorted := NewestFirst(Listed(files, listing, unreadable));
      && DistinctPaths(sorted) && NoDuplicates(sorted) && Ordered(sorted, Before)
      && Total(sorted) == Total(Listed(files, listing, unreadable))
      && (forall e :: e in sorted <==> Inspected(files, unreadable, e.path) && e == Entry(files[e.path].mtime, files[e.path].size, e.path))
  {
    var listed := Listed(files, listing, unreadable);
    ListedDistinct(files, listing, unreadable);
    ListedMembers(files, listing, unreadable);
    DistinctPathsLast(listed);
    TotalOfSame(NewestFirst(listed), listed);
    assert forall e :: e in NewestFirst(listed) <==> e in multiset(NewestFirst(listed));
    assert forall e :: e in listed <==> e in multiset(listed);
    hide NewestFirst, Listed, Total, Ordered, DistinctPaths, NoDuplicates;
  }

  /** The entry to keep was inspected, and is newer than every other. */
  ghost predicate Newest(files: map<Path, Stat>, unreadable: set<Path>, keep: Option<Path>) {
    && keep.Some? && Inspected(files, unreadable, keep.value)
    && forall p :: Inspected(files, unreadable, p) && p != keep.value ==> files[p].mtime < files[keep.value].mtime
  }

  /** The sorted list holds exactly the inspected files, in the order in which they are looked at. */
  ghost predicate Sorted(files: map<Path, Stat>, sorted: seq<Entry>, unreadable: set<Path>) {
    && DistinctPaths(sorted) && NoDuplicates(sorted) && Ordered(sorted, Before)
    && (forall e :: e in sorted <==> Inspected(files, unreadable, e.path) && e == Entry(files[e.path].mtime, files[e.path].size, e.path))
  }

  lemma LeftIs(files: map<Path, Stat>, after: map<Path, Stat>, sorted: seq<Entry>, keep: Option<Path>, limits: Limits, unreadable: set<Path>)
    requires Sorted(files, sorted, unreadable) && (forall p :: p in after ==> p in files && after[p] == files[p])
    requires forall p :: p in after <==> Survives(files, sorted, keep, limits, p)
    ensures Lists(Kept(sorted, keep, limits), after, unreadable)
  {
    var left := Kept(sorted, keep, limits);
    KeptMembers(sorted, keep, limits);
    KeptDistinct(sorted, keep, limits);
    hide Kept, NoDuplicates, Ordered;
    forall e | e in left ensures Inspected(after, unreadable, e.path) && e == Entry(after[e.path].mtime, after[e.path].size, e.path) {
      assert Survives(files, sorted, keep, limits, e.path);
    }
    forall p | Inspected(after, unreadable, p) ensures Entry(after[p].mtime, after[p].size, p) in left {
      assert Entry(files[p].mtime, files[p].size, p) in sorted;
      assert Survives(files, sorted, keep, limits, p);
    }
  }

  lemma {:induction false} KeptDistinct(entries: seq<Entry>, keep: Option<Path>, limits: Limits)
    requires DistinctPaths(entries)
    ensures DistinctPaths(Kept(entries, keep, limits))
  {
    if entries != [] {
      var n := |entries| - 1;
      KeptDistinct(entries[..n], keep, limits);
      KeptMembers(entries[..n], keep, limits);
      assert forall e :: e in entries[..n] ==> e.path != entries[n].path;
    }
  }

  lemma FirstStays(files: map<Path, Stat>, sorted: seq<Entry>, keep: Option<Path>, limits: Limits, unreadable: set<Path>, p: Path, q: Path)
    requires Sorted(files, sorted, unreadable) && Inspected(files, unreadable, p) && Inspected(files, unreadable, q)
    requires keep != Some(p) && Survives(files, sorted, keep, limits, p) && LookedAtFirst(q, files[q], p, files[p])
    requires files[q].size <= files[p].size || Total(sorted) <= limits.maxBytes
    ensures Survives(files, sorted, keep, limits, q)
  {
    var a, b := Entry(files[q].mtime, files[q].size, q), Entry(files[p].mtime, files[p].size, p);
    KeptMembers(sorted, keep, limits);
    assert a in sorted && b in sorted && Before(a, b);
    assert b in Kept(sorted, keep, limits);
    FirstSurvives(sorted, keep, limits, a, b);
    hide Kept, Ordered, NoDuplicates, DistinctPaths, Before;
  }

  lemma NewestFits(files: map<Path, Stat>, sorted: seq<Entry>, keep: Option<Path>, limits: Limits, unreadable: set<Path>)
    requires Sorted(files, sorted, unreadable) && Newest(files, unreadable, keep) && limits.maxEntries >= 1
    ensures |Kept(sorted, keep, limits)| <= limits.maxEntries
    ensures Total(Kept(sorted, keep, limits)) <= if limits.maxBytes < files[keep.value].size then files[keep.value].size else limits.maxBytes
  {
    var k := Entry(files[keep.value].mtime, files[keep.value].size, keep.value);
    assert k in sorted;
    assert sorted[0] in sorted;
    var j :| 0 <= j < |sorted| && sorted[j] == k;
    assert j == 0;
    NewestSparedFits(sorted, keep, limits);
    hide Kept, Total;
  }

  class Directory {
    const limits: Limits
    var files: map<Path, Stat>

    constructor (limits: Limits)
      requires limits.maxBytes >= 1 && limits.maxEntries >= 1
      ensures this.limits == limits && files == map[]
    {
      this.limits := limits;
      files := map[];
    }

    method List(listing: seq<Path>, unreadable: set<Path>) returns (entries: seq<Entry>)
      requires forall p :: p in listing ==> p in files
      ensures entries == Listed(files, listing, unreadable)
    {
      entries := [];
      for i := 0 to |listing|
        invariant entries == Listed(files, listing[..i], unreadable)
      {
        var p := listing[i];
        assert listing[..i + 1][..i] == listing[..i];
        if p !in unreadable { entries := entries + [Entry(files[p].mtime, files[p].size, p)]; }
      }
      assert listing[..|listing|] == listing;
    }

    method Sweep(entries: seq<Entry>, keep: Option<Path>)
      requires DistinctPaths(entries)
      modifies this
      ensures files.Keys <= old(files).Keys && forall p :: p in files ==> files[p] == old(files)[p]
      ensures forall p :: p in files <==> Survives(old(files), entries, keep, limits, p)
    {
      var total: nat := 0;
      var kept: nat := 0;
      for i := 0 to |entries|
        invariant kept == |Kept(entries[..i], keep, limits)| && total == Total(Kept(entries[..i], keep, limits))
        invariant files.Keys <= old(files).Keys && forall p :: p in files ==> files[p] == old(files)[p]
        invariant forall p :: p in files <==> Survives(old(files), entries[..i], keep, limits, p)
      {
        var e := entries[i];
        KeptNext(entries, i, keep, limits);
        SurvivesNext(old(files), entries, i, keep, limits);
        hide Kept, Total, Survives;
        var mustKeep := keep == Some(e.path);
        var allowed := kept < limits.maxEntries && total + e.size <= limits.maxBytes;
        if mustKeep || allowed {
          kept := kept + 1;
          total := total + e.size;
        } else {
          files := files - {e.path};
        }
      }
      assert entries[..|entries|] == entries;
    }

    /**
     * `listing` is the order in which the directory lists its entries; those in `unreadable` vanish before they are
     * inspected. `left` are the inspected entries that stay. Of two entries that are not to be kept anyway, the one looked
     * at first stays if the other does, unless it is larger and there is not room for all; and when the entry to keep is
     * newer than every other, both limits hold, but for its own bytes.
     */
    method Prune(keep: Option<Path>, listing: seq<Path>, unreadable: set<Path>) returns (ghost left: seq<Entry>)
      requires NoRepeats(listing) && forall p :: p in listing <==> p in files
      modifies this
      ensures files.Keys <= old(files).Keys && forall p :: p in files ==> files[p] == old(files)[p]
      ensures
        var sorted := NewestFirst(Listed(old(files), listing, unreadable));
        forall p :: p in files <==> Survives(old(files), sorted, keep, limits, p)
      ensures Lists(left, files, unreadable) && |left| <= limits.maxEntries + 1
      ensures keep.Some? && Inspected(old(files), unreadable, keep.value) ==> keep.value in files
      ensures forall p, q ::
        Inspected(old(files), unreadable, p) && Inspected(old(files), unreadable, q) && keep != Some(p) && p in files
        && LookedAtFirst(q, old(files)[q], p, old(files)[p])
        && (old(files)[q].size <= old(files)[p].size || Total(Listed(old(files), listing, unreadable)) <= limits.maxBytes) ==>
          q in files
      ensures limits.maxEntries >= 1 && Newest(old(files), unreadable, keep) ==>
        && |left| <= limits.maxEntries
        && Total(left) <= if limits.maxBytes < old(files)[keep.value].size then old(files)[keep.value].size else limits.maxBytes
    {
      var entries := List(listing, unreadable);
      ListedDistinct(files, listing, unreadable);
      DistinctPathsLast(entries);
      InspectedAreSorted(files, listing, unreadable);
      PruneBounds(files, listing, unreadable, keep, limits);
      ghost var sorted := NewestFirst(entries);
      Sweep(NewestFirst(entries), keep);
      left := Kept(sorted, keep, limits);
      hide NewestFirst, Listed, Total, Kept, Ordered, LookedAtFirst, Newest, Lists, DistinctPaths, NoDuplicates, Survives;
      LeftIs(old(files), files, sorted, keep, limits, unreadable);
      forall p, q | Inspected(old(files), unreadable, p) && Inspected(old(files), unreadable, q) && keep != Some(p) && p in files
                    && LookedAtFirst(q, old(files)[q], p, old(files)[p])
                    && (old(files)[q].size <= old(files)[p].size || Total(Listed(old(files), listing, unreadable)) <= limits.maxBytes)
        ensures q in files
      {
        FirstStays(old(files), sorted, keep, limits, unreadable, p, q);
      }
      if limits.maxEntries >= 1 && Newest(old(files), unreadable, keep) { NewestFits(old(files), sorted, keep, limits, unreadable); }
    }
  }

  lemma KeptNext(entries: seq<Entry>, i: nat, keep: Option<Path>, limits: Limits)
    requires i < |entries|
    ensures
      var before, after := Kept(entries[..i], keep, limits), Kept(entries[..i + 1], keep, limits);
      if StaysAfter(before, entries[i], keep, limits) then |after| == |before| + 1 && Total(after) == Total(before) + entries[i].size
      else after == before
  {
    var before := Kept(entries[..i], keep, limits);
    assert entries[..i + 1][..i] == entries[..i] && entries[..i + 1][i] == entries[i];
    assert (before + [entries[i]])[..|before|] == before;
  }

  lemma SurvivesNext(files: map<Path, Stat>, entries: seq<Entry>, i: nat, keep: Option<Path>, limits: Limits)
    requires DistinctPaths(entries) && i < |entries|
    ensures forall p :: p != entries[i].path ==> (Survives(files, entries[..i + 1], keep, limits, p) <==> Survives(files, entries[..i], keep, limits, p))
    ensures Survives(files, entries[..i + 1], keep, limits, entries[i].path) <==>
            entries[i].path in files && StaysAfter(Kept(entries[..i], keep, limits), entries[i], keep, limits)
    ensures Survives(files, entries[..i], keep, limits, entries[i].path) <==> entries[i].path in files
  {
    var e := entries[i];
    assert entries[..i + 1] == entries[..i] + [e];
    assert entries[..i + 1][..i] == entries[..i];
    KeptMembers(entries[..i], keep, limits);
    forall p | p != e.path
      ensures Survives(files, entries[..i + 1], keep, limits, p) <==> Survives(files, entries[..i], keep, limits, p)
    {
      if forall x :: x in entries[..i] ==> x.path != p {
        assert forall x :: x in entries[..i + 1] ==> x.path != p;
      }
    }
    assert e in entries[..i + 1];
    assert forall x :: x in entries[..i] ==> x.path != e.path;
  }

  /** The outcome does not depend on the order in which the directory lists its entries. */
  lemma ListingOrderIsIrrelevant(files: map<Path, Stat>, first: seq<Path>, second: seq<Path>, unreadable: set<Path>)
    requires NoRepeats(first) && NoRepeats(second) && (forall p :: p in first <==> p in files) && (forall p :: p in second <==> p in files)
    ensures NewestFirst(Listed(files, first, unreadable)) == NewestFirst(Listed(files, second, unreadable))
  {
    var a, b := Listed(files, first, unreadable), Listed(files, second, unreadable);
    ListedDistinct(files, first, unreadable);
    ListedDistinct(files, second, unreadable);
    ListedMembers(files, first, unreadable);
    ListedMembers(files, second, unreadable);
    BeforeIsStrict();
    SortOfSame(a, b, Before);
  }

  /** When `prune` leaves more than a limit says: exactly when the entry to keep, at its turn, finds no room. */
  lemma PruneExceeds(files: map<Path, Stat>, listing: seq<Path>, unreadable: set<Path>, keep: Option<Path>, limits: Limits)
    requires NoRepeats(listing) && forall p :: p in listing <==> p in files
    ensures
      var sorted := NewestFirst(Listed(files, listing, unreadable));
      && (|Kept(sorted, keep, limits)| > limits.maxEntries <==> SparedIntoFull(sorted, keep, limits))
      && (Total(Kept(sorted, keep, limits)) > limits.maxBytes <==> SparedTooLarge(sorted, keep, limits))
  {
    ListedDistinct(files, listing, unreadable);
    DistinctPathsLast(Listed(files, listing, unreadable));
    hide NewestFirst, Listed, Kept, DistinctPaths, SparedIntoFull, SparedTooLarge;
    LimitsAreExceeded(NewestFirst(Listed(files, listing, unreadable)), keep, limits);
  }

  lemma SparedSurvives(files: map<Path, Stat>, listed: seq<Entry>, keep: Option<Path>, limits: Limits)
    requires keep.Some? && keep.value in files && Entry(files[keep.value].mtime, files[keep.value].size, keep.value) in listed
    requires multiset(NewestFirst(listed)) == multiset(listed)
    ensures Survives(files, NewestFirst(listed), keep, limits, keep.value)
  {
    hide NewestFirst, Kept;
    var e := Entry(files[keep.value].mtime, files[keep.value].size, keep.value);
    assert e in multiset(listed);
    assert e in NewestFirst(listed) && Spared(e, keep);
    SparedIsKept(NewestFirst(listed), keep, limits);
  }

  /**
   * What `prune` leaves of the inspected entries: the one to keep if it is there, at most one entry over the limit, and
   * at most that entry's bytes over the other.
   */
  lemma PruneBounds(files: map<Path, Stat>, listing: seq<Path>, unreadable: set<Path>, keep: Option<Path>, limits: Limits)
    requires NoRepeats(listing) && forall p :: p in listing <==> p in files
    ensures
      var sorted := NewestFirst(Listed(files, listing, unreadable));
      var left := Kept(sorted, keep, limits);
      && |left| <= limits.maxEntries + 1 && Total(left) <= limits.maxBytes + SparedSize(sorted, keep)
      && (keep.Some? && keep.value in files && keep.value !in unreadable ==> Survives(files, sorted, keep, limits, keep.value))
      && (limits.maxEntries >= 1 && sorted != [] && Spared(sorted[0], keep) ==>
            |left| <= limits.maxEntries && Total(left) <= if limits.maxBytes < sorted[0].size then sorted[0].size else limits.maxBytes)
  {
    var listed := Listed(files, listing, unreadable);
    var sorted := NewestFirst(listed);
    ListedDistinct(files, listing, unreadable);
    ListedMembers(files, listing, unreadable);
    DistinctPathsLast(listed);
    hide NewestFirst, Listed, Kept, Total, SparedSize;
    KeptWithinLimits(sorted, keep, limits);
    if limits.maxEntries >= 1 && sorted != [] && Spared(sorted[0], keep) { NewestSparedFits(sorted, keep, limits); }
    if keep.Some? && keep.value in files && keep.value !in unreadable { SparedSurvives(files, listed, keep, limits); }
  }
}
