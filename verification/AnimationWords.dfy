/**
 * What sanitizing, lanes, priority labels and unknown sizes mean, without the rewriting steps of the code: names as words
 * joined by underscores, lanes as endings of the stored name, labels as words that a text contains.
 */
module AnimationWords {
  import opened AnimationNames
  import opened LoadPlan
  import MotionGroups

  // ---- A sanitized name is the words of the value, joined

  predicate WordChar(c: char) {
    'a' <= c <= 'z' || 'A' <= c <= 'Z' || '0' <= c <= '9' || c == '-'
  }

  /** The maximal runs of letters, digits and hyphens; `word` is the run read so far. */
  function WordsFrom(s: string, word: string): seq<string> {
    if s == "" then (if word == "" then [] else [word])
    else if WordChar(s[0]) then WordsFrom(s[1..], word + [s[0]])
    else (if word == "" then [] else [word]) + WordsFrom(s[1..], "")
  }

  function Joined(words: seq<string>): string {
    if words == [] then "" else if |words| == 1 then words[0] else words[0] + "_" + Joined(words[1..])
  }

  /** Every run of other characters, as one underscore; none where a run has begun. */
  function Marked(s: string, inRun: bool): string {
    if s == "" then ""
    else if WordChar(s[0]) then [s[0]] + Marked(s[1..], false)
    else if inRun then Marked(s[1..], true)
    else "_" + Marked(s[1..], true)
  }

  lemma {:induction false} RunsAreMarked(s: string, replacing: bool, collapsing: bool)
    requires replacing ==> collapsing
    ensures CollapseRuns(ReplaceRuns(s, replacing), collapsing) == Marked(s, collapsing)
  {
    if s != "" {
      var next := !Plain(s[0]);
      RunsAreMarked(s[1..], next, !WordChar(s[0]));
      var rest := ReplaceRuns(s[1..], next);
      if Plain(s[0]) {
        assert ([s[0]] + rest)[0] == s[0] && ([s[0]] + rest)[1..] == rest;
      } else if !replacing {
        assert ("_" + rest)[0] == '_' && ("_" + rest)[1..] == rest;
      }
    }
  }

  lemma {:induction false} MarkedInRun(s: string)
    ensures Marked(s, true) != "" ==> Marked(s, true)[0] != '_'
    ensures TrimStart(Marked(s, true)) == Marked(s, true)
  {
    if s != "" && !WordChar(s[0]) { MarkedInRun(s[1..]); }
  }

  lemma TrimmedStart(s: string)
    ensures TrimStart(Marked(s, false)) == Marked(s, true)
  {
    MarkedInRun(s);
    if s != "" && !WordChar(s[0]) {
      MarkedInRun(s[1..]);
      assert ("_" + Marked(s[1..], true))[1..] == Marked(s[1..], true);
    }
  }

  lemma {:induction false} TrimEndAppend(a: string, b: string)
    ensures TrimEnd(a + b) == if TrimEnd(b) == "" then TrimEnd(a) else a + TrimEnd(b)
    decreases |b|
  {
    if b == "" {
      assert a + b == a;
    } else if b[|b| - 1] == '_' {
      TrimEndAppend(a, b[..|b| - 1]);
      assert (a + b)[..|a + b| - 1] == a + b[..|b| - 1];
    }
  }

  lemma JoinedMore(word: string, words: seq<string>)
    ensures Joined([word] + words) == if words == [] then word else word + "_" + Joined(words)
  {
    assert ([word] + words)[1..] == words;
  }

  lemma {:induction false} NoWords(s: string, word: string)
    ensures Joined(WordsFrom(s, word)) == "" <==> WordsFrom(s, word) == []
    decreases |s|
  {
    if s != "" {
      if WordChar(s[0]) {
        NoWords(s[1..], word + [s[0]]);
      } else {
        NoWords(s[1..], "");
        JoinedMore(word, WordsFrom(s[1..], ""));
      }
    }
  }

  /** A word that has ended, before what becomes of the rest. */
  lemma WordEnds(word: string, more: string, words: seq<string>)
    requires word != "" && (forall c :: c in word ==> WordChar(c))
    requires TrimEnd(more) == Joined(words) && (Joined(words) == "" <==> words == [])
    ensures TrimEnd(word + ("_" + more)) == Joined([word] + words)
  {
    hide Joined;
    assert word + ("_" + more) == word + "_" + more;
    TrimEndAppend(word + "_", more);
    assert word[|word| - 1] in word;
    assert (word + "_")[..|word|] == word;
    JoinedMore(word, words);
  }

  lemma {:induction false} TrimmedIsJoined(s: string, word: string)
    requires forall c :: c in word ==> WordChar(c)
    ensures TrimEnd(word + Marked(s, word == "")) == Joined(WordsFrom(s, word))
    decreases |s|
  {
    if s == "" {
      assert word + "" == word;
      assert word != "" ==> word[|word| - 1] in word;
    } else if WordChar(s[0]) {
      TrimmedIsJoined(s[1..], word + [s[0]]);
      assert word + ([s[0]] + Marked(s[1..], false)) == word + [s[0]] + Marked(s[1..], false);
    } else {
      TrimmedIsJoined(s[1..], "");
      NoWords(s[1..], "");
      hide Joined, TrimEnd;
      assert "" + Marked(s[1..], true) == Marked(s[1..], true);
      if word == "" {
        assert word + Marked(s, true) == Marked(s[1..], true);
        assert [] + WordsFrom(s[1..], "") == WordsFrom(s[1..], "");
      } else {
        WordEnds(word, Marked(s[1..], true), WordsFrom(s[1..], ""));
      }
    }
  }

  /** The name of a file is the words of its label, without the extension, joined by single underscores. */
  lemma SanitizeJoinsWords(value: string, fallback: string)
    ensures
      var words := WordsFrom(WithoutExtension(value), "");
      Sanitize(value, fallback) == if words == [] then fallback else Joined(words)
  {
    var base := WithoutExtension(value);
    RunsAreMarked(base, false, false);
    TrimmedStart(base);
    TrimmedIsJoined(base, "");
    assert "" + Marked(base, true) == Marked(base, true);
    NoWords(base, "");
  }

  /**
   * A file is named after its original name, or else its stored one, and failing words there, in the library after its
   * stored name or else its address; it is known by its address, or else its stored name.
   */
  lemma NamesAndKeysAre(file: FileRef)
    ensures
      var text := if file.originalName != "" then file.originalName else file.filename;
      var words := WordsFrom(WithoutExtension(text), "");
      && AnimationName(file, "") == Joined(words)
      && MotionGroups.NameOf(file) == if words != [] then Joined(words) else if file.filename != "" then file.filename else file.url
    ensures FileKey(file) == if file.url != "" then file.url else file.filename
  {
    var text := if file.originalName != "" then file.originalName else file.filename;
    SanitizeJoinsWords(text, "");
    SanitizeJoinsWords(text, if file.filename != "" then file.filename else file.url);
    hide Sanitize, WithoutExtension, WordsFrom;
  }

  // ---- Lanes

  predicate Either(c: char, lower: char, upper: char) {
    c == lower || c == upper
  }

  /** The label ends in `.glb` or `.gltf`, in whatever case. */
  predicate EndsInGlb(s: string) {
    var n := |s|;
    || (n >= 4 && s[n - 4] == '.' && Either(s[n - 3], 'g', 'G') && Either(s[n - 2], 'l', 'L') && Either(s[n - 1], 'b', 'B'))
    || (n >= 5 && s[n - 5] == '.' && Either(s[n - 4], 'g', 'G') && Either(s[n - 3], 'l', 'L') && Either(s[n - 2], 't', 'T')
        && Either(s[n - 1], 'f', 'F'))
  }

  lemma LowerAt(s: string, i: nat)
    requires i < |s|
    ensures Lower(s)[i] == if 'A' <= s[i] <= 'Z' then s[i] + 32 as char else s[i]
  {}

  lemma EndsFour(s: string, a: char, b: char, c: char, d: char)
    ensures EndsWith(s, [a, b, c, d]) <==> |s| >= 4 && s[|s| - 4] == a && s[|s| - 3] == b && s[|s| - 2] == c && s[|s| - 1] == d
  {
    if |s| >= 4 { assert s[|s| - 4..] == [s[|s| - 4], s[|s| - 3], s[|s| - 2], s[|s| - 1]]; }
  }

  lemma EndsFive(s: string, a: char, b: char, c: char, d: char, e: char)
    ensures EndsWith(s, [a, b, c, d, e]) <==>
      |s| >= 5 && s[|s| - 5] == a && s[|s| - 4] == b && s[|s| - 3] == c && s[|s| - 2] == d && s[|s| - 1] == e
  {
    if |s| >= 5 { assert s[|s| - 5..] == [s[|s| - 5], s[|s| - 4], s[|s| - 3], s[|s| - 2], s[|s| - 1]]; }
  }

  lemma LowerEnds(s: string)
    ensures EndsWith(Lower(s), ".glb") || EndsWith(Lower(s), ".gltf") <==> EndsInGlb(s)
  {
    EndsFour(Lower(s), '.', 'g', 'l', 'b');
    EndsFive(Lower(s), '.', 'g', 'l', 't', 'f');
    hide EndsWith;
    forall i | 0 <= i < |s| ensures Lower(s)[i] == if 'A' <= s[i] <= 'Z' then s[i] + 32 as char else s[i] { LowerAt(s, i); }
    hide Lower;
    assert ".glb" == ['.', 'g', 'l', 'b'] && ".gltf" == ['.', 'g', 'l', 't', 'f'];
  }

  /** A file is on the GLB lane exactly when its stored name says so, or its address, or, failing both, its original name. */
  lemma LaneIs(file: FileRef)
    ensures
      var shown := if file.filename != "" then file.filename else if file.url != "" then file.url else file.originalName;
      LaneOf(file) == if EndsInGlb(shown) then Glb else Vrm
  {
    LowerEnds(if file.filename != "" then file.filename else if file.url != "" then file.url else file.originalName);
    hide EndsWith, EndsInGlb, Lower;
  }

  // ---- Poses that must be there at once

  predicate PoseName(w: string) {
    || w == "basestand" || w == "base_stand" || w == "base-stand" || w == "basesit" || w == "base_sit" || w == "base-sit"
    || w == "baselay" || w == "base_lay" || w == "base-lay"
    || w == "posestand" || w == "pose_stand" || w == "pose-stand" || w == "posesit" || w == "pose_sit" || w == "pose-sit"
    || w == "poselay" || w == "pose_lay" || w == "pose-lay"
  }

  ghost predicate Contains(text: string, word: string) {
    exists i :: 0 <= i <= |text| && Starts(text[i..], word)
  }

  lemma StartsJoined(s: string, a: string, b: string)
    ensures Starts(s, a + b) <==> Starts(s, a) && Starts(s[if |a| <= |s| then |a| else 0..], b)
  {
    if |a| + |b| <= |s| {
      assert s[..|a| + |b|] == s[..|a|] + s[|a|..][..|b|];
    }
  }

  /** What may follow `base` or `pose`. */
  predicate PoseEnd(s: string) {
    || Starts(s, "stand") || Starts(s, "_stand") || Starts(s, "-stand") || Starts(s, "sit") || Starts(s, "_sit") || Starts(s, "-sit")
    || Starts(s, "lay") || Starts(s, "_lay") || Starts(s, "-lay")
  }

  lemma PoseEnds(s: string)
    ensures PoseEnd(s) <==> PoseWord(s) || (s != "" && (s[0] == '_' || s[0] == '-') && PoseWord(s[1..]))
  {
    StartsJoined(s, "_", "stand");
    StartsJoined(s, "-", "stand");
    StartsJoined(s, "_", "sit");
    StartsJoined(s, "-", "sit");
    StartsJoined(s, "_", "lay");
    StartsJoined(s, "-", "lay");
    assert "_stand" == "_" + "stand" && "-stand" == "-" + "stand" && "_sit" == "_" + "sit" && "-sit" == "-" + "sit";
    assert "_lay" == "_" + "lay" && "-lay" == "-" + "lay";
    assert s != "" ==> s[..1] == [s[0]];
  }

  predicate AnyOf(t: string, head: string) {
    || Starts(t, head + "stand") || Starts(t, head + "_stand") || Starts(t, head + "-stand")
    || Starts(t, head + "sit") || Starts(t, head + "_sit") || Starts(t, head + "-sit")
    || Starts(t, head + "lay") || Starts(t, head + "_lay") || Starts(t, head + "-lay")
  }

  lemma HeadAndEnd(t: string, head: string)
    ensures AnyOf(t, head) <==> Starts(t, head) && PoseEnd(t[if |head| <= |t| then |head| else 0..])
  {
    StartsJoined(t, head, "stand");
    StartsJoined(t, head, "_stand");
    StartsJoined(t, head, "-stand");
    StartsJoined(t, head, "sit");
    StartsJoined(t, head, "_sit");
    StartsJoined(t, head, "-sit");
    StartsJoined(t, head, "lay");
    StartsJoined(t, head, "_lay");
    StartsJoined(t, head, "-lay");
    hide Starts;
  }

  lemma BaseNames()
    ensures "base" + "stand" == "basestand" && "base" + "_stand" == "base_stand" && "base" + "-stand" == "base-stand"
    ensures "base" + "sit" == "basesit" && "base" + "_sit" == "base_sit" && "base" + "-sit" == "base-sit"
    ensures "base" + "lay" == "baselay" && "base" + "_lay" == "base_lay" && "base" + "-lay" == "base-lay"
  {}

  lemma PoseNames()
    ensures "pose" + "stand" == "posestand" && "pose" + "_stand" == "pose_stand" && "pose" + "-stand" == "pose-stand"
    ensures "pose" + "sit" == "posesit" && "pose" + "_sit" == "pose_sit" && "pose" + "-sit" == "pose-sit"
    ensures "pose" + "lay" == "poselay" && "pose" + "_lay" == "pose_lay" && "pose" + "-lay" == "pose-lay"
  {}

  lemma PosesAre(t: string)
    ensures (exists w :: PoseName(w) && Starts(t, w)) <==> AnyOf(t, "base") || AnyOf(t, "pose")
  {
    BaseNames();
    PoseNames();
    hide Starts;
    if AnyOf(t, "base") || AnyOf(t, "pose") { NamedPose(t); }
  }

  lemma NamedPose(t: string)
    requires AnyOf(t, "base") || AnyOf(t, "pose")
    ensures exists w :: PoseName(w) && Starts(t, w)
  {
    BaseNames();
    PoseNames();
    hide Starts;
    var base := if Starts(t, "basestand") then "basestand" else if Starts(t, "base_stand") then "base_stand" else if Starts(t, "base-stand") then "base-stand"
      else if Starts(t, "basesit") then "basesit" else if Starts(t, "base_sit") then "base_sit" else if Starts(t, "base-sit") then "base-sit"
      else if Starts(t, "baselay") then "baselay" else if Starts(t, "base_lay") then "base_lay" else "base-lay";
    var pose := if Starts(t, "posestand") then "posestand" else if Starts(t, "pose_stand") then "pose_stand" else if Starts(t, "pose-stand") then "pose-stand"
      else if Starts(t, "posesit") then "posesit" else if Starts(t, "pose_sit") then "pose_sit" else if Starts(t, "pose-sit") then "pose-sit"
      else if Starts(t, "poselay") then "poselay" else if Starts(t, "pose_lay") then "pose_lay" else "pose-lay";
    assert PoseName(base) && PoseName(pose) && (Starts(t, base) || Starts(t, pose));
  }

  lemma PoseAt(text: string, i: nat)
    requires i <= |text|
    ensures (exists w :: PoseName(w) && Starts(text[i..], w)) <==>
      (Starts(text[i..], "base") || Starts(text[i..], "pose"))
      && (PoseWord(text[i + 4..]) || (i + 4 < |text| && (text[i + 4] == '_' || text[i + 4] == '-') && PoseWord(text[i + 5..])))
  {
    var t := text[i..];
    PosesAre(t);
    HeadAndEnd(t, "base");
    HeadAndEnd(t, "pose");
    if |t| >= 4 {
      assert t[4..] == text[i + 4..];
      PoseEnds(text[i + 4..]);
      assert i + 4 < |text| ==> text[i + 4..][0] == text[i + 4] && text[i + 4..][1..] == text[i + 5..];
    }
    hide PoseName, AnyOf, PoseWord, PoseEnd;
  }

  lemma PlaceIs(text: string, i: int)
    requires 0 <= i <= |text|
    ensures (exists w :: PoseName(w) && Starts(text[i..], w)) <==> PoseLabelAt(text, i)
  {
    PoseAt(text, i);
    hide Starts, PoseWord, PoseName;
  }

  /** A label names a pose exactly when it contains one of eighteen words. */
  lemma PoseLabelIs(text: string)
    ensures PoseLabel(text) <==> exists w :: PoseName(w) && Contains(text, w)
  {
    hide Starts, PoseWord, PoseName, PoseLabelAt;
    if w :| PoseName(w) && Contains(text, w) {
      var i :| 0 <= i <= |text| && Starts(text[i..], w);
      PlaceIs(text, i);
    }
    if i :| 0 <= i <= |text| && PoseLabelAt(text, i) {
      PlaceIs(text, i);
      var w :| PoseName(w) && Starts(text[i..], w);
      assert Contains(text, w);
    }
  }

  /** A file comes first exactly when its name is asked for, in whatever case, or its label names a pose. */
  lemma PriorityIs(file: FileRef, options: Options)
    ensures
      var name := Sanitize(if file.originalName != "" then file.originalName else file.filename, "");
      IsPriorityPose(file, Names(options), LowerNames(Names(options))) <==>
      || (exists n :: n in options.priorityNames && n != "" && Lower(n) == Lower(name))
      || (exists w :: PoseName(w) && Contains(Lower(file.originalName + " " + file.filename), w))
  {
    PoseLabelIs(Lower(file.originalName + " " + file.filename));
    hide PoseLabel, PoseName, Contains, Lower, Sanitize;
  }

  // ---- Sizes

  /** An unknown size counts as an even share of the bytes, rounded down, but as no less than one byte. */
  lemma UnknownSizeIsAShare(file: FileRef, maxBytes: int, maxFiles: int)
    ensures
      var size, share := ResolveSize(file, FallbackSize(maxBytes, maxFiles)), FallbackSize(maxBytes, maxFiles);
      && (file.size > 0 ==> size == file.size)
      && (file.size <= 0 ==> size == share)
      && (0 < maxFiles <= maxBytes ==> share * maxFiles <= maxBytes < (share + 1) * maxFiles)
      && (!(0 < maxFiles <= maxBytes) ==> share == 1)
  {}
}
