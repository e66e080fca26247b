/** Names and lanes of motion files. */
module AnimationNames {
  /**
   * A library file. Empty strings stand for missing ones; the stamps are parsed dates, 0 when missing or unreadable;
   * `authored` says that the file has a display name, tags or motion metadata of its own.
   */
  datatype FileRef = FileRef(url: string, filename: string, originalName: string, size: int, metaUpdatedAt: int, uploadedAt: int, authored: bool)

  function Or(first: string, second: string): string {
    if first != "" then first else second
  }

  function FileKey(file: FileRef): string {
    Or(file.url, file.filename)
  }

  // ---- Names

  predicate Plain(c: char) {
    'a' <= c <= 'z' || 'A' <= c <= 'Z' || '0' <= c <= '9' || c == '_' || c == '-'
  }

  /** How long the extension at the end of the value is, with its dot; 0 if there is none. */
  function Extension(value: string, taken: nat): nat
    requires taken <= |value|
    decreases |value| - taken
  {
    if taken == |value| then 0
    else
      var c := value[|value| - 1 - taken];
      if c == '.' then (if taken > 0 then taken + 1 else 0)
      else if c == '/' then 0
      else Extension(value, taken + 1)
  }

  lemma ExtensionFits(value: string, taken: nat)
    requires taken <= |value|
    ensures Extension(value, taken) <= |value|
    ensures (forall c :: c in value ==> c != '.') ==> Extension(value, taken) == 0
    decreases |value| - taken
  {
    if taken < |value| {
      assert value[|value| - 1 - taken] in value;
      ExtensionFits(value, taken + 1);
    }
  }

  /** The value ends in a dot and at least one more character, none of them a dot or a slash. */
  predicate EndsInExtension(value: string, n: nat) {
    2 <= n <= |value| && value[|value| - n] == '.' && forall i :: |value| - n < i < |value| ==> value[i] != '.' && value[i] != '/'
  }

  /** What is cut off is the extension, if there is one. */
  lemma ExtensionIs(value: string, taken: nat, n: nat)
    requires taken <= |value| && forall i :: |value| - taken <= i < |value| ==> value[i] != '.' && value[i] != '/'
    requires EndsInExtension(value, n)
    ensures Extension(value, taken) == n
    decreases |value| - taken
  {
    if taken < |value| {
      var i := |value| - 1 - taken;
      if value[i] != '.' && value[i] != '/' { ExtensionIs(value, taken + 1, n); }
    }
  }

  lemma ExtensionOnly(value: string, taken: nat)
    requires taken <= |value| && forall i :: |value| - taken <= i < |value| ==> value[i] != '.' && value[i] != '/'
    ensures Extension(value, taken) == 0 || EndsInExtension(value, Extension(value, taken))
    decreases |value| - taken
  {
    if taken < |value| {
      var i := |value| - 1 - taken;
      if value[i] != '.' && value[i] != '/' { ExtensionOnly(value, taken + 1); }
    }
  }

  /** The part that is cut off is empty exactly when the value ends in no extension, and otherwise is the one it ends in. */
  lemma ExtensionIsExact(value: string, n: nat)
    ensures Extension(value, 0) == n <==> if n == 0 then forall k :: !EndsInExtension(value, k) else EndsInExtension(value, n)
  {
    ExtensionOnly(value, 0);
    if Extension(value, 0) == 0 {
      forall k ensures !EndsInExtension(value, k) {
        if EndsInExtension(value, k) { ExtensionIs(value, 0, k); }
      }
    }
    if EndsInExtension(value, n) { ExtensionIs(value, 0, n); }
  }

  function WithoutExtension(value: string): string {
    ExtensionFits(value, 0);
    value[..|value| - Extension(value, 0)]
  }

  /** Every run of characters that are not plain becomes one underscore; `inRun` says that a run has begun. */
  function ReplaceRuns(s: string, inRun: bool): string {
    if s == "" then ""
    else if Plain(s[0]) then [s[0]] + ReplaceRuns(s[1..], false)
    else if inRun then ReplaceRuns(s[1..], true)
    else "_" + ReplaceRuns(s[1..], true)
  }

  function CollapseRuns(s: string, inRun: bool): string {
    if s == "" then ""
    else if s[0] != '_' then [s[0]] + CollapseRuns(s[1..], false)
    else if inRun then CollapseRuns(s[1..], true)
    else "_" + CollapseRuns(s[1..], true)
  }

  function TrimStart(s: string): string {
    if s != "" && s[0] == '_' then TrimStart(s[1..]) else s
  }

  function TrimEnd(s: string): string {
    if s != "" && s[|s| - 1] == '_' then TrimEnd(s[..|s| - 1]) else s
  }

  function Sanitize(value: string, fallback: string): string {
    Or(TrimEnd(TrimStart(CollapseRuns(ReplaceRuns(WithoutExtension(value), false), false))), fallback)
  }

  function AnimationName(file: FileRef, fallback: string): string {
    Sanitize(Or(file.originalName, file.filename), fallback)
  }

  /** Only plain characters, no two underscores in a row, none at either end, and not empty. */
  predicate SafeName(s: string) {
    && s != "" && s[0] != '_' && s[|s| - 1] != '_'
    && (forall c :: c in s ==> Plain(c))
    && (forall i :: 0 <= i < |s| - 1 ==> !(s[i] == '_' && s[i + 1] == '_'))
  }

  predicate Collapsed(s: string) {
    (forall c :: c in s ==> Plain(c)) && (forall i :: 0 <= i < |s| - 1 ==> !(s[i] == '_' && s[i + 1] == '_'))
  }

  lemma {:induction false} ReplaceRunsPlain(s: string, inRun: bool)
    ensures forall c :: c in ReplaceRuns(s, inRun) ==> Plain(c)
  {
    if s != "" { ReplaceRunsPlain(s[1..], !Plain(s[0])); }
  }

  lemma {:induction false} CollapseRunsCollapsed(s: string, inRun: bool)
    requires forall c :: c in s ==> Plain(c)
    ensures Collapsed(CollapseRuns(s, inRun))
    ensures inRun && CollapseRuns(s, inRun) != "" ==> CollapseRuns(s, inRun)[0] != '_'
  {
    if s != "" { CollapseRunsCollapsed(s[1..], s[0] == '_'); }
  }

  lemma {:induction false} TrimStartCollapsed(s: string)
    requires Collapsed(s)
    ensures Collapsed(TrimStart(s)) && (TrimStart(s) != "" ==> TrimStart(s)[0] != '_')
  {}

  lemma {:induction false} TrimEndCollapsed(s: string)
    requires Collapsed(s) && (s != "" ==> s[0] != '_')
    ensures Collapsed(TrimEnd(s)) && (TrimEnd(s) != "" ==> TrimEnd(s)[0] != '_' && TrimEnd(s)[|TrimEnd(s)| - 1] != '_')
  {}

  /** A sanitized name is safe, unless nothing was left and the fallback is returned as it is. */
  lemma SanitizeIsSafe(value: string, fallback: string)
    ensures SafeName(Sanitize(value, fallback)) || (Sanitize(value, fallback) == fallback && Sanitize(value, "") == "")
  {
    var base := WithoutExtension(value);
    ReplaceRunsPlain(base, false);
    CollapseRunsCollapsed(ReplaceRuns(base, false), false);
    TrimStartCollapsed(CollapseRuns(ReplaceRuns(base, false), false));
    TrimEndCollapsed(TrimStart(CollapseRuns(ReplaceRuns(base, false), false)));
  }

  lemma {:induction false} ReplaceRunsIdle(s: string, inRun: bool)
    requires forall c :: c in s ==> Plain(c)
    ensures ReplaceRuns(s, inRun) == s
  {
    if s != "" {
      ReplaceRunsIdle(s[1..], false);
      assert s == [s[0]] + s[1..];
    }
  }

  lemma {:induction false} CollapseRunsIdle(s: string, inRun: bool)
    requires Collapsed(s) && (inRun && s != "" ==> s[0] != '_')
    ensures CollapseRuns(s, inRun) == s
  {
    if s != "" {
      CollapseRunsIdle(s[1..], s[0] == '_');
      assert s == [s[0]] + s[1..];
    }
  }

  /** Safe names are exactly the non-empty names that sanitizing leaves alone. */
  lemma SafeNamesAreFixed(s: string)
    ensures SafeName(s) <==> s != "" && Sanitize(s, "") == s
  {
    if SafeName(s) {
      ExtensionFits(s, 0);
      assert WithoutExtension(s) == s;
      ReplaceRunsIdle(s, false);
      CollapseRunsIdle(s, false);
    } else {
      SanitizeIsSafe(s, "");
    }
  }

  /** Sanitizing twice changes nothing more. */
  lemma SanitizeTwice(value: string)
    ensures Sanitize(Sanitize(value, ""), "") == Sanitize(value, "")
  {
    SanitizeIsSafe(value, "");
    SafeNamesAreFixed(Sanitize(value, ""));
  }

  // ---- Lower case and lanes

  function Lower(s: string): string {
    seq(|s|, i requires 0 <= i < |s| => if 'A' <= s[i] <= 'Z' then s[i] + ('a' - 'A') else s[i])
  }

  predicate EndsWith(s: string, suffix: string) {
    |suffix| <= |s| && s[|s| - |suffix|..] == suffix
  }

  datatype Lane = Vrm | Glb

  function LaneOf(file: FileRef): Lane {
    var text := Lower(Or(file.filename, Or(file.url, file.originalName)));
    if EndsWith(text, ".glb") || EndsWith(text, ".gltf") then Glb else Vrm
  }
}
