/** Reading a file that others may change: one stable snapshot of it, or nothing. */
module SnapshotRead {
  import opened Outcomes
  import opened Bytes
  import opened Wire
  import opened Descriptors
  import opened PathCheck

  /** What the system reports of a file; `size` may be out of range. */
  datatype Stat = Stat(device: Long, inode: Long, size: int, modified: Time, changed: Time, regular: bool)

  predicate SameFile(a: Stat, b: Stat) {
    a.device == b.device && a.inode == b.inode && a.size == b.size && a.modified == b.modified && a.changed == b.changed
  }

  /** Where the name leads: nowhere, to the held file, or to another one. */
  datatype Leads = Nowhere | Held | Elsewhere(stat: Stat)

  /** The held file and its name at one moment. */
  datatype Moment = Moment(stat: Stat, content: seq<Byte>, name: Leads)

  /**
   * The history is one of a real file: its size is the length of its content, two moments with the same five fields
   * have no change of content between them, and no other file has its device and inode while it is held.
   */
  ghost predicate Faithful(history: seq<Moment>) {
    && (forall i :: 0 <= i < |history| ==> history[i].stat.size == |history[i].content|)
    && (forall i, k, j {:trigger history[i], history[k], history[j]} ::
          0 <= i <= k <= j < |history| && history[i].stat.(regular := true) == history[j].stat.(regular := true) ==>
            history[k].content == history[i].content)
    && (forall i, j :: 0 <= i < |history| && 0 <= j < |history| && history[j].name.Elsewhere? ==>
          history[i].stat.device != history[j].name.stat.device || history[i].stat.inode != history[j].name.stat.inode)
  }

  /** The file does not change and its name keeps leading to it. */
  ghost predicate Quiet(history: seq<Moment>) {
    forall i :: 0 <= i < |history| ==> history[i] == history[0] && history[i].name == Held
  }

  /** Time passes before every call; the call then does what the service says. */
  datatype Step = Step(wait: nat, service: Service)

  ghost predicate Smooth(script: seq<Step>) {
    forall i :: 0 <= i < |script| ==> script[i].service != Fails
  }

  class HeldFile {
    const history: seq<Moment>
    var now: nat
    var offset: nat
    var script: seq<Step>

    ghost predicate Valid()
      reads this
    {
      now < |history|
    }

    constructor (history: seq<Moment>, script: seq<Step>)
      requires history != []
      ensures Valid() && this.history == history && this.script == script && now == 0 && offset == 0
    {
      this.history, this.script, now, offset := history, script, 0, 0;
    }

    method Call() returns (service: Service)
      requires Valid()
      modifies `now, `script
      ensures Valid() && old(now) <= now && |script| <= |old(script)|
      ensures service.TryAgain? ==> |script| < |old(script)|
      ensures Smooth(old(script)) ==> Smooth(script) && service != Fails
    {
      service := Serves(0x1_0000_0000);
      if script != [] {
        var step := script[0];
        script := script[1..];
        service := step.service;
        now := if now + step.wait < |history| then now + step.wait else |history| - 1;
      }
    }

    method Fstat() returns (stat: Option<Stat>)
      requires Valid()
      modifies `now, `script
      ensures Valid() && old(now) <= now && (stat.Some? ==> stat.value == history[now].stat)
      ensures Smooth(old(script)) ==> Smooth(script) && stat.Some?
    {
      var service := Call();
      stat := if service == Fails then None else Some(history[now].stat);
    }

    /** Opens the file again by its name. */
    method Reopen() returns (leads: Leads)
      requires Valid()
      modifies `now, `script
      ensures Valid() && old(now) <= now && (leads == Nowhere || leads == history[now].name)
      ensures Smooth(old(script)) ==> Smooth(script) && leads == history[now].name
    {
      var service := Call();
      leads := if service == Fails then Nowhere else history[now].name;
    }

    /** The reported fields of what was opened by name. */
    method FstatOf(leads: Leads) returns (stat: Option<Stat>)
      requires Valid() && leads != Nowhere
      modifies `now, `script
      ensures Valid() && old(now) <= now
      ensures stat.Some? ==> stat.value == if leads == Held then history[now].stat else leads.stat
      ensures Smooth(old(script)) ==> Smooth(script) && stat.Some?
    {
      stat := Fstat();
      if stat.Some? && leads.Elsewhere? { stat := Some(leads.stat); }
    }

    /** The next bytes of the content as it is now; none when the position is at its end or beyond. */
    method Read(wanted: nat) returns (result: ReadResult)
      requires Valid() && wanted > 0
      modifies `now, `offset, `script
      ensures Valid() && old(now) <= now && |script| <= |old(script)|
      ensures Smooth(old(script)) ==> Smooth(script) && result != Failure
      ensures result == Again ==> offset == old(offset) && |script| < |old(script)|
      ensures result.Data? ==>
        && |result.bytes| <= wanted && offset == old(offset) + |result.bytes|
        && (result.bytes == [] ==> old(offset) >= |history[now].content|)
        && (result.bytes != [] ==> offset <= |history[now].content| && result.bytes == history[now].content[old(offset)..offset])
    {
      var service := Call();
      match service
      case TryAgain => result := Again;
      case Fails => result := Failure;
      case Serves(most) =>
        var content := history[now].content;
        if offset >= |content| { return Data([]); }
        var left := |content| - offset;
        var n := Served(most, if wanted < left then wanted else left);
        result := Data(content[offset..offset + n]);
        offset := offset + n;
    }
  }

  /** The admission check, at the moment of the first look. */
  predicate Admits(stat: Stat, limit: nat) {
    stat.regular && 0 <= stat.size <= limit
  }

  /**
   * The published bytes are the complete content, of the size first reported and within the limit: unchanged from the
   * first look, past the moment when the name was found to lead to this very file, to the last look.
   */
  ghost predicate Snapshot(history: seq<Moment>, limit: nat, bytes: seq<Byte>) {
    exists first: nat, named: nat, last: nat ::
      && first <= named <= last < |history|
      && Admits(history[first].stat, limit) && |bytes| == history[first].stat.size
      && history[named].name == Held
      && Unchanged(history, first, last, bytes)
  }

  ghost predicate Unchanged(history: seq<Moment>, first: nat, last: nat, bytes: seq<Byte>) {
    forall k :: first <= k <= last < |history| ==> history[k].content == bytes
  }

  /** The bytes read so far are those of the first content, if nothing changed since. */
  ghost predicate Tracks(history: seq<Moment>, first: nat, now: nat, read: seq<Byte>) {
    first <= now < |history| && (Unchanged(history, first, now, history[first].content) ==> read <= history[first].content)
  }

  /** Reads until the end, or until one byte more than the limit was read: the buffer never overflows. */
  method ReadAll(file: HeldFile, buffer: array<Byte>, limit: nat) returns (used: int)
    requires file.Valid() && file.offset == 0 && buffer.Length == limit + 1
    modifies file, buffer
    ensures file.Valid() && old(file.now) <= file.now && -1 <= used <= limit + 1
    ensures used >= 0 ==> Tracks(file.history, old(file.now), file.now, buffer[..used])
    ensures used >= 0 && used <= limit && Unchanged(file.history, old(file.now), file.now, file.history[old(file.now)].content) ==>
              buffer[..used] == file.history[old(file.now)].content
    ensures Smooth(old(file.script)) ==> Smooth(file.script) && used >= 0
  {
    ghost var history := file.history;
    ghost var first := file.now;
    used := 0;
    while used <= limit
      invariant file.Valid() && first <= file.now && 0 <= used <= limit + 1 && file.offset == used
      invariant Tracks(history, first, file.now, buffer[..used])
      invariant Smooth(old(file.script)) ==> Smooth(file.script)
      decreases |file.script| + (limit + 1 - used)
    {
      ghost var before := buffer[..used];
      ghost var earlier := file.now;
      var result := file.Read(limit + 1 - used);
      match result
      case Again => Later(history, first, earlier, file.now, before);
      case Failure => return -1;
      case Data(bytes) =>
        if bytes == [] {
          Later(history, first, earlier, file.now, before);
          return;
        }
        Fill(buffer, used, bytes);
        More(history, first, earlier, file.now, before, bytes);
        used := used + |bytes|;
    }
  }

  lemma Later(history: seq<Moment>, first: nat, now: nat, later: nat, read: seq<Byte>)
    requires Tracks(history, first, now, read) && now <= later < |history|
    ensures Tracks(history, first, later, read)
  {}

  lemma More(history: seq<Moment>, first: nat, now: nat, later: nat, read: seq<Byte>, bytes: seq<Byte>)
    requires Tracks(history, first, now, read) && now <= later < |history| && |read| + |bytes| <= |history[later].content|
    requires bytes == history[later].content[|read|..|read| + |bytes|]
    ensures Tracks(history, first, later, read + bytes)
  {
    if Unchanged(history, first, later, history[first].content) {
      assert Unchanged(history, first, now, history[first].content);
      assert history[later].content == history[first].content;
    }
  }

  /** What the name led to at one moment was reported with the same fields at the last. */
  predicate Confirms(history: seq<Moment>, named: nat, last: nat, before: Stat) {
    && named <= last < |history| && history[named].name != Nowhere
    && SameFile(before, if history[named].name == Held then history[last].stat else history[named].name.stat)
  }

  /** The checks after reading: the held file is as it was, complete, and still what its name leads to. */
  method Confirm(file: HeldFile, before: Stat, used: nat, limit: nat) returns (valid: bool, ghost named: nat)
    requires file.Valid()
    modifies file`now, file`script
    ensures file.Valid() && old(file.now) <= file.now
    ensures valid ==>
      && used <= limit && used == before.size
      && old(file.now) <= named <= file.now
      && Confirms(file.history, named, file.now, before)
    ensures
      Smooth(old(file.script)) && used <= limit && used == before.size
      && (forall i :: old(file.now) <= i < |file.history| ==> file.history[i].name == Held && SameFile(before, file.history[i].stat)) ==>
        valid
  {
    var leads := file.Reopen();
    named := file.now;
    valid := false;
    if used > limit { return; }
    var after := file.Fstat();
    if after.None? || !SameFile(before, after.value) || used != after.value.size || leads == Nowhere { return; }
    after := file.FstatOf(leads);
    if after.None? || !SameFile(before, after.value) { return; }
    valid := true;
  }

  /** At some moment the file was none to publish. */
  ghost predicate SometimeRefused(history: seq<Moment>, limit: nat) {
    exists k :: 0 <= k < |history| && !Admits(history[k].stat, limit)
  }

  datatype ReadReply = NotOrdinary | ReadFailed | Changed | Content(bytes: seq<Byte>)

  /** READ: the content of the file, or nothing. */
  method ReadFile(file: HeldFile, limit: nat) returns (reply: ReadReply)
    requires file.Valid() && file.offset == 0 && Faithful(file.history)
    modifies file
    ensures file.Valid()
    ensures reply.Content? ==> Snapshot(file.history, limit, reply.bytes)
    ensures Quiet(file.history) && Smooth(old(file.script)) ==>
      reply == if Admits(file.history[0].stat, limit) then Content(file.history[0].content) else NotOrdinary
    ensures reply == NotOrdinary && Smooth(old(file.script)) ==> SometimeRefused(file.history, limit)
    ensures reply == ReadFailed ==> !Smooth(old(file.script))
  {
    ghost var history := file.history;
    var before := file.Fstat();
    if before.None? || !Admits(before.value, limit) { return NotOrdinary; }
    ghost var first := file.now;
    var buffer := new Byte[limit + 1];
    var used := ReadAll(file, buffer, limit);
    if used < 0 { return ReadFailed; }
    ghost var earlier := file.now;
    var valid, named := Confirm(file, before.value, used, limit);
    if !valid {
      assert Quiet(history) && Smooth(old(file.script)) ==> false by {
        if Quiet(history) {
          assert Unchanged(history, first, earlier, history[first].content);
        }
      }
      return Changed;
    }
    Stable(history, first, named, file.now, before.value);
    assert Unchanged(history, first, earlier, history[first].content);
    assert Snapshot(history, limit, buffer[..used]);
    return Content(buffer[..used]);
  }

  /** A name that leads to another file fails the comparison, so the name led to the held file and nothing changed. */
  lemma Stable(history: seq<Moment>, first: nat, named: nat, last: nat, before: Stat)
    requires Faithful(history) && first <= named <= last < |history| && before == history[first].stat
    requires Confirms(history, named, last, before)
    ensures history[named].name == Held && Unchanged(history, first, last, history[first].content)
  {}

  // ---- STAT

  function StatBody(stat: Stat, changed: Long, modified: Long): (body: seq<Byte>)
    requires 0 <= stat.size <= LONG_MAX
    ensures |body| == 40
  {
    Bytes64(stat.size) + Bytes64(stat.device) + Bytes64(stat.inode) + Bytes64(changed) + Bytes64(modified)
  }

  /** The five numbers can be read back. */
  lemma StatBodyRoundTrip(stat: Stat, changed: Long, modified: Long)
    requires 0 <= stat.size <= LONG_MAX
    ensures
      var body := StatBody(stat, changed, modified);
      && Value64(body[..8]) == stat.size && Value64(body[8..16]) == stat.device && Value64(body[16..24]) == stat.inode
      && Value64(body[24..32]) == changed && Value64(body[32..]) == modified
  {
    var body := StatBody(stat, changed, modified);
    RoundTrip64(stat.size, []);
    RoundTrip64(stat.device, []);
    RoundTrip64(stat.inode, []);
    RoundTrip64(changed, []);
    RoundTrip64(modified, []);
    hide Bytes64, Value64;
    assert body[..8] == Bytes64(stat.size) && body[8..16] == Bytes64(stat.device) && body[16..24] == Bytes64(stat.inode);
    assert body[24..32] == Bytes64(changed) && body[32..] == Bytes64(modified);
  }

  datatype StatReply = NotAdmitted | NameChanged | TimeRange | Reported(body: seq<Byte>)

  /** The body holds the fields of the file as first seen, and the name led to that file afterwards. */
  ghost predicate Reports(history: seq<Moment>, limit: nat, body: seq<Byte>) {
    exists first: nat, named: nat :: ReportsAt(history, limit, body, first, named)
  }

  function Nanoseconds(t: Time): int {
    t.seconds * NANOS + t.nanos
  }

  ghost predicate ReportsAt(history: seq<Moment>, limit: nat, body: seq<Byte>, first: nat, named: nat) {
    && first <= named < |history| && history[named].name == Held && |body| == 40
    && var stat := history[first].stat;
      && Admits(stat, limit) && limit <= LONG_MAX && ValidTime(stat.changed) && ValidTime(stat.modified)
      && 0 <= Nanoseconds(stat.changed) <= LONG_MAX && 0 <= Nanoseconds(stat.modified) <= LONG_MAX
      && body == StatBody(stat, Nanoseconds(stat.changed), Nanoseconds(stat.modified))
  }

  /** Both times are valid and fit in 64 bits of nanoseconds. */
  predicate TimesFit(stat: Stat) {
    && ValidTime(stat.changed) && ValidTime(stat.modified)
    && Nanoseconds(stat.changed) <= LONG_MAX && Nanoseconds(stat.modified) <= LONG_MAX
  }

  /** At some moment the file was one to report, but for its times. */
  ghost predicate SometimeUnfit(history: seq<Moment>, limit: nat) {
    exists k :: 0 <= k < |history| && Admits(history[k].stat, limit) && !TimesFit(history[k].stat)
  }

  /** STAT: the fields of an admissible file to which the name leads, if its times fit. */
  method StatFile(file: HeldFile, limit: nat) returns (reply: StatReply)
    requires file.Valid() && Faithful(file.history) && limit <= LONG_MAX
    modifies file`now, file`script
    ensures file.Valid()
    ensures reply.Reported? ==> Reports(file.history, limit, reply.body)
    ensures Quiet(file.history) && Smooth(old(file.script)) ==>
      reply == (
        if !Admits(file.history[0].stat, limit) then NotAdmitted
        else if !TimesFit(file.history[0].stat) then TimeRange
        else Reported(StatBody(file.history[0].stat, Nanoseconds(file.history[0].stat.changed), Nanoseconds(file.history[0].stat.modified))))
    ensures reply == NotAdmitted && Smooth(old(file.script)) ==> SometimeRefused(file.history, limit)
    ensures reply == TimeRange ==> SometimeUnfit(file.history, limit)
  {
    hide Bytes64;
    var before := file.Fstat();
    if before.None? || !Admits(before.value, limit) { return NotAdmitted; }
    ghost var first := file.now;
    var leads := file.Reopen();
    ghost var named := file.now;
    if leads == Nowhere { return NameChanged; }
    var after := file.FstatOf(leads);
    if after.None? || !SameFile(before.value, after.value) { return NameChanged; }
    var fits, changed, modified := StatTimes(before.value.changed, before.value.modified);
    if !fits { return TimeRange; }
    assert file.history[named].name == Held && file.history[first].stat == before.value;
    var body := PackStat(before.value, changed, modified);
    assert ReportsAt(file.history, limit, body, first, named);
    return Reported(body);
  }

  method PackStat(stat: Stat, changed: Long, modified: Long) returns (body: seq<Byte>)
    requires 0 <= stat.size <= LONG_MAX
    ensures body == StatBody(stat, changed, modified)
  {
    hide Bytes64;
    var packed := new Byte[40];
    Put64(packed, 0, stat.size);
    Put64(packed, 8, stat.device);
    Put64(packed, 16, stat.inode);
    Put64(packed, 24, changed);
    Put64(packed, 32, modified);
    return packed[..];
  }

  // ---- The request

  function ErrorFrame(id: Word, text: string): Frame {
    Frame(255, id, Ascii(text))
  }

  const ERRORS: set<string> :=
    {"relative-path", "confined-open", "ordinary-bounded-file", "read", "changed-or-oversize", "name-changed", "stat-time-range"}

  /** The error texts can be told apart. */
  lemma TextsDiffer(a: string, b: string)
    requires a in ERRORS && b in ERRORS && Ascii(a) == Ascii(b)
    ensures a == b
  {
    assert |Ascii(a)| == |a| && |Ascii(b)| == |b|;
    assert Ascii("relative-path")[0] == 114 && Ascii("confined-open")[0] == 99;
  }

  /** A time after the epoch whose nanoseconds fit in 64 bits. */
  predicate Fits(t: Time) {
    t.seconds >= 0 && 0 <= t.nanos < 1_000_000_000 && t.seconds * 1_000_000_000 + t.nanos <= 18_446_744_073_709_551_615
  }

  /** What the answer is when nothing changes and nothing fails: the content, the fields, or why there is none. */
  function QuietAnswer(stat: bool, id: Word, limit: nat, moment: Moment): Frame
    requires limit < 0xFFFF_FFFF
  {
    var found := moment.stat;
    if !found.regular || found.size < 0 || found.size > limit then ErrorFrame(id, "ordinary-bounded-file")
    else if !stat then Frame(129, id, moment.content)
    else if !Fits(found.changed) || !Fits(found.modified) then ErrorFrame(id, "stat-time-range")
    else
      Frame(130, id, Bytes64(found.size) + Bytes64(found.device) + Bytes64(found.inode)
                     + Bytes64(found.changed.seconds * 1_000_000_000 + found.changed.nanos)
                     + Bytes64(found.modified.seconds * 1_000_000_000 + found.modified.nanos))
  }

  lemma QuietAnswerIs(stat: bool, id: Word, limit: nat, moment: Moment)
    requires limit < 0xFFFF_FFFF
    ensures QuietAnswer(stat, id, limit, moment) ==
            if !Admits(moment.stat, limit) then ErrorFrame(id, "ordinary-bounded-file")
            else if !stat then Frame(129, id, moment.content)
            else if !TimesFit(moment.stat) then ErrorFrame(id, "stat-time-range")
            else Frame(130, id, StatBody(moment.stat, Nanoseconds(moment.stat.changed), Nanoseconds(moment.stat.modified)))
  {
    hide Ascii, Bytes64;
  }

  /** When an error text is sent for a file that was opened: something failed, or was so at some moment, or changed. */
  ghost predicate Excuse(text: string, stat: bool, limit: nat, history: seq<Moment>, smooth: bool) {
    match text
    case "ordinary-bounded-file" => !smooth || SometimeRefused(history, limit)
    case "read" => !stat && !smooth
    case "changed-or-oversize" => !stat && (!smooth || !Quiet(history))
    case "name-changed" => stat && (!smooth || !Quiet(history))
    case "stat-time-range" => stat && SometimeUnfit(history, limit)
    case _ => false
  }

  /**
   * One frame with the id of the request. `file` is what the confined open of the name gave, if it succeeded. Content is
   * published only as a snapshot, and of a quiet file exactly when it may be; every other answer is one of the fixed error
   * texts, each with its own excuse.
   */
  method FileRequest(stat: bool, id: Word, name: seq<Byte>, limit: nat, file: HeldFile?) returns (frame: Frame)
    requires limit < 0xFFFF_FFFF && (file != null ==> file.Valid() && file.offset == 0 && Faithful(file.history))
    modifies file
    ensures Sendable(frame) && frame.id == id && frame.kind in {if stat then 130 else 129, 255}
    ensures frame == ErrorFrame(id, "relative-path") <==> !RelativePath(name)
    ensures frame == ErrorFrame(id, "confined-open") <==> RelativePath(name) && file == null
    ensures frame.kind == 129 ==> file != null && Snapshot(file.history, limit, frame.body)
    ensures frame.kind == 130 ==> file != null && Reports(file.history, limit, frame.body)
    ensures RelativePath(name) && file != null && Quiet(file.history) && Smooth(old(file.script)) ==>
      frame == QuietAnswer(stat, id, limit, file.history[0])
    ensures RelativePath(name) && file != null && frame.kind == 255 ==>
      exists text :: text in ERRORS && frame == ErrorFrame(id, text) && Excuse(text, stat, limit, file.history, Smooth(old(file.script)))
  {
    OpeningTexts(id);
    if file != null { QuietAnswerIs(stat, id, limit, file.history[0]); }
    hide Ascii, ERRORS, QuietAnswer, Admits, TimesFit, StatBody;
    var ok := RelativeOk(name);
    if !ok { return ErrorFrame(id, "relative-path"); }
    if file == null { return ErrorFrame(id, "confined-open"); }
    var text := "ordinary-bounded-file";
    if stat {
      var reply := StatFile(file, limit);
      match reply
      case Reported(body) => return Frame(130, id, body);
      case NotAdmitted =>
      case NameChanged => text := "name-changed";
      case TimeRange => text := "stat-time-range";
    } else {
      var reply := ReadFile(file, limit);
      match reply
      case Content(bytes) => return Frame(129, id, bytes);
      case NotOrdinary =>
      case ReadFailed => text := "read";
      case Changed => text := "changed-or-oversize";
    }
    assert Excuse(text, stat, limit, file.history, Smooth(old(file.script)));
    frame := ErrorFrame(id, text);
  }

  /** The texts for a name that is not opened differ from all others. */
  lemma OpeningTexts(id: Word)
    ensures forall text :: text in ERRORS && text != "relative-path" ==> ErrorFrame(id, text) != ErrorFrame(id, "relative-path")
    ensures forall text :: text in ERRORS && text != "confined-open" ==> ErrorFrame(id, text) != ErrorFrame(id, "confined-open")
    ensures "relative-path" in ERRORS && "confined-open" in ERRORS && "ordinary-bounded-file" in ERRORS && "read" in ERRORS
    ensures "changed-or-oversize" in ERRORS && "name-changed" in ERRORS && "stat-time-range" in ERRORS
  {
    forall text | text in ERRORS && text != "relative-path" ensures ErrorFrame(id, text) != ErrorFrame(id, "relative-path") {
      if Ascii(text) == Ascii("relative-path") { TextsDiffer(text, "relative-path"); }
    }
    forall text | text in ERRORS && text != "confined-open" ensures ErrorFrame(id, text) != ErrorFrame(id, "confined-open") {
      if Ascii(text) == Ascii("confined-open") { TextsDiffer(text, "confined-open"); }
    }
  }
}
