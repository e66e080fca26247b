/** Where the answers of the result cache come from. */
module CacheAnswers {
  import opened Outcomes
  import opened ResultCache
  import ResultCacheTheorems

  /** What the thread is going to answer, if it is already known: the animation, and whether it says that it was cached. */
  function Held(phase: Phase): Option<Payload> {
    match phase
    case Touching(_, animation) => Some(Payload(animation, true))
    case Storing(_, animation) => Some(Payload(animation, false))
    case Pruning(_, animation) => Some(Payload(animation, false))
    case Releasing(_, answer) => if answer.Ok? then Some(answer.value) else None
    case Dropping(_, answer) => if answer.Ok? then Some(answer.value) else None
    case Done(answer) => if answer.Ok? then Some(answer.value) else None
    case _ => None
  }

  /** At this step the thread reads this animation from a valid entry of its key. */
  predicate Reads(c: Cache, e: CacheEvent, t: Thread, key: CacheKey, animation: Animation) {
    && e.Runs? && e.thread == t && t in c.threads && c.threads[t].key == key && c.threads[t].phase.Reading?
    && key in c.files && c.files[key] == Valid(animation)
  }

  /** At this step the thread's own analysis for its key, for which it holds the lock, comes back with this animation. */
  predicate Analyses(c: Cache, e: CacheEvent, t: Thread, key: CacheKey, animation: Animation) {
    && e.Runs? && e.thread == t && t in c.threads && c.threads[t].key == key && c.threads[t].phase.Analysing?
    && e.chance.animation == Some(animation)
  }

  ghost predicate Comes(start: Cache, events: seq<CacheEvent>, t: Thread, key: CacheKey, payload: Payload) {
    exists k :: 0 <= k < |events| &&
      var c := CacheExec(start, events[..k]);
      if payload.cacheHit then Reads(c, events[k], t, key, payload.animation) else Analyses(c, events[k], t, key, payload.animation)
  }

  /** Why this step of the thread raises an exception. */
  predicate Stumbles(c: Cache, t: Thread, chance: Chance)
    requires t in c.threads
  {
    match c.threads[t].phase
    case Reading(_) => c.threads[t].key !in c.files || c.files[c.threads[t].key] == Corrupt
    case Touching(_, _) => c.threads[t].key !in c.files
    case Analysing(_) => chance.animation.None?
    case Storing(_, _) => !chance.written
    case Pruning(_, _) => !chance.written
    case _ => false
  }

  /** What one step of a thread does to what it is going to answer, and when it analyses or fails. */
  ghost predicate Tells(c: Cache, c1: Cache, t: Thread, chance: Chance)
    requires t in c.threads
  {
    var call := c.threads[t];
    && t in c1.threads && c1.threads == c.threads[t := c1.threads[t]] && c1.threads[t].key == call.key
    && (Held(c1.threads[t].phase).Some? ==>
          var payload := Held(c1.threads[t].phase).value;
          || Held(call.phase) == Some(payload)
          || (if payload.cacheHit then Reads(c, Runs(t, chance), t, call.key, payload.animation)
              else Analyses(c, Runs(t, chance), t, call.key, payload.animation)))
    && (c1.threads[t].phase.Analysing? <==> call.phase.Looking? && call.phase.held.Some? && call.key !in c.files)
    && c.log <= c1.log
    && (c1.threads[t].phase.Analysing? <==> NimCalled(call.key) in c1.log[|c.log|..])
    && (Failed(call.phase, c1.threads[t].phase) <==> Stumbles(c, t, chance))
    && (Failed(call.phase, c1.threads[t].phase) <==> CallFailed(call.key) in c1.log[|c.log|..])
  }

  /** The call leaves with an exception. */
  predicate Failed(before: Phase, after: Phase) {
    (after.Releasing? || after.Done?) && !before.Releasing? && !before.Dropping? && after.answer.Err?
  }

  lemma Tails(log: seq<CacheAct>)
    ensures log[|log|..] == [] && forall more: seq<CacheAct> :: (log + more)[|log|..] == more
  {}

  lemma LoadTells(c: Cache, t: Thread, chance: Chance)
    requires t in c.threads
    ensures var phase := c.threads[t].phase;
      && (phase.Looking? ==> Tells(c, Look(c, t, phase.held), t, chance))
      && (phase.Reading? ==> Tells(c, Read(c, t, phase.held), t, chance))
  {
    Tails(c.log);
  }

  lemma TouchTells(c: Cache, t: Thread, chance: Chance)
    requires t in c.threads && c.threads[t].phase.Touching?
    ensures Tells(c, Touch(c, t, c.threads[t].phase.held, c.threads[t].phase.animation), t, chance)
  {
    Tails(c.log);
  }

  lemma LockTells(c: Cache, t: Thread, chance: Chance)
    requires t in c.threads
    ensures var phase := c.threads[t].phase;
      && (phase.Choosing? ==> Tells(c, Choose(c, t), t, chance))
      && (phase.Waiting? ==> Tells(c, Acquire(c, t, phase.lock), t, chance))
      && (phase.Releasing? ==> Tells(c, Release(c, t, phase.lock, phase.answer), t, chance))
  {
    Tails(c.log);
  }

  lemma WorkTells(c: Cache, t: Thread, chance: Chance)
    requires t in c.threads
    ensures var phase := c.threads[t].phase;
      && (phase.Analysing? ==> Tells(c, Analyse(c, t, phase.lock, chance.animation), t, chance))
      && (phase.Storing? ==> Tells(c, Store(c, t, phase.lock, phase.animation, chance.written), t, chance))
  {
    Tails(c.log);
  }

  lemma PruneTells(c: Cache, t: Thread, chance: Chance)
    requires t in c.threads && c.threads[t].phase.Pruning?
    ensures Tells(c, PruneOthers(c, t, c.threads[t].phase.lock, c.threads[t].phase.animation, chance.removed, chance.written), t, chance)
  {
    Tails(c.log);
    ResultCacheTheorems.RemovalsAre(chance.removed);
    var removed := Removals(chance.removed);
    assert c.log + removed + [CallFailed(c.threads[t].key)] == c.log + (removed + [CallFailed(c.threads[t].key)]);
    hide Removals;
  }

  lemma DropTells(c: Cache, t: Thread, chance: Chance)
    requires t in c.threads && c.threads[t].phase.Dropping?
    ensures Tells(c, Drop(c, t, c.threads[t].phase.lock, c.threads[t].phase.answer), t, chance)
  {
    Tails(c.log);
  }

  lemma RunTells(c: Cache, t: Thread, chance: Chance)
    requires t in c.threads && !c.threads[t].phase.Done?
    ensures Tells(c, RunThread(c, t, chance), t, chance)
  {
    hide Tells, Look, Read, Touch, Choose, Acquire, Analyse, Store, PruneOthers, Release, Drop;
    LoadTells(c, t, chance);
    LockTells(c, t, chance);
    WorkTells(c, t, chance);
    match c.threads[t].phase
    case Touching(_, _) => TouchTells(c, t, chance);
    case Pruning(_, _) => PruneTells(c, t, chance);
    case Dropping(_, _) => DropTells(c, t, chance);
    case _ =>
  }

  /** A step leaves what a thread is going to answer as it was, gives it up, or finds it out. */
  lemma StepHolds(c: Cache, e: CacheEvent, t: Thread)
    requires t in CacheStep(c, e).threads && Held(CacheStep(c, e).threads[t].phase).Some?
    ensures
      var payload := Held(CacheStep(c, e).threads[t].phase).value;
      var key := CacheStep(c, e).threads[t].key;
      || (t in c.threads && c.threads[t].key == key && Held(c.threads[t].phase) == Some(payload))
      || (if payload.cacheHit then Reads(c, e, t, key, payload.animation) else Analyses(c, e, t, key, payload.animation))
  {
    if CacheEnabled(c, e) && e.Runs? { RunTells(c, e.thread, e.chance); }
    hide RunThread;
  }

  lemma {:induction false} HeldComes(start: Cache, events: seq<CacheEvent>, t: Thread)
    requires Fresh(start)
    requires var c := CacheExec(start, events); t in c.threads && Held(c.threads[t].phase).Some?
    ensures var c := CacheExec(start, events); Comes(start, events, t, c.threads[t].key, Held(c.threads[t].phase).value)
    decreases |events|
  {
    hide CacheStep, Held, Reads, Analyses;
    if events != [] {
      var n := |events| - 1;
      var before := CacheExec(start, events[..n]);
      assert events == events[..n] + [events[n]];
      ResultCacheTheorems.Then(start, events[..n], events[n]);
      StepHolds(before, events[n], t);
      var c := CacheExec(start, events);
      if t in before.threads && before.threads[t].key == c.threads[t].key && Held(before.threads[t].phase) == Held(c.threads[t].phase) {
        HeldComes(start, events[..n], t);
        var payload := Held(c.threads[t].phase).value;
        var k :| 0 <= k < n &&
          var c := CacheExec(start, events[..n][..k]);
          if payload.cacheHit then Reads(c, events[..n][k], t, before.threads[t].key, payload.animation)
          else Analyses(c, events[..n][k], t, before.threads[t].key, payload.animation);
        assert events[..n][..k] == events[..k] && events[..n][k] == events[k];
      }
    }
  }

  /**
   * A call analyses exactly when it has the lock and finds no entry, and fails exactly when an entry it has found is
   * unreadable or gone, or the analysis, the writing or the pruning fails.
   */
  lemma CallsAndFailsExactly(c: Cache, t: Thread, chance: Chance)
    requires CacheEnabled(c, Runs(t, chance))
    ensures
      var c1, call := CacheStep(c, Runs(t, chance)), c.threads[t];
      && t in c1.threads && c.log <= c1.log
      && (c1.threads[t].phase.Analysing? <==> call.phase.Looking? && call.phase.held.Some? && call.key !in c.files)
      && (c1.threads[t].phase.Analysing? <==> NimCalled(call.key) in c1.log[|c.log|..])
      && (Failed(call.phase, c1.threads[t].phase) <==> Stumbles(c, t, chance))
      && (Failed(call.phase, c1.threads[t].phase) <==> CallFailed(call.key) in c1.log[|c.log|..])
  {
    RunTells(c, t, chance);
    hide RunThread;
  }

  /**
   * An answer is honest: one that says it was cached was read from a valid entry of the key by the very call that gives
   * it, and one that does not is what the analysis of that call returned.
   */
  lemma AnswersAreHonest(start: Cache, events: seq<CacheEvent>, t: Thread)
    requires Fresh(start)
    requires var c := CacheExec(start, events); t in c.threads && c.threads[t].phase.Done? && c.threads[t].phase.answer.Ok?
    ensures var c := CacheExec(start, events); Comes(start, events, t, c.threads[t].key, c.threads[t].phase.answer.value)
  {
    HeldComes(start, events, t);
    hide Comes;
  }
}
