/** A repeated `executeFile`: what the document answers once both intents are known. */
module FileReplays {
  import opened Outcomes
  import opened Document
  import DocumentSafety
  import DocumentTheorems
  import opened CanonicalJson
  import opened JsonReader
  import opened FileIntent

  /** A parsed request is identified with its JSON value, up to the order of keys. */
  ghost predicate Encodes(encode: Request -> Json) {
    && (forall request :: Possible(encode(request)))
    && (forall a, b :: Same(encode(a), encode(b)) <==> a == b)
  }

  /** What the intent of these files may settle with: its text, or any failure on the way. */
  ghost predicate Settles(hashes: Hashes, encode: Request -> Json, request: Request, files: seq<SuppliedFile>, outcome: Result<Text, Reason>) {
    outcome.Ok? ==> Intent(hashes, encode(request), files) == Some(outcome.value)
  }

  /** The first intent for the id settles. */
  function Prepared(d: Doc, id: RequestId, env: Env, intent: Result<Text, Reason>): Doc {
    Step(d, if intent.Ok? then DoFilePrepared(id, env, intent.value) else DoFileUnprepared(id, intent.error))
  }

  /** What the first intent settled with is kept with the id for ever. */
  lemma IntentIsKept(d: Doc, id: RequestId, env: Env, intent: Result<Text, Reason>, events: seq<Event>)
    requires DocumentSafety.Reachable(d) && AtPhase(d, id, Preparing)
    ensures
      var later := Exec(Prepared(d, id, env, intent), events);
      id in later.receipts && later.receipts[id].kind == File && later.receipts[id].intent == Some(intent)
  {
    DocumentSafety.ReachableInv(d);
    assert DocumentSafety.RunOk(d, id);
    var e := if intent.Ok? then DoFilePrepared(id, env, intent.value) else DoFileUnprepared(id, intent.error);
    DocumentSafety.StepKeeps(d, e);
    PreparedRun(d, id, env, intent);
    hide Step, DocumentSafety.Inv, DocumentSafety.RunOk;
    DocumentSafety.RunKeeps(Step(d, e), events);
    assert DocumentSafety.Forward(Step(d, e).receipts[id], Exec(Step(d, e), events).receipts[id]);
  }

  lemma PreparedRun(d: Doc, id: RequestId, env: Env, intent: Result<Text, Reason>)
    requires AtPhase(d, id, Preparing)
    ensures
      var d1 := Prepared(d, id, env, intent);
      id in d1.receipts && d1.receipts[id].kind == d.receipts[id].kind && d1.receipts[id].intent == Some(intent)
  {
    hide Check, CaughtOutcome;
  }

  /**
   * With hashes that have no collisions, a repeated file request whose intent and the first one's both settle with a text
   * is answered with the first promise exactly when it is the same request with the same files, byte for byte, and is
   * refused as a conflict otherwise; when one of them fails it is refused for that failure. So it is whatever happened to
   * the first run in the meantime.
   */
  lemma RepeatedFile(hashes: Hashes, encode: Request -> Json, d: Doc, id: RequestId, env: Env, files: seq<SuppliedFile>, prior: Result<Text, Reason>,
                     events: seq<Event>, request: Request, again: seq<SuppliedFile>, next: Result<Text, Reason>, priorFirst: bool)
    requires Injective(hashes) && Encodes(encode) && DocumentSafety.Reachable(d) && AtPhase(d, id, Preparing) && request.requestId == id
    requires Settles(hashes, encode, d.receipts[id].request, files, prior) && Settles(hashes, encode, request, again, next)
    ensures
      var later := Exec(Prepared(d, id, env, prior), events);
      && id in later.receipts
      && RepeatAnswer(later, request, next, priorFirst) == Some(
           if prior.Ok? && next.Ok? then
             if request == d.receipts[id].request && again == files then Promised(id) else Now(BlockedReceipt(request, RequestIdConflict))
           else if prior.Err? && (priorFirst || next.Ok?) then Now(BlockedReceipt(request, prior.error))
           else Now(BlockedReceipt(request, next.error)))
  {
    var first := d.receipts[id].request;
    IntentIsKept(d, id, env, prior, events);
    assert Possible(encode(first)) && Possible(encode(request)) && (Same(encode(first), encode(request)) <==> first == request);
    hide Injective, Encodes, Intent, Exec, Prepared, DocumentSafety.Reachable;
    if prior.Ok? && next.Ok? { SameIntentSameFiles(hashes, encode(first), files, encode(request), again); }
    hide Same, Possible;
  }

  /** Until the first intent has settled, a repeat with an intent of its own waits. */
  lemma RepeatWaits(d: Doc, request: Request, next: Text, priorFirst: bool)
    requires DocumentSafety.Reachable(d) && request.requestId in d.receipts && d.receipts[request.requestId].kind == File
    ensures RepeatAnswer(d, request, Ok(next), priorFirst).None? <==> d.receipts[request.requestId].phase.Preparing?
  {
    DocumentSafety.ReachableInv(d);
    assert DocumentSafety.RunOk(d, request.requestId);
    hide DocumentSafety.Reachable;
  }
}
