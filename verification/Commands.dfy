/**
 * The whole page: its document, its lease, and the commands that reach it as live events. Each command is hashed,
 * executed by the document, signed and answered once; a cancellation may race it at any point.
 */
module Commands {
  import opened Outcomes
  import opened Lease
  import D = Document

  const MAX_COMMANDS := 128

  type Nonce(==, !new)
  type Digest(==, !new)

  /** A command is identified with its canonical JSON. */
  datatype Command = Command(ref: Ref, nonce: Nonce, actionHash: Digest, request: Request)

  /** Where the promise of one command stands; `Over` holds what it was rejected with, if anything. */
  datatype FlightPhase =
    | Hashing
    | Executing(answer: D.Answer)
    | Signing(receipt: Receipt)
    | Posting(receipt: Receipt)
    | Over(failure: Option<Error>)

  datatype Flight = Flight(command: Command, captured: nat, executed: bool, phase: FlightPhase)

  /** `under` is the registration held at that moment. */
  datatype CommandAct =
    | CommandTaken(command: Command)
    | CancellationTaken(command: Command)
    | CommandExecuted(command: Command)
    | ReceiptSigning(command: Command, receipt: Receipt, under: Option<Ref>)
    | ReceiptPosted(command: Command, receipt: Receipt, under: Option<Ref>)
    | TransportRetired

  /**
   * `flights` keeps every promise ever started: a retired transport forgets them (`byNonce`, the keys of its map), but
   * they still run to their end.
   */
  datatype Tab = Tab(doc: D.Doc, lease: LeaseState, flights: map<Nonce, Flight>, byNonce: set<Nonce>, observed: map<RequestId, Command>,
                     cancelled: map<Nonce, Command>, inFlight: set<RequestId>, log: seq<CommandAct>)

  function InitTab(documentId: string, documentEpoch: string, key: Key): Tab {
    Tab(D.Init(documentId, documentEpoch), InitLease(key), map[], {}, map[], map[], {}, [])
  }

  function Under(l: LeaseState): Option<Ref> {
    if l.registration.Some? then Some(l.registration.value.ref) else None
  }

  // ---- Events from the server

  /** An event is for another document, wrong, or taken. */
  datatype Hearing = Ignored | Rejected(reason: Reason) | Taken

  predicate SameDocument(command: Command, registration: Registration) {
    && command.request.documentId == registration.identity.documentId
    && command.request.documentEpoch == registration.identity.documentEpoch
  }

  /** Another command is known under this request id. */
  predicate Contradicts(t: Tab, command: Command) {
    command.request.requestId in t.observed && t.observed[command.request.requestId] != command
  }

  function HearCommand(t: Tab, command: Command, now: int): Hearing {
    if !t.lease.alive || t.lease.registration.None? then Ignored
    else
      var registration := t.lease.registration.value;
      if command.ref.registrationId != registration.ref.registrationId then Ignored
      else if command.ref != registration.ref || registration.expiresAt <= now || !SameDocument(command, registration) then Rejected(StaleRegistration)
      else if command.nonce in t.byNonce then Ignored
      else if |t.byNonce| >= MAX_COMMANDS then Rejected(ReceiptCapacity)
      else if Contradicts(t, command) then Rejected(CommandMismatch)
      else if command.nonce in t.cancelled && t.cancelled[command.nonce] != command then Rejected(CommandMismatch)
      else Taken
  }

  function TakeCommand(t: Tab, command: Command, now: int): Tab {
    if HearCommand(t, command, now) != Taken then t
    else
      t.(observed := t.observed[command.request.requestId := command], byNonce := t.byNonce + {command.nonce},
         flights := t.flights[command.nonce := Flight(command, t.lease.generation, false, Hashing)], log := t.log + [CommandTaken(command)])
  }

  function HearCancellation(t: Tab, command: Command, now: int): Hearing {
    if !t.lease.alive || t.lease.registration.None? then Ignored
    else
      var registration := t.lease.registration.value;
      if command.ref.registrationId != registration.ref.registrationId then Ignored
      else if command.ref != registration.ref || !SameDocument(command, registration) then Rejected(StaleRegistration)
      else if now >= command.request.expiresAt then Rejected(ExpiredRequest)
      else if Contradicts(t, command) then Rejected(CommandMismatch)
      else if command.nonce in t.cancelled then (if t.cancelled[command.nonce] != command then Rejected(CommandMismatch) else Ignored)
      else if |t.cancelled| >= MAX_COMMANDS then Rejected(ReceiptCapacity)
      else Taken
  }

  function TakeCancellation(t: Tab, command: Command, now: int): Tab {
    if HearCancellation(t, command, now) != Taken then t
    else
      t.(cancelled := t.cancelled[command.nonce := command], log := t.log + [CancellationTaken(command)],
         doc := if command.request.requestId in t.observed then D.Cancel(t.doc, command.request.requestId) else t.doc)
  }

  // ---- One flight

  /** The promise of a command settles; its `finally` block forgets the request if it was executing. */
  function EndFlight(t: Tab, nonce: Nonce, failure: Option<Error>): Tab
    requires nonce in t.flights
  {
    var flight := t.flights[nonce];
    t.(flights := t.flights[nonce := flight.(phase := Over(failure))],
       inFlight := if flight.executed then t.inFlight - {flight.command.request.requestId} else t.inFlight)
  }

  /** Why a hashed command is not executed. */
  function ExecutionRefusal(t: Tab, flight: Flight, digest: Option<Digest>, env: PageEnv): Option<Error> {
    var request := flight.command.request;
    if digest.None? then Some(Thrown)
    else if digest.value != flight.command.actionHash then Some(Refused(CommandMismatch))
    else if env.now >= request.expiresAt || request.expiresAt > env.now + DEADLINE_MS then Some(Refused(ExpiredRequest))
    else if IdentityNow(t.lease, env).Err? then Some(Refused(IdentityNow(t.lease, env).error))
    else if t.lease.generation != flight.captured then Some(Refused(StaleRegistration))
    else if request.requestId in t.inFlight then Some(Refused(RequestIdConflict))
    else None
  }

  /** The document executes the request, and cancels it at once if its cancellation came first. */
  function ExecuteCommand(t: Tab, nonce: Nonce): Tab
    requires nonce in t.flights
  {
    var flight := t.flights[nonce];
    var request := flight.command.request;
    var executed := D.Execute(t.doc, request);
    t.(doc := if nonce in t.cancelled then D.Cancel(executed, request.requestId) else executed,
       inFlight := t.inFlight + {request.requestId},
       flights := t.flights[nonce := flight.(executed := true, phase := Executing(D.ExecuteAnswer(t.doc, request)))],
       log := t.log + [CommandExecuted(flight.command)])
  }

  /** The digest of the request arrives (`None`: hashing failed). */
  function DigestArrives(t: Tab, nonce: Nonce, digest: Option<Digest>, env: PageEnv): Tab
    requires nonce in t.flights
  {
    var refusal := ExecutionRefusal(t, t.flights[nonce], digest, env);
    if refusal.Some? then EndFlight(t, nonce, refusal) else ExecuteCommand(t, nonce)
  }

  /** The receipt the awaited promise has settled with, if it has. */
  function SettledAnswer(doc: D.Doc, answer: D.Answer): Option<Receipt> {
    match answer
    case Now(receipt) => Some(receipt)
    case Promised(id) =>
      if id in doc.receipts && doc.receipts[id].phase.Settled? then Some(doc.receipts[id].phase.settlement.receipt) else None
  }

  /** Why a receipt is not signed; `wellFormed` says that its outcome fields fit the action. */
  function SigningRefusal(t: Tab, flight: Flight, receipt: Receipt, wellFormed: bool, env: PageEnv): Option<Error> {
    var request := flight.command.request;
    if receipt.requestId != Some(request.requestId) || receipt.actionId != Some(request.actionId)
       || t.doc.documentId != request.documentId || t.doc.documentEpoch != request.documentEpoch then Some(Refused(Other("receipt_mismatch")))
    else if !wellFormed then Some(Refused(Other("invalid_receipt")))
    else if !t.lease.alive || env.now >= request.expiresAt then Some(Refused(ExpiredRequest))
    else match IdentityNow(t.lease, env)
      case Err(reason) => Some(Refused(reason))
      case Ok(current) =>
        if current.documentId != request.documentId || current.documentEpoch != request.documentEpoch then Some(Refused(StaleDocument))
        else if t.lease.generation != flight.captured then Some(Refused(StaleRegistration))
        else None
  }

  /** The document's receipt arrives; signing it begins, or the flight ends. */
  function ReceiptArrives(t: Tab, nonce: Nonce, wellFormed: bool, env: PageEnv): Tab
    requires nonce in t.flights && t.flights[nonce].phase.Executing? && SettledAnswer(t.doc, t.flights[nonce].phase.answer).Some?
  {
    var flight := t.flights[nonce];
    var receipt := SettledAnswer(t.doc, flight.phase.answer).value;
    var refusal := SigningRefusal(t, flight, receipt, wellFormed, env);
    if refusal.Some? then EndFlight(t, nonce, refusal)
    else
      t.(flights := t.flights[nonce := flight.(phase := Signing(receipt))],
         log := t.log + [ReceiptSigning(flight.command, receipt, Under(t.lease))])
  }

  /** The signature arrives, or signing failed; the receipt is posted, or the flight ends. */
  function SignedReceipt(t: Tab, nonce: Nonce, signed: bool): Tab
    requires nonce in t.flights && t.flights[nonce].phase.Signing?
  {
    var flight := t.flights[nonce];
    if !signed then EndFlight(t, nonce, Some(Thrown))
    else if !t.lease.alive || t.lease.generation != flight.captured then EndFlight(t, nonce, Some(Refused(StaleRegistration)))
    else
      t.(flights := t.flights[nonce := flight.(phase := Posting(flight.phase.receipt))],
         log := t.log + [ReceiptPosted(flight.command, flight.phase.receipt, Under(t.lease))])
  }

  /** `retire()`: the key, the lease and every map are dropped. */
  function RetireTransport(t: Tab): Tab {
    t.(lease := RetirePage(t.lease), byNonce := {}, observed := map[], cancelled := map[], log := t.log + [TransportRetired])
  }

  // ---- Runs

  datatype TabEvent =
    | OnDocument(documentEvent: D.Event)
    | OnLease(leaseEvent: LeaseEvent)
    | GetsCommand(command: Command, now: int)
    | GetsCancellation(command: Command, now: int)
    | GetsDigest(nonce: Nonce, digest: Option<Digest>, env: PageEnv)
    | GetsReceipt(nonce: Nonce, wellFormed: bool, env: PageEnv)
    | GetsReceiptSignature(nonce: Nonce, signed: bool)
    | GetsReceiptAnswer(nonce: Nonce, failure: Option<Error>)
    | RetiresTransport

  /** The ports answer for the page's own document. */
  predicate Sees(t: Tab, env: PageEnv) {
    && env.mounted == t.doc.mounted
    && (env.identity.Ok? ==> env.identity.value.documentId == t.doc.documentId && env.identity.value.documentEpoch == t.doc.documentEpoch)
  }

  predicate TabEnabled(t: Tab, e: TabEvent) {
    match e
    case OnDocument(_) => true
    case OnLease(leaseEvent) => leaseEvent != Retires
    case GetsCommand(_, _) => true
    case GetsCancellation(_, _) => true
    case GetsDigest(nonce, _, env) => nonce in t.flights && t.flights[nonce].phase == Hashing && Sees(t, env)
    case GetsReceipt(nonce, _, env) =>
      nonce in t.flights && t.flights[nonce].phase.Executing? && SettledAnswer(t.doc, t.flights[nonce].phase.answer).Some? && Sees(t, env)
    case GetsReceiptSignature(nonce, _) => nonce in t.flights && t.flights[nonce].phase.Signing?
    case GetsReceiptAnswer(nonce, _) => nonce in t.flights && t.flights[nonce].phase.Posting?
    case RetiresTransport => true
  }

  function TabStep(t: Tab, e: TabEvent): Tab {
    if !TabEnabled(t, e) then t else
    match e
    case OnDocument(documentEvent) => t.(doc := D.Step(t.doc, documentEvent))
    case OnLease(leaseEvent) => t.(lease := LeaseStep(t.lease, leaseEvent).state)
    case GetsCommand(command, now) => TakeCommand(t, command, now)
    case GetsCancellation(command, now) => TakeCancellation(t, command, now)
    case GetsDigest(nonce, digest, env) => DigestArrives(t, nonce, digest, env)
    case GetsReceipt(nonce, wellFormed, env) => ReceiptArrives(t, nonce, wellFormed, env)
    case GetsReceiptSignature(nonce, signed) => SignedReceipt(t, nonce, signed)
    case GetsReceiptAnswer(nonce, failure) => EndFlight(t, nonce, failure)
    case RetiresTransport => RetireTransport(t)
  }

  function TabExec(t: Tab, events: seq<TabEvent>): Tab
    decreases |events|
  {
    if events == [] then t else TabExec(TabStep(t, events[0]), events[1..])
  }
}
