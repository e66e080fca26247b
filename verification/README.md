# App Actions, the Audio2Face cache, motion loading and the anchored reader: a verified model

This project models four parts of the repository in Dafny and proves what they promise. `dafny verify dfyconfig.toml`
checks all of it.

**The App Actions page.** A loaded page owns a document (`Document*.dfy`) and a transport (`Lease*.dfy`,
`Commands*.dfy`, `TransportRuntime.dfy`). Both are closures whose code runs in synchronous segments between two awaits.
A state is a value, a segment is a function on it, and a run is any sequence of segments whose callback is pending; so a
theorem about all runs covers every interleaving, every lost or late answer, every early abort and late settlement.
`DocumentRuntime` and `TransportRuntime` hold the same closures as objects with mutable fields: each method is one
segment, written step by step; its postcondition says that it moves the state as the function does, keeps the invariant
of the runs, and what it promises its caller. `Drive` runs an object through any sequence of events, so every theorem
about runs holds of it.

The document admits a request id once, runs one owner at a time and fences every effect. `ReceiptHistory.dfy` and
`DocumentReceipts.dfy` tie each receipt to what the log had recorded before it, `OpenRequests.dfy` says of any state for
which ids work can still follow, and `FileReplays.dfy` what a repeated file request is answered. The transport keeps one
challenged lease alive and executes signed commands that cancellations race; `LeaseAnswers.dfy` and `CommandAnswers.dfy`
say what each answer and each command leads to, and `CancellationReach.dfy` exactly how far a cancellation reaches.
`WholePage.dfy` carries what is proved of the parts over to the whole page. For the lease the registry of the server is
modelled as well (`Registry*.dfy`), and `LeaseProtocol*.dfy` and `LoginSessions.dfy` put page, registry, network and two
clocks together: requests arrive late or never, answers are lost, the registry restarts, and the server's clock may run
as slowly as five sixths of the page's, which is exactly what the one second of margin over five allows.

**The Audio2Face result cache** (`ResultCache*.dfy`, `CacheAnswers.dfy`, `KeyLocks.dfy`, `CachePrune.dfy`,
`CacheKey.dfy`). Threads of `analyze_cached` move by atomic steps; locks are made, dropped while others wait for them,
and made again. Pruning is a loop over a directory.

**The motion load planner** (`LoadPlan.dfy`, `MotionGroups.dfy`, `AnimationNames.dfy`, `AnimationWords.dfy`).

**The anchored reader** (`Wire.dfy`, `Descriptors.dfy`, `ReaderLoop.dfy`, `PathCheck.dfy`, `SnapshotRead.dfy`,
`ReaderSnapshots.dfy`). A descriptor serves any part of what is asked for, or asks to be tried again, or fails. The file
that is read has a history: time passes before every call.

The codecs below the page are `CanonicalJson.dfy`, `Utf8Text.dfy`, `ProofText.dfy`, `Base64Url.dfy`,
`FileIntent.dfy` and `IntentFields.dfy`. `JsonReader.dfy` reads JSON by its grammar and shares no function with the
printer; `Outcomes.dfy`, `Bytes.dfy` and `Sorting.dfy` hold what several parts share.

The statements write out the constants, reasons and orders of the code, so that they do not rest on the definitions they
are about.

## What the model shows beyond the source's own words

- One live binding per page is a promise per login session. The registry hides a binding from other login sessions as
  `stale_registration`, which the page takes for gone; so a page that is logged in afresh asks for a second binding
  beside the first. The exact bound on a page's unexpired bindings is one more than its changes of login
  (`BindingsPerLogin`), and `EveryLoginMayLeaveABinding` is a run that reaches it.
- The registration and all candidates always share one registration id, so the candidate loop of a maintenance pass
  never comes round a second time. No request of any kind is posted after `retire()`; a pass may still set the
  registration in the gap before it notices, but nothing is signed for it.
- `active` is released as soon as the owner has settled and either saw an abort or is no longer awaited, which is a
  little earlier than when both promises have settled.
- A cancellation is compared with a command's content under its request id, but at execution only its nonce is looked
  up: a cancellation of a different request under the same nonce also cancels. The theorems about cancellations speak
  of the cancellation of the command itself.
- A cancellation stops the request itself only when two guards hold at its moment: the transport has observed the
  command, and the document has admitted the id. `CancellationReaches` is the exact statement. When the command was not
  observed, a script's earlier submission works on (`ScriptsEscapeCancellation`); when the id was not admitted, a script
  may still submit it before the command is executed (`LateScriptsEscapeCancellation`). A second command under the same
  id, with another nonce, does the same (`OtherCommandEscapes`).
- Releasing a lock drops it from the table even while other threads wait for it. A thread that calls next gets another
  lock, so two threads work for one key at once, unless the entry is there by then. It is not there when the analysis
  failed, or when the entry was pruned in between: `LockExcludes` and `OrphanSplits` are the exact condition,
  `FailureOrphans` and `PruningOrphans` the two runs.
- Pruning may leave one entry, and that entry's bytes, more than its limits say: exactly when the entry to keep finds no
  room at its turn (`PruneExceeds`).
- A canonical text is unique, but its keys are not sorted by code unit: index-like keys come first and by value.
- Signing is never refused as `stale_document`, and a receipt always names its command's request: of those two checks
  only the comparison with the page's own document can fail (`ReceiptDecides`).
- A name without any usable character makes the sanitizer return its fallback as it is.

## Model

| member | source | states |
|---|---|---|
| DocumentTheorems.WorkIsFenced | batshit-app/src/lib/appActions/document.ts:56-68 | In every run, whenever a handler is entered or an effect granted, the page is not retired, the id not cancelled, its receipt not settled, and no navigation happened since the request was submitted |
| DocumentTheorems.GrantsMatchTheirRequest | batshit-app/src/lib/appActions/document.ts:57-67 | Every effect is granted before the deadline, in the session and for the document the request names, to a request whose handler was entered |
| DocumentTheorems.EffectsNeverInterleave | batshit-app/src/lib/appActions/document.ts:82-118 | Once another request was granted an effect, the earlier one is never granted one again |
| DocumentTheorems.OneFlight | batshit-app/src/lib/appActions/document.ts:82-118 | At most one owner at a time; `active` names a request exactly while its owner is unsettled, or settled unaborted while `run` still awaits it; a prepared file and an active run exclude each other |
| DocumentTheorems.FreeWhenSettled | batshit-app/src/lib/appActions/document.ts:113-118 | When every run and every owner it started has settled, in whatever order, the page is free again |
| DocumentTheorems.HandlerCalledOnce | batshit-app/src/lib/appActions/document.ts:137-151 | Each admitted id reaches a handler at most once, and no other id does |
| DocumentTheorems.ReplayIsStable | batshit-app/src/lib/appActions/document.ts:142-183 | Whatever happens later, an admitted id keeps its first promise: the same view request gets it, any other payload or kind is refused, a file request under the id of a file is compared with the first one, none of them changes the page, and the table never exceeds 128 entries |
| DocumentTheorems.ReceiptsAreFinal | batshit-app/src/lib/appActions/document.ts:99-112 | A settled receipt never changes |
| DocumentTheorems.BlockedMeansUntouched | batshit-app/src/lib/appActions/document.ts:104-112 | A receipt that the catch block marks blocked, or that turned the request away, belongs to a request that is never granted an effect in the whole run; one marked unknown had an effect granted |
| DocumentTheorems.CancelledStaysCancelled | batshit-app/src/lib/appActions/document.ts:188-193 | After a cancellation no handler is entered and no effect granted for that id, in any continuation |
| DocumentReceipts.FinishedIsTheAnswer | batshit-app/src/lib/appActions/document.ts:99-103 | A receipt with the result of a run names this request and is what its owner answered: the log has that answer before the receipt, and no other answer of this owner |
| DocumentReceipts.FinishesExactly | batshit-app/src/lib/appActions/document.ts:99-112 | A run goes on after its race with the owner's own outcome exactly when the owner won with one and the run is still inside the fence; otherwise with what stopped it, the owner's exception, or the reason the fence gives |
| DocumentReceipts.InTimeFinishes | batshit-app/src/lib/appActions/document.ts:96-103 | So an owner that has returned before anything stopped its run has its outcome delivered, if the fence still lets it |
| DocumentReceipts.CaughtTells | batshit-app/src/lib/appActions/document.ts:104-112 | A receipt of the catch block has the reason of its exception, which has a cause; its status follows from the exception and the grants before it, and visible, saved and the copied fields are those last reported before it, or claim no more than the grants allow |
| DocumentReceipts.TurnedAwayTells | batshit-app/src/lib/appActions/document.ts:83-83 | A request that was turned away is blocked because the page was busy, or for the reason its files could not be prepared |
| DocumentReceipts.AbortsTell | batshit-app/src/lib/appActions/document.ts:92-95 | A run is aborted for the reason that fits what happened: cancelled, moved on from, retired or timed out; and one that was cancelled, moved on from or retired while it raced is aborted |
| DocumentReceipts.StartsExactly | batshit-app/src/lib/appActions/document.ts:83-96 | A view run races exactly on a free page, inside the fence, at most 5000 ms before its deadline and with a handler; otherwise its receipt names the first of these that failed |
| DocumentReceipts.FileStartsExactly | batshit-app/src/lib/appActions/document.ts:83-96 | A prepared file races exactly inside the fence and at most 300000 ms before its deadline |
| DocumentReceipts.AdmitsExactly | batshit-app/src/lib/appActions/document.ts:142-150 | A view request with a new id is promised a receipt exactly while fewer than 128 ids are known |
| DocumentReceipts.PreparesExactly | batshit-app/src/lib/appActions/document.ts:156-182 | A file request with a new id is prepared exactly under the listed conditions, and otherwise told the first that failed |
| ReceiptHistory.FenceSays | batshit-app/src/lib/appActions/document.ts:57-65 | The fence lets a run pass exactly when none of its seven reasons holds, and gives the first that does, in this order |
| ReceiptHistory.RunTold | batshit-app/src/lib/appActions/document.ts:52-183 | Over every run, what the page remembers of each request is what the log tells of it: last report, answer, abort, and what its receipt was made from |
| DocumentSafety.RunKeeps | batshit-app/src/lib/appActions/document.ts:52-183 | Every sequence of segments, in any interleaving, keeps the invariant of the page document and only extends its history |
| OpenRequests.WorkFollowsExactly | batshit-app/src/lib/appActions/document.ts:56-118 | From a reachable state a handler can still be entered, or an effect granted, for an id exactly when the page is mounted and the id either can still be admitted, or was and is neither cancelled, aborted, navigated away from, nor settled |
| OpenRequests.NeverStuckBusy | batshit-app/src/lib/appActions/document.ts:82-118 | Whatever has the page, callbacks that are pending can always bring it to be free again |
| FileReplays.RepeatedFile | batshit-app/src/lib/appActions/document.ts:171-174 | However late a file request is repeated: when both intents have a text it gets the first promise exactly if request and files are the same byte for byte and a conflict otherwise; when one intent failed it is refused for that failure |
| FileReplays.RepeatWaits | batshit-app/src/lib/appActions/document.ts:173-173 | A repeat waits exactly as long as the first intent is not settled |
| DocumentRuntime.AppActionsDocument.CheckRun | batshit-app/src/lib/appActions/document.ts:57-65 | A run passes the fence exactly when all eight conditions hold, and one whose handler was entered and that passes is the run that holds the page |
| DocumentRuntime.AppActionsDocument.Execute | batshit-app/src/lib/appActions/document.ts:137-151 | A promise is given exactly for a request that is then in the table as it is; a known id and a refusal change nothing; the table keeps its limit; the invariant of the page is kept |
| DocumentRuntime.AppActionsDocument.ExecuteFile | batshit-app/src/lib/appActions/document.ts:153-171 | A file is prepared exactly when its id is new and admitted, which needs a free page and takes it; every other answer changes nothing; the invariant of the page is kept |
| DocumentRuntime.AppActionsDocument.Repeat | batshit-app/src/lib/appActions/document.ts:171-174 | The first promise is returned exactly when the stored intent is the text of the repeat, and no answer is given exactly while the first one is still prepared |
| DocumentRuntime.AppActionsDocument.StartRun | batshit-app/src/lib/appActions/document.ts:82-96 | Either the run takes the page, which was free, or its receipt is settled and nobody else loses the page; the invariant of the page is kept |
| DocumentRuntime.AppActionsDocument.FilePrepared | batshit-app/src/lib/appActions/document.ts:175-177 | The intent is stored, the preparation is over, and the run has the page or a settled receipt; the invariant of the page is kept |
| DocumentRuntime.AppActionsDocument.FileUnprepared | batshit-app/src/lib/appActions/document.ts:179-179 | The reason is stored as the intent, and the page stays taken for now; the invariant of the page is kept |
| DocumentRuntime.AppActionsDocument.FileReleased | batshit-app/src/lib/appActions/document.ts:180-180 | The receipt is settled and the page is free; the invariant of the page is kept |
| DocumentRuntime.AppActionsDocument.OwnerStart | batshit-app/src/lib/appActions/document.ts:96-96 | A handler is entered exactly inside the fence, and by the run that holds the page; the invariant of the page is kept |
| DocumentRuntime.AppActionsDocument.Effect | batshit-app/src/lib/appActions/document.ts:67-67 | An effect is granted exactly inside the fence, to the run that holds the page and is not settled; a refusal changes nothing; the invariant of the page is kept |
| DocumentRuntime.AppActionsDocument.OwnerAnswers | batshit-app/src/lib/appActions/document.ts:97-97 | An answer comes from the owner that holds the page; the invariant of the page is kept |
| DocumentRuntime.AppActionsDocument.OwnerFinally | batshit-app/src/lib/appActions/document.ts:98-98 | An owner that ends after an abort frees the page, and one that ends in time leaves it to its run; the invariant of the page is kept |
| DocumentRuntime.AppActionsDocument.OwnerDelivered | batshit-app/src/lib/appActions/document.ts:99-99 | A race that is decided stays so; the invariant of the page is kept |
| DocumentRuntime.AppActionsDocument.Continue | batshit-app/src/lib/appActions/document.ts:99-118 | The receipt settles: with the owner's own outcome exactly when it won the race with one inside the fence, and otherwise as exception, grants and last report make it; the page stays taken exactly while the owner is at work; the invariant of the page is kept |
| DocumentRuntime.AppActionsDocument.TimerFires | batshit-app/src/lib/appActions/document.ts:94-94 | After the deadline the run is aborted as expired, unless it was aborted before; the invariant of the page is kept |
| DocumentRuntime.AppActionsDocument.Cancel | batshit-app/src/lib/appActions/document.ts:188-193 | Exactly a known id is cancelled, and from then on no state of clock, session or handlers lets it pass the fence; the invariant of the page is kept |
| DocumentRuntime.AppActionsDocument.Navigate | batshit-app/src/lib/appActions/document.ts:37-37 | No request submitted before passes the fence any more, and the run that has the page is aborted; the invariant of the page is kept |
| DocumentRuntime.AppActionsDocument.Retire | batshit-app/src/lib/appActions/document.ts:194-194 | No request at all passes the fence any more, and the run that has the page is aborted; the invariant of the page is kept |
| DocumentRuntime.Drive | batshit-app/src/lib/appActions/document.ts:28-195 | The object driven by any sequence of pending callbacks is always in a state the run theorems are about |
| LeaseTheorems.OnePassAtATime | batshit-app/src/lib/appActions/browserTransport.ts:199-210 | At most one maintenance pass runs at a time, exactly while the page remembers one |
| LeaseTheorems.NoWakeUpIsLost | batshit-app/src/lib/appActions/browserTransport.ts:201-208 | A wake-up during a pass always leads to another pass while the page is alive |
| LeaseTheorems.NeverStuckSilently | batshit-app/src/lib/appActions/browserTransport.ts:187-210 | An alive started page without a running pass has a timer pending or shows a failure |
| LeaseTheorems.RetriesAreBounded | batshit-app/src/lib/appActions/browserTransport.ts:191-198 | Between resets at most two retries are scheduled |
| LeaseTheorems.ExhaustionStops | batshit-app/src/lib/appActions/browserTransport.ts:195-196 | The third transient failure in a row is reported as exhausted and schedules nothing |
| LeaseTheorems.RetiredPageIsSilent | batshit-app/src/lib/appActions/browserTransport.ts:97-118 | After `retire()` no lease request of any kind is posted and no lease signature started |
| LeaseTheorems.GoneMeansFresh | batshit-app/src/lib/appActions/browserTransport.ts:163-186 | Registration and candidates always share one registration id, so a pass that learns it is gone posts no further renewal and goes straight to a fresh registration |
| LeaseTheorems.SameGenerationSameRegistration | batshit-app/src/lib/appActions/browserTransport.ts:148-159 | Two moments of a run with the same generation hold the same registration id |
| LeaseAnswers.RetriesExactly | batshit-app/src/lib/appActions/browserTransport.ts:191-198 | A failed pass is retried exactly when it threw or was refused for one of the five transient reasons and fewer than two retries came since the reset, after 1000 and then 2000 ms; otherwise no timer is left, and the reason, or that recovery is exhausted, is shown |
| LeaseAnswers.HeldAndRenewed | batshit-app/src/lib/appActions/browserTransport.ts:148-154 | A binding that came back is held and asked for again after 20000 ms, with failure, retries and candidates cleared |
| LeaseAnswers.GoneAsksAfresh | batshit-app/src/lib/appActions/browserTransport.ts:172-184 | After a gone answer a fresh registration is asked for at once if the page is still the same, and only then |
| LeaseAnswers.PassBegins | batshit-app/src/lib/appActions/browserTransport.ts:164-185 | What a pass begins with: a refusal, the renewal of the registration, a wait until the last horizon and its second are over, the renewal of the candidate with the latest lease, or a registration |
| LeaseAnswers.LatestIsFirst | batshit-app/src/lib/appActions/browserTransport.ts:160-162 | Of candidates with equally late leases the one submitted first is picked |
| LeaseAnswers.ChallengeDecides | batshit-app/src/lib/appActions/browserTransport.ts:76-92 | A challenge is signed exactly for this key, kind, identity and target, open for at most five seconds and for a lease of at most a minute; every other answer ends the pass for its own reason |
| LeaseAnswers.SignatureDecides | batshit-app/src/lib/appActions/browserTransport.ts:106-118 | A proof is posted exactly when it was signed and the page is the same, and is then a candidate with the horizon of its deadline |
| LeaseAnswers.AdmissionDecides | batshit-app/src/lib/appActions/browserTransport.ts:111-118 | A binding is taken over exactly when it is the one challenged and the page is the same, and its candidate is dropped exactly after a refusal that is not a transport failure |
| LeaseSafety.LeaseRunKeeps | batshit-app/src/lib/appActions/browserTransport.ts:148-210 | Every sequence of segments keeps the invariant of lease maintenance |
| Lease.Waiting | batshit-app/src/lib/appActions/browserTransport.ts:175-176 | The wait is the longest time to the end of a candidate's horizon with its margin, or nothing when all are over |
| Lease.Latest | batshit-app/src/lib/appActions/browserTransport.ts:160-162 | The candidate picked has the latest lease of all |
| LeaseProtocolTheorems.AtMostOneLiveBinding | batshit-app/src/lib/appActions/browserTransport.ts:106-186 | Over every run of page, registry, network and clocks, a page never holds two live bindings in its login session, whatever answers are lost or late |
| LeaseProtocolTheorems.NoSecondBindingOnItsWay | batshit-app/src/lib/appActions/browserTransport.ts:106-186 | Nor can a proof still on its way make a second one |
| LeaseProtocolTheorems.LiveIsTracked | batshit-app/src/lib/appActions/browserTransport.ts:106-118 | Every binding that is live, or that a proof on its way can still create, is the page's registration or a candidate's |
| LeaseProtocolTheorems.FreshOnlyWhenAllIsGone | batshit-app/src/lib/appActions/browserTransport.ts:164-186 | A fresh registration is asked for only when the page tracks nothing and nothing is live or can become live |
| LeaseProtocolTheorems.OneBindingPerPage | batshit-app/src/lib/server/services/appActions/registry.ts:81-122 | While the login session does not change, at most one binding of the page is unexpired at all |
| LoginChange.EveryLoginMayLeaveABinding | batshit-app/src/lib/server/services/appActions/registry.ts:57-62 | And it may have that many: for every number up to the user's share of the registry, a run with one login less than bindings |
| LeaseProtocolSafety.WorldRunKeeps | batshit-app/src/lib/server/services/appActions/registry.ts:50-122 | Every sequence of page, network, clock and registry steps keeps the joint invariant |
| LoginSessions.OneBindingPerLogin | batshit-app/src/lib/server/services/appActions/registry.ts:50-122 | In every reachable world two unexpired bindings of one login session of the page, past or present, are the same |
| LoginSessions.BindingsPerLogin | batshit-app/src/lib/server/services/appActions/registry.ts:50-122 | So a page never has more unexpired bindings than one and its changes of login |
| RegistryAnswers.OneIsAdmitted | batshit-app/src/lib/server/services/appActions/registry.ts:103-122 | Over every run after a proof was admitted: the same proof, and every other renewal of that binding that was open then, is refused and changes nothing |
| RegistryAnswers.ProofDecides | batshit-app/src/lib/server/services/appActions/registry.ts:103-122 | A verified proof is admitted exactly while its challenge is open, its binding unrenewed since, or room left for a registration; it uses the challenge up and binds what was challenged, and a refused one changes nothing |
| RegistryAnswers.RenewalExtends | batshit-app/src/lib/server/services/appActions/registry.ts:95-119 | A renewal proved in time makes the lease end a minute after it was asked for, under the same name, key and login session |
| RegistryAnswers.RenewalBegins | batshit-app/src/lib/server/services/appActions/registry.ts:95-102 | A renewal is challenged exactly for a binding held in the login session, for the same document, with its own key |
| RegistryAnswers.RegistrationBegins | batshit-app/src/lib/server/services/appActions/registry.ts:81-94 | A registration is challenged with names never drawn before, for five seconds and a lease of a minute |
| RegistryAnswers.ProofBegins | batshit-app/src/lib/server/services/appActions/registry.ts:103-107 | A proof is looked at exactly for an open challenge of its login session, and a renewal only for a binding held in it |
| RegistryAnswers.RestartForgets | batshit-app/src/lib/server/services/appActions/registry.ts:38-49 | After a restart nothing that was held or issued before counts |
| TransportRuntime.BrowserTransport.Fenced | batshit-app/src/lib/appActions/browserTransport.ts:102-105 | An answer counts exactly when the page is alive and mounted under the same identity and generation; while a pass is suspended the generation cannot have moved |
| TransportRuntime.BrowserTransport.CheckChallenge | batshit-app/src/lib/appActions/browserTransport.ts:76-96 | A challenge passes exactly under the listed conditions, and one for a renewal then names the registration that the page and all its candidates share |
| TransportRuntime.BrowserTransport.ForgetCandidates | batshit-app/src/lib/appActions/browserTransport.ts:149-157 | Deleting in place removes exactly the candidates of one registration |
| TransportRuntime.BrowserTransport.WaitingTime | batshit-app/src/lib/appActions/browserTransport.ts:175-176 | The loop computes the longest horizon |
| TransportRuntime.BrowserTransport.ChallengeArrives | batshit-app/src/lib/appActions/browserTransport.ts:123-131 | Something is signed only for the page's own key and identity, and a pass learns that its registration is gone only from a refusal that says so; the invariant is kept |
| TransportRuntime.BrowserTransport.SignatureArrives | batshit-app/src/lib/appActions/browserTransport.ts:106-111 | A proof is posted only as a candidate that is already remembered, with the horizon of its deadline; otherwise the candidates stay; the invariant is kept |
| TransportRuntime.BrowserTransport.AdmissionArrives | batshit-app/src/lib/appActions/browserTransport.ts:111-118 | A refusal removes the candidate, a lost answer keeps it, and a binding is adopted only if it is the one of the challenge; the invariant is kept |
| TransportRuntime.BrowserTransport.Adopt | batshit-app/src/lib/appActions/browserTransport.ts:148-154 | The binding is held, its candidates are gone, all others stay, and failure and retries are reset |
| TransportRuntime.BrowserTransport.RetireRegistration | batshit-app/src/lib/appActions/browserTransport.ts:155-159 | Nothing of that registration is left, and nothing else is dropped |
| TransportRuntime.BrowserTransport.Resume | batshit-app/src/lib/appActions/browserTransport.ts:168-185 | A binding that came back is held; after a gone one nothing is, and the only request that can follow is for a fresh registration; the invariant is kept |
| TransportRuntime.BrowserTransport.Settle | batshit-app/src/lib/appActions/browserTransport.ts:191-204 | A page that lives has a timer, a visible failure, or a wake-up to serve; after a failure the timer is set exactly for a transient one with retries left, to 1000 or 2000 ms; the invariant is kept |
| TransportRuntime.BrowserTransport.RunMaintenance | batshit-app/src/lib/appActions/browserTransport.ts:199-204 | A wake-up during a pass is noted and disturbs nothing |
| TransportRuntime.BrowserTransport.PassEnds | batshit-app/src/lib/appActions/browserTransport.ts:205-208 | A noted wake-up starts the next pass; an idle live page has a timer or a visible failure; the invariant is kept |
| TransportRuntime.BrowserTransport.Refresh | batshit-app/src/lib/appActions/browserTransport.ts:305-305 | A refresh resets the retries and leads to a pass now or after the present one; the invariant is kept |
| TransportRuntime.BrowserTransport.Retire | batshit-app/src/lib/appActions/browserTransport.ts:307-307 | Nothing of the lease or the commands is left, and no flight in the air is of the new generation; the invariant is kept |
| TransportRuntime.BrowserTransport.Hear | batshit-app/src/lib/appActions/browserTransport.ts:231-246 | A command is taken exactly when it is for the live registration and new under its nonce and its request id |
| TransportRuntime.BrowserTransport.Receive | batshit-app/src/lib/appActions/browserTransport.ts:231-274 | A taken command was new under its request id and its nonce, and is the one known there from now on; the invariant is kept |
| TransportRuntime.BrowserTransport.ReceiveCancellation | batshit-app/src/lib/appActions/browserTransport.ts:213-230 | A taken cancellation is noted, and a request that is known and admitted is cancelled in the document at once; the invariant is kept |
| TransportRuntime.BrowserTransport.RefuseExecution | batshit-app/src/lib/appActions/browserTransport.ts:250-255 | Digest, deadline, page and generation alone decide: an id is never in flight already, and what passes is for the registration held |
| TransportRuntime.BrowserTransport.DigestArrives | batshit-app/src/lib/appActions/browserTransport.ts:248-260 | What is executed is under the registration its command names, and dead at once if its cancellation came before; the invariant is kept |
| TransportRuntime.BrowserTransport.RefuseSigning | batshit-app/src/lib/appActions/browserTransport.ts:262-267 | What passes is signed for the registration held at that moment, which is the one its command names |
| TransportRuntime.BrowserTransport.ReceiptArrives | batshit-app/src/lib/appActions/browserTransport.ts:261-268 | What is signed is the settled receipt of exactly that request, or says why it was turned away; the invariant is kept |
| TransportRuntime.BrowserTransport.SignedReceipt | batshit-app/src/lib/appActions/browserTransport.ts:268-270 | A receipt is posted exactly when it was signed and the generation is still the one that received the command, and as it was signed; the invariant is kept |
| TransportRuntime.Drive | batshit-app/src/lib/appActions/browserTransport.ts:32-308 | The object driven by any sequence of pending callbacks is always in a state the run theorems are about |
| WholePage.PageParts | batshit-app/src/lib/appActions/browserTransport.ts:211-275 | The document and the lease of a page are always in states their own run theorems are about, whatever its commands do |
| WholePage.WorldPart | batshit-app/src/lib/appActions/browserTransport.ts:164-210 | So is the lease of the page beside its registry, whatever the network does |
| CommandsTheorems.CommandsArePaired | batshit-app/src/lib/appActions/browserTransport.ts:240-273 | Commands and request ids are in one-to-one correspondence, at most 128 of them |
| CommandsTheorems.NoConflictInFlight | batshit-app/src/lib/appActions/browserTransport.ts:255-256 | A hashed command never finds its request id in flight, so that refusal is unreachable |
| CommandsTheorems.OneReceiptPerRequest | batshit-app/src/lib/appActions/browserTransport.ts:256-271 | At most one execution, one signature and one posted receipt for a request id |
| CommandsTheorems.ReceiptsAreTrue | batshit-app/src/lib/appActions/browserTransport.ts:261-270 | A receipt is signed and posted only while the page holds exactly the registration the command names, and it is the document's final receipt for exactly that request or says why it was turned away |
| CommandsTheorems.RetiredTransportIsSilent | batshit-app/src/lib/appActions/browserTransport.ts:307-307 | A retired transport takes, executes, signs and posts nothing any more |
| CommandsTheorems.CancellationEndsWork | batshit-app/src/lib/appActions/browserTransport.ts:213-230 | Once a command was executed and its cancellation is taken, in either order, no handler is entered and no effect granted for its request in any continuation |
| CommandsTheorems.CancelledFirst | batshit-app/src/lib/appActions/browserTransport.ts:259-260 | If the cancellation comes before execution, an executed command's request is dead from that moment; and unless the id was admitted before the cancellation or a script submits it before the command is executed, its handler is never entered at all |
| CommandAnswers.CommandHeard | batshit-app/src/lib/appActions/browserTransport.ts:231-274 | Each command that arrives is ignored, refused for its reason, or its flight begins, in terms of the registration, the clock and the flights there are |
| CommandAnswers.CancellationHeard | batshit-app/src/lib/appActions/browserTransport.ts:213-230 | So is each cancellation; one that is taken stops its request at once exactly when its command has come and the document has admitted it |
| CommandAnswers.DigestDecides | batshit-app/src/lib/appActions/browserTransport.ts:249-260 | A hashed command ends for the first reason there is, or is executed: its flight waits for the answer of the document itself, and the request is cancelled at once if its nonce was |
| CommandAnswers.ReceiptDecides | batshit-app/src/lib/appActions/browserTransport.ts:261-268 | A receipt always names the request of its command, and is signed as it is or its flight ends for the first reason there is; a stale document is never one |
| CommandAnswers.SignatureDecides | batshit-app/src/lib/appActions/browserTransport.ts:268-271 | A signed receipt is posted exactly in the generation that received the command, and a flight that ends frees its request id |
| CancellationReach.CancellationReaches | batshit-app/src/lib/appActions/browserTransport.ts:213-230 | After a cancellation is taken, work for its id can follow exactly when the request was open before and not both guards held: the command observed, and the id admitted |
| CancellationReach.KnownCancellationEndsWork | batshit-app/src/lib/appActions/browserTransport.ts:228-228 | When both hold, also while the command is still hashed, nothing follows in any continuation |
| CancellationReach.ExecutionCloses | batshit-app/src/lib/appActions/browserTransport.ts:259-260 | And when the cancelled command is executed after all, nothing can follow, whoever had submitted the request |
| CancellationReach.EscapeNeedsAdmission | batshit-app/src/lib/appActions/browserTransport.ts:248-260 | If work follows for an id that was not admitted, then some event before the command's execution admitted it: a script's submission, or another command under the same id |
| CancellationReach.SubmissionEscapes | batshit-app/src/lib/appActions/document.ts:137-151 | Such a submission, for this document and while there is room, does make work possible again |
| CancellationReach.OtherCommandEscapes | batshit-app/src/lib/appActions/browserTransport.ts:248-260 | So does another command under that id, not cancelled itself, when it is executed |
| CommandsSafety.TabRunKeeps | batshit-app/src/lib/appActions/browserTransport.ts:211-307 | Every interleaving of commands, hashes, executions, cancellations, lease steps and document segments keeps the joint invariant |
| CancellationGap.ScriptsEscapeCancellation | batshit-app/src/lib/appActions/browserTransport.ts:213-230 | One escape as a run: the command was not seen yet, a script had submitted its id, and an effect is granted after the cancellation was taken |
| CancellationGap.LateScriptsEscapeCancellation | batshit-app/src/lib/appActions/browserTransport.ts:228-228 | The other as a run: the command is known and hashed when it is cancelled, a script submits its id before the digest arrives, and an effect is granted |
| ResultCacheTheorems.OneAnalysis | tools/docker/audio2face-bridge/server.py:362-378 | While no call for a key fails and its entry is not pruned, any number of threads in any interleaving make at most one NIM call for it and all get the same animation |
| ResultCacheTheorems.OneWorker | tools/docker/audio2face-bridge/server.py:362-378 | Under the same condition no two threads analyse one key at once |
| KeyLocks.LockExcludes | tools/docker/audio2face-bridge/server.py:199-207 | Whatever fails and whatever is pruned: as long as no lock of a key is dropped while another thread waits for it, no two threads ever work for the key |
| KeyLocks.OrphanSplits | tools/docker/audio2face-bridge/server.py:204-207 | And conversely, from every reachable state in which one is dropped so while the entry is missing, two threads can come to work for the key at once |
| KeyLocks.FailureOrphans | tools/docker/audio2face-bridge/server.py:362-378 | A failed analysis with a waiting thread leads there, with nothing pruned |
| KeyLocks.PruningOrphans | tools/docker/audio2face-bridge/server.py:172-191 | So does pruning the entry just stored, with nothing failed |
| KeyLocks.FailureOrPruningSplits | tools/docker/audio2face-bridge/server.py:199-207 | Both runs go on to two threads at work for one key |
| ResultCacheTheorems.NoLockLeaks | tools/docker/audio2face-bridge/server.py:199-207 | A key has a lock in the table only while some call for it refers to that lock |
| CacheAnswers.AnswersAreHonest | tools/docker/audio2face-bridge/server.py:139-156 | Over every run, an answer that says it was cached was read from a valid entry of its key by the very call that gives it, and any other is what the analysis of that call returned |
| CacheAnswers.CallsAndFailsExactly | tools/docker/audio2face-bridge/server.py:362-378 | A call analyses exactly when it has the lock and finds no entry, and fails exactly when an entry it found is unreadable or gone, or analysis, writing or pruning fails |
| ResultCacheRuntime.Bridge.Load | tools/docker/audio2face-bridge/server.py:139-156 | A call that finds no entry analyses only with the lock of its key in hand, and what it returns from the directory was read from a valid entry; the invariant of the locks is kept |
| ResultCacheRuntime.Bridge.Lock | tools/docker/audio2face-bridge/server.py:368-378 | Acquiring, releasing and dropping: one thread at a time has a lock, it was made for the key of its call, and it is given back by the thread that has it; the invariant of the locks is kept |
| ResultCacheRuntime.Bridge.Work | tools/docker/audio2face-bridge/server.py:373-375 | Analysis, replacement and pruning happen with the lock of the key in hand, and an entry once stored is not lost to them; the invariant of the locks is kept |
| ResultCacheRuntime.Serve | tools/docker/audio2face-bridge/server.py:362-378 | Threads in any interleaving are a run the theorems are about |
| CachePrune.Directory.Prune | tools/docker/audio2face-bridge/server.py:172-191 | What is left is exactly the files that could not be inspected and those the greedy choice keeps. In terms of the files: the one to keep stays; of two others the one with the larger time, or as late and larger, or as late and large with the greater path, stays if the other does, unless it is larger and not all have room; and both limits hold when the one to keep is the newest, but for its own bytes |
| CachePrune.Directory.Sweep | tools/docker/audio2face-bridge/server.py:184-191 | The loop keeps exactly the greedy choice |
| CachePrune.PruneBounds | tools/docker/audio2face-bridge/server.py:172-191 | The entry to keep survives; at most one entry is over the entry limit and at most its bytes over the byte limit; both limits hold, but for its own bytes, when it is the newest |
| CachePrune.KeptAtItsTurn | tools/docker/audio2face-bridge/server.py:184-191 | An entry is kept exactly when it is the one to keep or fitted both limits when its turn came |
| CachePrune.LimitsAreExceeded | tools/docker/audio2face-bridge/server.py:184-191 | The entry limit is exceeded exactly when the entry to keep finds it full at its turn, and the byte limit exactly when it does not fit then |
| CachePrune.PruneExceeds | tools/docker/audio2face-bridge/server.py:172-191 | The same of a whole directory, in order of recency |
| CachePrune.ListingOrderIsIrrelevant | tools/docker/audio2face-bridge/server.py:175-181 | The outcome does not depend on the order in which the directory lists its entries |
| CacheKey.SameKeySameRequest | tools/docker/audio2face-bridge/server.py:117-134 | With a hash without collisions, two requests share a key exactly when rate and audio are equal |
| CacheKey.LengthPrefixSeparates | tools/docker/audio2face-bridge/server.py:131-133 | The length prefix keeps configuration and audio apart |
| CacheKey.PreimageIs | tools/docker/audio2face-bridge/server.py:130-133 | Eight bytes, the highest first, hold the length of the configuration, which stands behind them and before the audio |
| CacheKey.RequestMessages | tools/docker/audio2face-bridge/server.py:257-278 | The audio is streamed whole and in order between header and end, in pieces of one second |
| Bytes.PiecesAreFull | tools/docker/audio2face-bridge/server.py:274-277 | Every piece but the last is full and none is empty |
| CanonicalJson.SameTextSameValue | batshit-app/src/lib/appActions/protocol.ts:46-61 | Two accepted values have the same text exactly when they are equal up to the order of their keys |
| CanonicalJson.RefusesExactly | batshit-app/src/lib/appActions/protocol.ts:47-60 | It refuses exactly the values that are not plain JSON, nested too deeply, or too large |
| Utf8Text.AcceptsExactly | batshit-app/src/lib/appActions/protocol.ts:46-61 | Accepted are exactly the plain values of at most ten levels whose text has at most 16384 bytes in UTF-8, and in that text each surrogate is half of a pair |
| CanonicalJson.ReadBack | batshit-app/src/lib/appActions/protocol.ts:56-60 | Reading the text with a parser of JSON gives the encoded value up to key order, and encoding that again gives the same text |
| CanonicalJson.ReadsPrinted | batshit-app/src/lib/appActions/protocol.ts:58-58 | The printed text of every plain value is JSON: a parser over literal code units reads it back as that value |
| CanonicalJson.KeysAreInOrder | batshit-app/src/lib/appActions/protocol.ts:55-56 | In a normal form index keys come first and by value, the others by code units |
| Sorting.LexLessIs | batshit-app/src/lib/appActions/protocol.ts:55-55 | The order of code units: up to some place both are equal, and there the first ends or has the smaller unit |
| CanonicalJson.IndexKeyIs | batshit-app/src/lib/appActions/protocol.ts:55-56 | An index key is the decimal text of a number below 4294967295 |
| CanonicalJson.PrintPrefixFree | batshit-app/src/lib/appActions/protocol.ts:58-58 | No plain value's text is another's, even in front of further text |
| CanonicalJson.NormIsCanonical | batshit-app/src/lib/appActions/protocol.ts:55-56 | Two plain values have one normal form exactly when they are equal up to the order of keys |
| CanonicalJson.PrintedOrderIsNotCodeOrder | batshit-app/src/lib/appActions/protocol.ts:55-56 | Index-like keys are printed first and by value, so the text is unique but its keys are not sorted by code unit |
| Base64Url.DecodeIsExact | batshit-app/src/lib/appActions/protocol.ts:68-75 | A text is accepted as the encoding of given bytes exactly when it is the one that encoding them produces |
| Base64Url.EncodeInjective | batshit-app/src/lib/appActions/protocol.ts:65-67 | Different bytes have different encodings |
| Base64Url.EncodeHolds | batshit-app/src/lib/appActions/protocol.ts:65-67 | Four symbols hold three bytes as one number of 24 bits, and two or three hold the rest |
| Base64Url.SymbolIs | batshit-app/src/lib/appActions/protocol.ts:66-66 | The alphabet: capitals, small letters, digits, hyphen and underscore, in this order |
| Base64Url.PadBitsAreZero | batshit-app/src/lib/appActions/protocol.ts:73-73 | An accepted text has no bits set beyond those of its bytes |
| ProofText.ProofsAreSeparate | batshit-app/src/lib/appActions/protocol.ts:62-64 | What is signed for one purpose is never what is signed for another, nor for another payload |
| ProofText.ProofTextIs | batshit-app/src/lib/appActions/protocol.ts:62-64 | The signed text is the version, a slash, the purpose, a line end and the canonical text, written out |
| FileIntent.SameIntentSameFiles | batshit-app/src/lib/appActions/fileProtocol.ts:26-44 | With hashes without collisions, two intents are equal exactly when the requests are and the files are the same in order, name, type and every byte |
| IntentFields.IntentReads | batshit-app/src/lib/appActions/fileProtocol.ts:26-44 | Read back as JSON, the intent names the request and, file by file, the filename, type, size and the hash of a record with the domain, chunk size, size and chunk hashes |
| FileIntent.SuppliedFileIntent | batshit-app/src/lib/appActions/fileProtocol.ts:26-44 | The nested loops compute the intent, or refuse |
| Bytes.PiecesJoin | batshit-app/src/lib/appActions/fileProtocol.ts:33-36 | The chunks cover a file exactly once |
| LoadPlan.PartitionBySize | batshit-app/src/lib/goons/animationLoadPlan.ts:211-247 | The eager part is the front of the size order: as many files as fit both limits, but for the bytes of a single first file |
| LoadPlan.EagerIsLargest | batshit-app/src/lib/goons/animationLoadPlan.ts:225-246 | No selection of the files within both limits contains more files than the eager part |
| LoadPlan.FirstAreSmallest | batshit-app/src/lib/goons/animationLoadPlan.ts:223-223 | The first files of the size order are the smallest selection of their number |
| LoadPlan.PartitionIsUnique | batshit-app/src/lib/goons/animationLoadPlan.ts:229-243 | There is only one such partition |
| LoadPlan.SortBySizeStable | batshit-app/src/lib/goons/animationLoadPlan.ts:223-223 | Files of one size keep their order |
| LoadPlan.DedupeFiles | batshit-app/src/lib/goons/animationLoadPlan.ts:249-258 | The loop keeps the first file of every new key and marks the keys as seen |
| LoadPlan.DedupeConserves | batshit-app/src/lib/goons/animationLoadPlan.ts:249-258 | Each new key is kept exactly once |
| LoadPlan.BuildLoadPlan | batshit-app/src/lib/goons/animationLoadPlan.ts:260-300 | Every non-empty key is planned exactly once; the priority poses come first; the rest of the eager part is within the two file limits; and the plan is the one made of the two partitions, each under its own limits |
| LoadPlan.FirstsAreKept | batshit-app/src/lib/goons/animationLoadPlan.ts:249-258 | Of the files with one new key the first given is kept, in the order given |
| LoadPlan.PriorityMembers | batshit-app/src/lib/goons/animationLoadPlan.ts:260-300 | A file is among the priority ones exactly when it is the first with its key and its name or label makes it one |
| LoadPlan.SelectsInOrder | batshit-app/src/lib/goons/animationLoadPlan.ts:276-281 | The priority files are selected one by one, in the order given |
| LoadPlan.DropsInOrder | batshit-app/src/lib/goons/animationLoadPlan.ts:282-293 | The files without them are what is left, in the order given |
| AnimationWords.PriorityIs | batshit-app/src/lib/goons/animationLoadPlan.ts:185-202 | A file has priority exactly when its name is a priority name in any case, or its label holds `base` or `pose`, then at most one of `_` and `-`, then `stand`, `sit` or `lay` |
| AnimationWords.LaneIs | batshit-app/src/lib/goons/animationLoadPlan.ts:49-61 | A file is on the GLB lane exactly when its stored name, or else its address, or else its original name ends in `.glb` or `.gltf`, in any case |
| AnimationWords.SanitizeJoinsWords | batshit-app/src/lib/goons/animationLoadPlan.ts:160-167 | A name is the maximal runs of letters, digits and hyphens of its label, without the extension, joined by single underscores |
| AnimationWords.NamesAndKeysAre | batshit-app/src/lib/goons/animationLoadPlan.ts:169-177 | A file is named after the words of its original name, or else of its stored one, and in the library failing those as its stored name or address stands; it is known by its address or else its stored name |
| AnimationWords.UnknownSizeIsAShare | batshit-app/src/lib/goons/animationLoadPlan.ts:204-223 | A file of unknown size counts as its share of the bytes, rounded down, and at least one |
| MotionGroups.MetadataWinner | batshit-app/src/lib/goons/animationLoadPlan.ts:105-130 | The winner is the first of the best in its pool |
| MotionGroups.WinnerIsUnique | batshit-app/src/lib/goons/animationLoadPlan.ts:118-128 | No file of the pool has a higher score, and a VRM file of that score is not beaten by a GLB file |
| MotionGroups.ShownMetadata | batshit-app/src/lib/goons/animationLoadPlan.ts:105-130 | The metadata shown is that of the file touched last among the edited ones, or else the authored ones, or else all; of those touched at one time a VRM file before a GLB file, and then the first given |
| MotionGroups.GroupEntries | batshit-app/src/lib/goons/animationLoadPlan.ts:132-158 | One entry for every name, with all its files in order, the first of each lane, and its winner |
| MotionGroups.GroupingPartitions | batshit-app/src/lib/goons/animationLoadPlan.ts:137-145 | Each named file is in exactly one entry, as often as it was given |
| MotionGroups.NamesAre | batshit-app/src/lib/goons/animationLoadPlan.ts:137-145 | The entries' names are distinct and are exactly those of the named files |
| MotionGroups.NamesInOrder | batshit-app/src/lib/goons/animationLoadPlan.ts:137-157 | Names come in the order in which their first files are given |
| MotionGroups.FirstOfIs | batshit-app/src/lib/goons/animationLoadPlan.ts:152-153 | The file shown for a lane is the first of the lane, if there is one |
| AnimationNames.SanitizeIsSafe | batshit-app/src/lib/goons/animationLoadPlan.ts:160-167 | A sanitized name is safe, unless nothing was left and the fallback is returned as it is |
| AnimationNames.SafeNamesAreFixed | batshit-app/src/lib/goons/animationLoadPlan.ts:160-167 | Safe names are exactly the non-empty names that sanitizing leaves alone |
| AnimationNames.SanitizeTwice | batshit-app/src/lib/goons/animationLoadPlan.ts:160-167 | Sanitizing twice changes nothing more |
| AnimationNames.ExtensionIs | batshit-app/src/lib/goons/animationLoadPlan.ts:161-161 | What is cut off is an extension the name ends in |
| AnimationNames.ExtensionIsExact | batshit-app/src/lib/goons/animationLoadPlan.ts:161-161 | Something is cut off exactly when the name ends in an extension, and then it is that one |
| Wire.RoundTrip32 | batshit-app/scripts/anchored-project-reader.c:208-214 | The 32-bit encoding decodes back, both ways |
| Wire.RoundTrip64 | batshit-app/scripts/anchored-project-reader.c:215-217 | The 64-bit encoding decodes back, both ways |
| Wire.FrameIs | batshit-app/scripts/anchored-project-reader.c:239-244 | A frame is `B320`, version 1, its kind, two zeros, id and length with the highest byte first, and its body |
| Wire.HighestFirst | batshit-app/scripts/anchored-project-reader.c:208-217 | Numbers are written with the highest byte first |
| Wire.Get32 | batshit-app/scripts/anchored-project-reader.c:208-210 | Reads the number at a place |
| Wire.Put32 | batshit-app/scripts/anchored-project-reader.c:211-214 | Writes the number in place and nothing else |
| Wire.Put64 | batshit-app/scripts/anchored-project-reader.c:215-217 | Writes the number in place and nothing else |
| Wire.StreamRoundTrip | batshit-app/scripts/anchored-project-reader.c:239-244 | A stream of frames decodes to exactly these frames |
| Wire.DecodeIsExact | batshit-app/scripts/anchored-project-reader.c:239-244 | Whatever decodes to frames is their encoding, followed by what is left |
| Descriptors.ExactRead | batshit-app/scripts/anchored-project-reader.c:218-228 | However the bytes are split, the buffer gets exactly the next bytes, or the stream ended cleanly, or it broke |
| Descriptors.ExactWrite | batshit-app/scripts/anchored-project-reader.c:229-238 | However the bytes are split, all are sent in order, or the process dies after a part |
| ReaderLoop.SendFrame | batshit-app/scripts/anchored-project-reader.c:239-244 | A frame is sent whole or in part from its start |
| ReaderLoop.NextRequest | batshit-app/scripts/anchored-project-reader.c:836-847 | A request is read, the peer closed, or the process ends, depending only on the bytes sent |
| ReaderLoop.ServeRequests | batshit-app/scripts/anchored-project-reader.c:833-859 | The peer receives exactly the handshake and the responses, or a part of them from the start |
| ReaderLoop.ReadyIs | batshit-app/scripts/anchored-project-reader.c:828-831 | The handshake has kind 128 and no id, and names the device and then the inode of the directory held |
| ReaderLoop.OneResponsePerRequest | batshit-app/scripts/anchored-project-reader.c:836-858 | Whatever is sent, the responses are exactly those to the requests up to the first unacceptable one, in order |
| ReaderLoop.RequestsAreAnswered | batshit-app/scripts/anchored-project-reader.c:836-858 | A peer that sends acceptable requests gets exactly one response to each, with its id, in order, and readable |
| ReaderLoop.RefusedRequests | batshit-app/scripts/anchored-project-reader.c:848-855 | A request to read is refused exactly when its limit or its path is malformed, a request to look exactly when its path is; every other goes to its handler |
| ReaderLoop.AcceptableIs | batshit-app/scripts/anchored-project-reader.c:836-847 | The reader goes on exactly with kinds 1 to 3 of at most 4100 bytes and an id, the writer with kinds 16 to 23 |
| PathCheck.RelativeOk | batshit-app/scripts/anchored-project-reader.c:248-260 | A path passes exactly when it has 1 to 4096 bytes and every part names an entry of its folder |
| PathCheck.PartsJoin | batshit-app/scripts/anchored-project-reader.c:251-259 | Splitting a path loses nothing |
| PathCheck.StatTimes | batshit-app/scripts/anchored-project-reader.c:272-287 | Succeeds exactly when both times are valid and their nanoseconds fit in 64 bits, with the exact values |
| PathCheck.GuardIsExact | batshit-app/scripts/anchored-project-reader.c:280-283 | The guard lets a time through exactly then, without wrap-around |
| SnapshotRead.ReadAll | batshit-app/scripts/anchored-project-reader.c:392-400 | The loop never writes past its buffer and reads the content if nothing changed |
| SnapshotRead.Confirm | batshit-app/scripts/anchored-project-reader.c:402-405 | The checks after reading |
| SnapshotRead.ReadFile | batshit-app/scripts/anchored-project-reader.c:370-416 | Published content is complete, within the limit, and unchanged from the first look, past the moment its name led to it, to the last look; a quiet file is published exactly when it is regular and within the limit, and each other answer has its cause |
| SnapshotRead.StatFile | batshit-app/scripts/anchored-project-reader.c:371-388 | Reported fields are those of an admissible file to which the name led; of a quiet file they are reported exactly when it is admitted and its times fit |
| SnapshotRead.StatBodyRoundTrip | batshit-app/scripts/anchored-project-reader.c:380-386 | The five reported numbers can be read back |
| SnapshotRead.FileRequest | batshit-app/scripts/anchored-project-reader.c:367-416 | One frame with the id of the request. When the file is quiet and no call fails, it is exactly the content, or the five fields, or the error that fits. Content is only sent as a snapshot, and each error text only with its own excuse; two of them exactly with it |
| ReaderSnapshots.ContentIsSnapshot | batshit-app/scripts/anchored-project-reader.c:833-859 | From end to end: however the stream is cut short, every content frame the peer has received answers the request of its turn with one stable snapshot within the limit that request names |

## Left out

- Network, event stream, HTTP handlers, gRPC, timers and WebCrypto are events of the environment: an answer, a refusal, a loss, a delay. Digests are free values, or functions without collisions where a property says so; a public key is identified with its digest.
- Parsing of requests, commands, receipts and challenges: they are given parsed, and a malformed one changes nothing. Which outcome fields fit an action is one Boolean (`wellFormed`). Identifiers are opaque.
- Time: `now` is an integer given with each segment; a page clock that runs backwards is not modelled in `LeaseProtocol`, and the registry's clock is taken to run at least 5/6 as fast as the page's.
- The registry's capacity limits are a refusal at any time; command dispatch and receipts on the server are not modelled. Requests of other pages do not touch a page's bindings.
- The waiting helper of an action context and the page's discovery, description and feedback calls: they read, and grant nothing.
- Connecting before the lease starts, key generation and export (`browserTransport.ts:285-299`): setup, after which `Starts` happens.
- ResultCacheTheorems.OneAnalysis: an entry present but unreadable at the start counts as a failure when it is read; changes of the directory by other processes are not modelled.
- CachePrune.Directory.Prune: the directory does not change while it is pruned, and an unlink does not fail.
- CacheKey.SameKeySameRequest: the configuration text is fixed but for the sample rate, as it is while one process runs.
- The NIM stream itself and its checks (`server.py:281-359`) are one step that returns an animation or fails.
- CanonicalJson.RefusesExactly: which of several reasons for a refusal is reported first is not modelled. Array holes, accessors and properties that are not enumerable are not modelled. A finite number is represented by the text it prints as.
- CanonicalJson.ReadBack: the parser reads the compact JSON that is printed: no blanks, a small `e` in numbers; and it refuses repeated keys, of which `JSON.parse` keeps the last.
- FileReplays.RepeatedFile: a parsed request is identified with its JSON value up to the order of keys, and what else may fail while an intent is computed is any reason.
- FileIntent.SameIntentSameFiles: the hash of a text stands for the hash of its UTF-8 encoding.
- LoadPlan.PartitionBySize: sizes and limits are integers; limits that are fractional, infinite or not numbers, and null entries of the arrays, are not modelled.
- Lower-casing of names and labels is that of ASCII. Dates are given parsed, and whether a file has metadata of its own is one Boolean. Priority names are given without blanks around them.
- ReaderLoop.ServeRequests: a stop signal is a failing descriptor; the Git requests and the writer's own requests are any handler.
- ReaderLoop.OneResponsePerRequest: that a handler answers once is its type; `FileRequest` is the handler modelled, and `ReaderSnapshots.ContentIsSnapshot` joins the two.
- SnapshotRead.ReadFile: assumes of the file system that the reported size is the length of the content, that a change of content changes a compared field, and that no other file has the device and inode of the held one. The confined open itself, test barriers and platform branches are not modelled.
- The request catalog's parser, settings, panels, icons, provider tables and model catalogs: finite data or plumbing.
