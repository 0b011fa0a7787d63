# Paid operations of the Livepeer Video Gateway, verified

This project models how the gateway drives paid operations through crashes, lost replies and concurrent writers, and
proves what that promises. `dafny verify dfyconfig.toml` checks everything.

## How it is modelled

A live operation lives in rows and peers that survive a crash of the gateway: its journal row (with decrypted secrets and
view), its reservation and stream rows, the advisory lock, and the records of LOC (the clearinghouse), the broker and the
runner. `LiveProtocol` collects them in one `Snap`. Everything that changes a `Snap` is an atomic `Action`: a journal write,
a row update, a request that reaches a peer, a peer's own transition, a stop, the passing of time, a lock or its loss.
`Legal` runs are the sequences of actions each enabled when it happens, and `Replay` is where they lead.

What a pass has learned but not saved is in `Snap.course`: that it heard LOC's refusal, has read the stop, saved a dispatch
it has still to send, found a key expired, and so on. What it may do next depends on that, so a run is made of the steps
the engine makes, in its order.

**Passes without their lock.** The lock is a database connection. When it dies the pass lives on: its journal writes fail,
its requests and its updates of other rows do not. `Lose` moves such a pass to `Snap.lapsed`, with the row as it last knew
it, and `Late` actions are what it still does, judged by that row. They interleave with everything else in every run, and
the theorems are about runs that contain them.

`LiveWorker` holds the engine itself, method by method, in the engine's own imperative form: a `Pass` mutates its copies of
the operation (`o`), its secrets (`s`) and its view (`v`), calls peers and saves. Between any two of its steps the peers,
the customer, the clock and the passes without the lock may act (`EnvAs`), every request may be lost before or after its
effect, and every write may land without its reply. Each method must show that whatever it does is an enabled action, and
that whatever it holds in memory is something the journal may be given, since a pass ends by writing it. What a journal
write may contain is `SaveOk`, the write discipline. `World.setbacks` counts, by kind, what went wrong outside the pass:
writes that failed or went unconfirmed, requests without an answer, answers that do not fit, and looks at LOC's account
that showed no closed record. Every method says which of them, or which fact, can make it fail, and that it succeeds only
when its writes did: no method gives up without cause or takes a failed write for success. A crash leaves any
prefix of the run (`CrashAnywhere`), so theorems about all legal runs are theorems about all crashes, lost locks and interleavings of control passes, reconnects and stops.

| module | content |
|---|---|
| `LiveProtocol`, `LiveInvariant` | rows, peers, actions; the invariant, kept by every action |
| `LiveRely`, `LiveSaves`, `LiveWorker`, `LiveGateway` | the engine's live passes and reconnects, and a lifetime of them |
| `LiveTheorems`, `LiveOutcomes`, `LiveEndings`, `LiveReplays` | what holds over every live run, and exactly when what does not |
| `LiveWitness` | concrete live runs from submission |
| `AbrProtocol`, `AbrWorker`, `AbrTheorems`, `AbrEndings`, `AbrWitness` | the same for ABR jobs |
| `Scheduler` | the scan loop, its queues and workers |
| `JournalLocks` | slots, connections, locks and rows under any interleaving |
| `Submission` | idempotent submission and the creating transaction |
| `RateLimiter`, `SseReader` | the token bucket; the event-stream reader |

## What the peers are trusted with

These are the enabling conditions of the peers' actions and the guarantees of the request methods.

- LOC answers a request id once and keeps its answer. A definitive error answer to an issuance request is that answer: LOC
  never authorizes an id it refused, and never refuses definitively an id it authorized. Insufficient credit is final for
  its refill id. A closed record never changes.
- LOC closes a session on the broker's terminal settlement, with its units, or on the broker's non-admission. It closes a
  job as settled by the broker only on the broker's settlement, with its units; it may close a job otherwise at any time.
- A complete reply that names the session or job asked about repeats LOC's record.
- The broker decides a request once, admits at most one session or job for it, has one active grant that only an admitted
  top-up changes, keeps its refusals of top-ups, and signs one terminal settlement, for the grant in use at the end.
- A signed, closed settlement that names this session and one of its grants is the session's terminal record.
- The runner issues one key per issuance identity. UUIDs are fresh.
- The configuration is positive, as the loader requires, and `CurrentCap + fund` does not overflow (`ValidConfig`).

## What the proofs found

Each of these is code as it is, with a run from submission and the exact condition proved.

Without losing a lock:

- **A saved claim does not always decide the outcome.** When a lost top-up is recovered by its settlement, the claim is
  saved while the state is still `active` (paid_engine.go:721-725). If the process dies before the next save, a reconnect that
  finds the key grant expired records `recovery_failed` and its failure code over it (paid_engine.go:1070-1077).
  `LiveOutcomes.ConfluenceExactly`, `LiveWitness.SomeRunDiverges`.
- **A session can be stranded before it becomes active.** Later passes skip the branch that sets `active` once a first key
  is saved (paid_engine.go:617). A crash between those two saves (paid_engine.go:1116, :624) strands the session, and so do
  two keys that come back expired in the first pass (paid_engine.go:1085-1123), without any crash; `UpstreamURL` then never
  returns its address. `LiveEndings.ActivatesExactly`, `LiveWitness.SomeRunStrands`, `LiveWitness.SomeKeysExpire`.
- **A refusal by LOC can be missed.** Only a first attempt, or one that finds the refusal recorded, acts on it
  (paid_engine.go:461). A first attempt that loses the reply, or dies after its refund, leaves a live operation that only
  a recorded refusal, or a stop while no preparation is saved, could still finish, and an ABR job that nothing finishes,
  since the state the test asks for is overwritten before the request (paid_engine.go:296).
  `LiveEndings.RefusedFinishesExactly`, `AbrTheorems.RefusedFinishesExactly`, `SomeRefundIsStranded` and
  `SomeRefusalIsUnheard` in either witness module.
- **A replayed refill can differ from the first request.** A recovery that could not be projected leaves LOC's units in the
  view (paid_engine.go:942-953), and the next request under the same id reports those. `LiveReplays.ReplaysExactly`,
  `LiveWitness.SomeReplaysDiffer`.
- **A rejected ABR admission stands only until LOC closes.** The comment at paid_engine.go:357 says a refused workload is
  not replayed; the status that prevents it is overwritten at paid_engine.go:333. `AbrEndings.RejectionExactly`,
  `AbrWitness.SomeRejectionIsForgotten`.
- **An ABR claim whose job LOC closed otherwise never finishes.** With a claim saved no pass reads LOC's own accounting
  outcome. `AbrEndings.ClaimFinishesExactly`, `AbrWitness.SomeClaimIsStuck`.

With a lock connection that dies while its pass lives on:

- **A settled operation's product row can be shown as live again** by a projection that was on its way
  (paid_engine.go:681, :972). `LiveTheorems.RowStaysClosedExactly`, `LiveWitness.SomeRunReopens`.
- **An open can be sent after a stop was seen**, by a pass that had saved its dispatch (paid_engine.go:555-558).
  `LiveOutcomes.StopSafetyExactly`, `LiveWitness.SomeRunOpensAfterStop`.
- **A stream key can be asked for after an end reason is saved**, by a pass that had saved the key's identity
  (paid_engine.go:1092-1102), or that had found one outstanding and read no stop (paid_engine.go:588-617, :1086).
  `LiveOutcomes.KeysStopExactly`, `LiveWitness.SomeRunAsksAfterEnd`, `LiveWitness.SomeFoundKeyIsAsked`.
- **A finished ABR job's reservation can go back to pending**, or show its runner as failed, since those updates have no
  guard (reservations.go:385-388, paid_engine.go:352). Refund, commitment and billed value are out of reach.
  `AbrTheorems.SettledExactly`, `AbrTheorems.RunnerExactly`, `AbrWitness.SomeRunUnsettles`, `AbrWitness.SomeSuccessIsHidden`.
- **A job can be offered again unchecked**, by a pass that had saved its first dispatch (paid_engine.go:366-370).
  `AbrTheorems.UncheckedExactly`, `AbrWitness.SomeReofferIsUnchecked`.

Elsewhere:

- **The advertised retry can be too short**, because it truncates. `RateLimiter.RetryExactly`.
- **`readSSE` is not quite the WHATWG HTML Standard's reader.** It keeps the name of a block without data for the next event,
  forgets an id with its event, takes an id that contains a NUL, and dispatches an unended last event; it ends no line at a
  carriage return alone, and keeps a byte order mark. `SseReader.ReadsAsStandardExactly` and `SseReader.TextExactly` say
  exactly when none of that matters, and five lemmas give inputs on which it does.

## Model

| member | source | states |
|---|---|---|
| LiveInvariant.Step | gateway/internal/server/paid_engine.go:488-980 | Every atomic step of a pass with the lock, of a pass that lost it, of a reconnect, the customer, the clock, LOC, the broker or the runner keeps the global invariant: identities, the refill chain, custody of the broker's grant, evidence, money, ends, keys, counting, how operations finish, and what each pass without the lock may still rely on |
| LiveInvariant.RunInv | gateway/internal/server/paid_engine.go:234-289 | The invariant holds in every state of every run, by induction on its steps |
| LiveTheorems.CrashAnywhere | gateway/internal/repo/operations.go:126-161 | After any step of any run the process may die, which frees the lock and drops the pass, or the lock's connection alone, which frees the lock and leaves the pass with the row as it last knew it; both extend the run, so every theorem about runs holds of either |
| LiveTheorems.AccountingTruth | gateway/internal/server/paid_engine.go:488-980 | In every run a finished operation is refunded, was never authorized and its product row is over, or LOC closed it, its time is LOC's, the reservation holds LOC's units and billed value, and the product row is its projection unless a pass without the lock wrote that last; nothing is committed while LOC is open |
| LiveTheorems.ShownEnd | gateway/internal/server/paid_engine.go:904-980 | In every run a settled operation shows failed if and only if its close reason is one of the eight failing ones, it has a failure code, or its output stalled, and else ended; the claim's reason, output and code come before the gateway's own; settled by the broker means LOC was asked to close on that claim; and the product row agrees, unless a pass without the lock wrote it last |
| LiveTheorems.RefundIsFinal | gateway/internal/server/paid_engine.go:459-527 | From a refund on, in every continuation, the reservation stays refunded, LOC never authorizes and the broker never has a session |
| LiveTheorems.JournalForward | gateway/internal/repo/operations.go:121-161 | Between any two states of a run stop, end reason, preparation, claim, media end, session and descriptor identity only move forward, and a finished operation's journal row and reservation never change |
| LiveTheorems.RowStaysClosedExactly | gateway/internal/server/paid_engine.go:954-980 | The product row of a settled operation keeps showing LOC's closing time in every continuation if and only if no pass that lost its lock is still on its way to a projection of its own |
| LiveTheorems.QuietRowsStay | gateway/internal/server/paid_engine.go:954-980 | Once an operation is finished and every pass that lost its lock has returned, no row of it ever changes |
| LiveTheorems.GrantCustody | gateway/internal/server/paid_engine.go:664-769 | The broker's active grant is the session's or its one pending successor, and the lookup accepts the terminal settlement of whichever is in use |
| LiveTheorems.CapFormula | gateway/internal/server/paid_engine.go:664-666 | After n refills the cap is min(limit, first cap + n * fund) |
| LiveTheorems.CapsIncrease | gateway/internal/server/paid_engine.go:664-666 | As long as the limit is not reached each later cap is strictly larger |
| LiveTheorems.RefillLedger | gateway/internal/server/paid_engine.go:664-750 | In every run each refill id raised the cap once: ids are distinct, caps follow the closed form, increase strictly and stay within the limit, at most limit - first cap revisions exist, and the product counter never exceeds the adoptions |
| LiveTheorems.RefillReplays | gateway/internal/server/paid_engine.go:684-701 | Every replay of a refill id carries the same cap and, until LOC closes, the same observed usage |
| LiveTheorems.EndReasonsHaveCause | gateway/internal/server/paid_engine.go:541-820 | In every run every end reason in the journal was written for cause: a stop the pass had read, a top-up the broker refused, an open that left no descriptor, a refill LOC declined, a key grant within 15 seconds of its end, or the broker's answer to that pass's poll |
| LiveTheorems.RefillsAreNeeded | gateway/internal/server/paid_engine.go:664-679 | In every run every refill in the journal was minted by a pass whose poll found the session running, its runway low and no refusal announced, for an extensible session below its limit |
| LiveTheorems.EvidenceIsSought | gateway/internal/server/paid_engine.go:719-850 | In every run, before a claim was written to a row with a descriptor, the broker had been asked to end the session for the reason in the journal, or a top-up was pending and had been sent |
| LiveReplays.ReplaysExactly | gateway/internal/server/paid_engine.go:684-701 | All requests under a pending refill id are one request, in every continuation, if and only if the units LOC closes with are known and every request sent, the journal, and every pass that may still ask report them |
| LiveTheorems.Compose | gateway/internal/server/paid_engine.go:488-980 | Runs compose: a run from the state another run ends in extends it |
| LiveOutcomes.Confluence | gateway/internal/server/paid_engine.go:857-953 | From a determined claim every continuation keeps the claim and the outcome it leads to |
| LiveOutcomes.Divergence | gateway/internal/server/paid_engine.go:1070-1082 | From any other claim a reconnect that finds the key grant expired leads to another outcome |
| LiveOutcomes.ConfluenceExactly | gateway/internal/server/paid_engine.go:874-927 | Once a claim is saved, all runs agree on the outcome if and only if the operation has left `active`, or the outcome already shows an expired key grant, or the stop is set and no reconnect that read the row before it has still to judge the grant |
| LiveOutcomes.FinishesAgree | gateway/internal/server/paid_engine.go:874-903 | Two runs that finish from one determined claim, by whichever path, agree on status, close reason, failure code, output state, units and the committed reservation, and on the billed value when LOC had closed |
| LiveOutcomes.ClaimedEnd | gateway/internal/server/paid_engine.go:904-953 | An operation finished with a claim shows the claim's units and outcome, which are LOC's units, and the reservation is committed with them |
| LiveOutcomes.OpenAfterStopIsReplay | gateway/internal/server/paid_engine.go:541-558 | Once the control pass has seen a stop, a pass with the lock sends a broker open only when the broker already has the session |
| LiveOutcomes.StopSafetyExactly | gateway/internal/server/paid_engine.go:531-587 | After a stop with no open sent, none is ever sent and the broker never has a session if and only if no control pass that went on before the stop, with the lock or without it, is still on its way to the open |
| LiveOutcomes.EndReasonFreezesRefills | gateway/internal/server/paid_engine.go:597-681 | Once an end reason is saved it is never emptied and no refill id is ever minted again |
| LiveOutcomes.EndReasonStopsKeys | gateway/internal/server/paid_engine.go:614-618 | Once an end reason is saved, a lock holder that asks the runner for a stream key is a reconnect |
| LiveOutcomes.KeysStopExactly | gateway/internal/server/paid_engine.go:1050-1102 | Once an end reason is saved no control pass, with the lock or without it, ever asks the runner for a stream key if and only if none that lost its lock is on its way to the request: it has an identity, saved by it or found, no end reason, and either found its key grant good or has read the stop, found neither a stop nor an address, and its grant is good now |
| LiveOutcomes.MediaEndIrrevocable | gateway/internal/server/paid_engine.go:930-940 | A media end comes with a claim, an end reason or a cancellation; it never changes, and no later state is `active` |
| LiveOutcomes.OneIdentity | gateway/internal/server/paid_engine.go:502-587 | All authorization requests of an operation are one and the same, sent after its preparation and attempt were saved; the broker hears of it after the grant and the dispatch mark were saved; it admits at most one session |
| LiveOutcomes.OneKeyOutstanding | gateway/internal/server/paid_engine.go:1083-1118 | At most one key-issuance identity is unanswered, it is the journal's, and the saved address is the runner's answer to a saved identity |
| LiveOutcomes.MintedAfterAllSaved | gateway/internal/server/paid_engine.go:1086-1095 | A new key identity is saved only when the answer to every earlier one was saved, and was never used before |
| LiveEndings.ActivatesExactly | gateway/internal/server/paid_engine.go:617-627 | An operation whose first key is saved but which is not active can become active if and only if the pass that issued the key holds the lock, nothing has ended the session, and that pass found a key usable or can still get one that is; two expired keys or a lost lock end that |
| LiveEndings.CrashStrands | gateway/internal/server/paid_engine.go:617-627 | At that point the death of the process or of the lock's connection leaves a session that no run makes active |
| LiveEndings.RefusedFinishesExactly | gateway/internal/server/paid_engine.go:459-477 | An operation LOC refused can still finish if and only if no preparation is saved, so that a stop cancels it, or the refusal is recorded, or a control pass that may act on a refusal holds the lock and heard it or can still hear it |
| LiveWitness.SomeRunStrands | gateway/internal/server/paid_engine.go:617-627 | Every submitted operation has a run that strands its admitted session by a crash after the first key's save |
| LiveWitness.SomeKeysExpire | gateway/internal/server/paid_engine.go:1085-1123 | Every submitted operation has a run without any crash or lost lock that strands its session: both keys of the first pass come back expired, and the pass returns an error |
| LiveWitness.SomeRefundIsStranded | gateway/internal/server/paid_engine.go:459-477 | Some run refunds a refused operation and dies; no run finishes it from there |
| LiveWitness.SomeRefusalIsUnheard | gateway/internal/server/paid_engine.go:459-477 | Some run without a crash loses LOC's refusal on the way; the reservation stays open and no run finishes the operation while its preparation stands |
| LiveWitness.SomeRunReopens | gateway/internal/server/paid_engine.go:660-682 | Some run settles an operation and then shows its product row as live again: a pass that lost its lock during a poll projects last |
| LiveWitness.SomeRunOpensAfterStop | gateway/internal/server/paid_engine.go:549-558 | Some run sends the first open after a later pass has seen the stop: the pass that saved the dispatch lost its lock before sending |
| LiveWitness.SomeRunAsksAfterEnd | gateway/internal/server/paid_engine.go:1092-1102 | Every submitted operation has a run in which a control pass asks the runner for the first key after the next pass saved the end reason: it lost its lock between saving the identity and the request |
| LiveWitness.SomeFoundKeyIsAsked | gateway/internal/server/paid_engine.go:588-617 | Every submitted operation has a run in which the first key is asked for after the end reason was saved, when no pass without its lock had yet looked at its key grant or saved an identity to send: one had found the identity of a crashed pass |
| LiveWitness.SomeReplaysDiffer | gateway/internal/server/paid_engine.go:684-701 | Every submitted operation with room for a refill has a run that sends LOC two requests under one refill id that report different usage |
| LiveWitness.SomeRunDiverges | gateway/internal/server/paid_engine.go:719-727 | Every operation with room for a refill has a run that saves its claim while a reconnect can still change the outcome |
| LiveWitness.SomeRunSettles | gateway/internal/server/paid_engine.go:488-980 | Every operation with room for a refill has a run that finishes on the broker's settlement, with the reservation committed and billed |
| LiveGateway.Lifetime | gateway/internal/server/paid_engine.go:234-289 | However many passes and reconnects run, in whatever order and among whatever else, a finished operation is accounted for as LOC accounts for it |
| LiveWorker.World.Do | gateway/internal/server/paid_engine.go:488-980 | Each step of a pass extends the run by an action that was allowed and keeps the invariant |
| LiveWorker.Pass.constructor | gateway/internal/server/paid_engine.go:248-264 | A pass starts from the saved row, counts its attempt, and holds what the journal would accept |
| LiveWorker.Pass.Save | gateway/internal/server/paid_engine.go:228-233 | The row becomes what the pass holds or, when the write is lost, stays; the stop flag is never written; it reports failure only for a write that failed or went unconfirmed |
| LiveWorker.Pass.RereadStop | gateway/internal/server/paid_engine.go:590-596 | The saved stop flag is merged into the pass's, nothing else is read, and it never reverts |
| LiveWorker.Pass.RefundReservation | gateway/internal/repo/reservations.go:67-73 | Only an open reservation is refunded, and only after the pass heard LOC's refusal or saw a stop before any preparation |
| LiveWorker.Pass.MarkSettled | gateway/internal/repo/reservations.go:397-405 | The reservation carries LOC's billed value; journal and product row are untouched by the pass |
| LiveWorker.Pass.CommitReservation | gateway/internal/repo/reservations.go:57-65 | Only an open reservation is committed, with LOC's units |
| LiveWorker.Pass.WriteStream | gateway/internal/server/paid_engine.go:968-975 | On success the stream row is the given projection, or over, or ended; a lost write may have landed |
| LiveWorker.Pass.CloseSession | gateway/internal/server/paid_engine.go:887-891 | LOC is asked to close on the saved claim, after the media end was saved; an answer that names the session repeats LOC's record |
| LiveWorker.Pass.EndBroker | gateway/internal/server/paid_engine.go:828-833 | The broker is asked to end the session, for the end reason in the journal, with no top-up left to replay |
| LiveWorker.Pass.StatusSession | gateway/internal/server/paid_engine.go:632-645 | The broker is polled only when the product row shows what the journal holds; the pass keeps the answer |
| LiveWorker.Pass.IncrementRefill | gateway/internal/repo/live.go:96-100 | On success this pass's adoption is counted, and the pass cannot count it again |
| LiveWorker.Pass.LookupSettlement | gateway/internal/proxy/livepeer/v2.go:447-464 | An accepted settlement is closed, counts output seconds, names the id asked for and the expected grant |
| LiveWorker.Pass.LookupOpen | gateway/internal/proxy/livepeer/v2.go:489-508 | A rejected or non-admitted exchange names no session; a named session is the broker's |
| LiveWorker.Pass.OpenAuthorization | gateway/internal/server/paid_engine.go:518-521 | The operation's one authorization request, with its preparation, cap and body, is sent; a definitive refusal is LOC's answer to it |
| LiveWorker.Pass.OpenBroker | gateway/internal/server/paid_engine.go:549-558 | The saved open is sent; a returned descriptor is the broker's session under the saved grant |
| LiveWorker.Pass.ApplyLiveTerminalView | gateway/internal/server/paid_engine.go:904-927 | The edits amount to the terminal view of secrets, view and units |
| LiveSaves.TerminalViewStable | gateway/internal/server/paid_engine.go:904-927 | Applying the terminal view again, with whatever units, is applying it once with the last units |
| LiveSaves.OutcomeStable | gateway/internal/server/paid_engine.go:904-927 | Applying the terminal view does not change the outcome a claim leads to |
| LiveWorker.Pass.ProjectLive | gateway/internal/server/paid_engine.go:954-980 | On success the stream row shows the projection of row and view, unless a pass without the lock wrote it since, and a finished operation's reservation is committed with the view's units |
| LiveWorker.Pass.ObserveLiveEnd | gateway/internal/server/paid_engine.go:930-940 | The media end is recorded if it was not, usage is untouched, accounting stays pending, and on success the product row shows it |
| LiveWorker.Pass.FinalizeLiveProjection | gateway/internal/server/paid_engine.go:942-953 | Finishes with LOC's closing time, units and billed value all in place, or leaves accounting pending |
| LiveWorker.Pass.RecoverClosedLive | gateway/internal/server/paid_engine.go:857-873 | Finishes only on LOC's closed record, with its units; without one, or with one that is incomplete, which it tells apart, the pass is left exactly as it was |
| LiveWorker.Pass.FinishByLoc | gateway/internal/server/paid_engine.go:868-872 | A session that never had a descriptor and no end reason ends as a failed open, every other keeps its reason |
| LiveWorker.Pass.SettleClaim | gateway/internal/server/paid_engine.go:887-902 | LOC is asked to close; settled by the broker unless that answer was lost, else by LOC's record; the view is the terminal view with LOC's units |
| LiveWorker.Pass.RecordEnd | gateway/internal/server/paid_engine.go:879-886 | The terminal view of the claim and the media end show, and are saved, before LOC is asked to close |
| LiveWorker.Pass.FinishLive | gateway/internal/server/paid_engine.go:874-903 | Success means settled by LOC, with the claim and the media end saved before, and the final view that of claim and LOC's units; it fails only for a failed write, or if LOC's account shows no closed record or an answer that does not fit |
| LiveWorker.Pass.LookupLiveClaim | gateway/internal/server/paid_engine.go:751-769 | Only the broker's terminal settlement, for this gateway session and one of the two known grants, is returned |
| LiveWorker.Pass.FinishByRecord | gateway/internal/server/paid_engine.go:836-843 | Without evidence LOC's closed record finishes, with its final view; it fails only if there is none, it is incomplete, or a write failed |
| LiveWorker.Pass.FinishOnEvidence | gateway/internal/server/paid_engine.go:835-851 | Evidence that is found is saved and settled; without it, and only then, LOC's record decides |
| LiveWorker.Pass.MarkEnding | gateway/internal/server/paid_engine.go:816-825 | Unless the media end is recorded, row and view show that the session is ending, with its reason; else nothing changes |
| LiveWorker.Pass.EndLive | gateway/internal/server/paid_engine.go:816-852 | The end is saved and then the broker is asked to end the session for that reason, unless the save failed; success means settled by LOC with the final view of secrets and view; without a lost or unfitting answer it finishes on the claim; it fails only for a failed write, an unfitting answer, or no closed record at LOC |
| LiveWorker.Pass.EndUnopened | gateway/internal/server/paid_engine.go:781-798 | A stop before any media ends the view as closed by the gateway, keeps accounting pending, and shows in the product row unless the write failed |
| LiveWorker.Pass.StopUnopenedLive | gateway/internal/server/paid_engine.go:773-814 | Sends no open. LOC's closed record comes first; then an exchange that rejected or did not admit ends the media, one that settled finishes on its evidence, one in flight with a session allows the replay, with row, view and lock as they were; an operation never dispatched, or whose media has ended, is not looked up |
| LiveWorker.Pass.AdoptRefill | gateway/internal/server/paid_engine.go:733-743 | The successor replaces the grant in session and descriptor, the cap becomes the refill's, the pending identity is cleared, the adoption is counted, and nothing else changes |
| LiveWorker.Pass.WindDownRefused | gateway/internal/server/paid_engine.go:708-718 | A refused top-up keeps both grants, is recorded as refused with its failure code, and the broker is asked to end the session as closed by the gateway, unless a write failed |
| LiveWorker.Pass.RecoverLostTopUp | gateway/internal/server/paid_engine.go:719-731 | A top-up without answer finishes on evidence for either grant, if any is found, or on LOC's record, or leaves the secrets as they were |
| LiveWorker.Pass.DropRefill | gateway/internal/server/paid_engine.go:689-693 | Insufficient credit drops the identity, and the broker is asked to end the session as refused, unless a write failed |
| LiveWorker.Pass.ReviseLive | gateway/internal/server/paid_engine.go:684-701 | LOC's revision is saved before it is used; insufficient credit drops the identity and ends the session; only without an answer does LOC's record decide |
| LiveWorker.Pass.RefillLive | gateway/internal/server/paid_engine.go:683-744 | Success without finishing means the cap is the pending one, no refill is pending, the adoption is counted, and all else is unchanged; it finishes only after a lost answer, a refusal or insufficient credit |
| LiveWorker.Pass.TopUpLive | gateway/internal/server/paid_engine.go:664-679 | A new identity raises the cap to min(limit, cap + fund) |
| LiveWorker.Pass.ExpireKeyGrant | gateway/internal/server/paid_engine.go:1070-1082 | An expired key grant ends the session with its own reason and failure code |
| LiveWorker.Pass.MintKeyRequest | gateway/internal/server/paid_engine.go:1086-1095 | An outstanding identity is kept; otherwise a fresh one is saved before it is used |
| LiveWorker.Pass.RecordKey | gateway/internal/server/paid_engine.go:1113-1118 | The outstanding identity's answer becomes the address and its expiry, and the identity is cleared |
| LiveWorker.Pass.IssueLiveStreamKey | gateway/internal/server/paid_engine.go:1051-1124 | Success means well-formed answers to the identities asked for and a saved key found usable, with no outstanding identity, and nothing else changed; it fails only if a write, a request or an answer did, two keys came back expired, the session has no usable addresses, or its key grant is about to end, which then ends the session |
| LiveWorker.Pass.CancelLive | gateway/internal/server/paid_engine.go:489-501 | A cancellation refunds, finishes, and shows the media ended by the gateway at the finish, and LOC never authorized; it fails only for a failed write and then changes nothing in memory |
| LiveWorker.Pass.IssuanceFailure | gateway/internal/server/paid_engine.go:459-477 | A definitive refusal of the first attempt, or after a recorded one, finishes the operation as refused and refunded with LOC's status as its failure code, unless a write fails; any other failure changes nothing |
| LiveWorker.Pass.RefuseLive | gateway/internal/server/paid_engine.go:462-474 | Finished only once the refund and the stream row are in place |
| LiveWorker.Pass.PrepareLive | gateway/internal/server/paid_engine.go:502-516 | On success the preparation, and the body bound to it, are saved and nothing else changed; a failure is LOC's error answer, treated as such, a lost one, or a failed write |
| LiveWorker.Pass.AuthorizeLive | gateway/internal/server/paid_engine.go:517-527 | On success the grant is saved and nothing else changed; a failure is LOC's error answer, treated as such, a lost one, or a failed write |
| LiveWorker.Pass.RecoverFailedOpen | gateway/internal/server/paid_engine.go:559-575 | A failed open finishes on its settlement, as a failed open, or on LOC's record, and sends nothing again |
| LiveWorker.Pass.DispatchLive | gateway/internal/server/paid_engine.go:549-587 | On success the dispatch mark and a live descriptor are saved and nothing else changed; without a descriptor it finishes only after a lost answer |
| LiveWorker.Pass.OpenLive | gateway/internal/server/paid_engine.go:531-587 | A pass that sees a stop sends no open unless the broker already has the session; on success only dispatch mark, descriptor, state and, after a stop, the end reason changed |
| LiveWorker.Pass.ActivateLive | gateway/internal/server/paid_engine.go:617-627 | On success the operation is saved as active and playable with a key, all else unchanged |
| LiveWorker.Pass.EndByRunner | gateway/internal/server/paid_engine.go:649-659 | The session ends for the runner's reason, or as ended by the runner when it gives none; the media end shows before the broker is asked to end it; success means settled by LOC with the final view |
| LiveWorker.Pass.HeedStatus | gateway/internal/server/paid_engine.go:642-682 | A session that is over ends for its reason, one that winds down ends as ended by the runner; one that runs on is topped up, to min(limit, cap + fund), if and only if its runway is low, no refusal is announced, it is extensible and below its limit, and otherwise its secrets do not change; the answer is noted in the view |
| LiveWorker.Pass.PollLive | gateway/internal/server/paid_engine.go:629-682 | An answer that can be used is heeded as above; without an answer LOC's record decides; the product row shows what the journal holds before and after; it fails only for a failed write, an unfitting answer, or no closed record at LOC |
| LiveWorker.Pass.ReplayRefill | gateway/internal/server/paid_engine.go:605-613 | A pending refill that was not refused is replayed before the session is ended, keyed or polled, and otherwise nothing changes |
| LiveWorker.Pass.SteerLive | gateway/internal/server/paid_engine.go:614-628 | With an end reason the broker is asked to end the session for it; without one the session is keyed, unless it has an address, and polled |
| LiveWorker.Pass.ControlLive | gateway/internal/server/paid_engine.go:588-682 | With a stop or an end reason a pass succeeds only by settling, and sends no open; a stop ends the session as closed by the gateway; otherwise success means it was polled and its row shown; it fails only for cause |
| LiveWorker.Pass.RunLive | gateway/internal/server/paid_engine.go:488-682 | A stopped operation without descriptor is sent no open unless the broker has its session; a finish is settled by LOC or a refunded cancellation; a stopped pass succeeds only by finishing, any other by finishing or polling; it fails only on LOC's error answer, a failed write, a lost or unfitting answer, no closed record, or for want of a key |
| LiveWorker.Process | gateway/internal/server/paid_engine.go:234-289 | The pass's final write is always one the journal accepts, the lock is released, and a finished operation is not touched; when nothing went wrong a successful turn leaves a stopped operation finished, any other finished or shown, and a failed one had LOC's error answer, which leaves what it should, or no key |
| LiveWorker.UpstreamURL | gateway/internal/server/paid_engine.go:985-1047 | A good key, with an active, unstopped, unfinished operation, no identity outstanding and more than 15 seconds left, is returned and nothing touched; whoever holds the lock, an address is returned only if the last read finds the operation active, unstopped and unfinished with no identity outstanding; an inactive operation is left alone |
| LiveWorker.Pass.RenewedURL | gateway/internal/server/paid_engine.go:1027-1046 | With the lock in hand: an address only if the last read finds the operation active, unstopped and unfinished with no key identity outstanding; none only after a stop or an end was read, a write, request or answer failed, the session has no addresses or key grant left, or two keys came back expired; it sends no broker open |
| LiveWorker.RenewUnderLock | gateway/internal/server/paid_engine.go:1020-1046 | After waiting for the lock everything is read again; no broker open is sent; no address is returned only for the causes above or an operation no longer active |
| AbrProtocol.Step | gateway/internal/server/paid_engine.go:294-477 | Every atomic step of an ABR operation, also by a pass that lost its lock, keeps its invariant |
| AbrProtocol.RunInv | gateway/internal/server/paid_engine.go:234-289 | The invariant holds in every state of every ABR run |
| AbrTheorems.AccountingTruth | gateway/internal/server/paid_engine.go:294-477 | A finished job is refused and refunded, or LOC closed it and the reservation is committed with LOC's units and carries LOC's billed value; it is settled, and its runner status agrees with the view, unless a pass without the lock wrote those last; nothing is committed while LOC is open |
| AbrTheorems.ShownEnd | gateway/internal/server/paid_engine.go:326-454 | In every run a job LOC closed shows success if and only if LOC closed it on the broker's settlement and the runner reported success, then with full progress and no failure code; a failed one shows no code with a claim, and without one that it was not admitted, if LOC recorded that, or else LOC's outcome; with a claim LOC was asked to settle it |
| AbrTheorems.RefundIsFirst | gateway/internal/server/paid_engine.go:459-475 | A refund, with the lock or without it, is made only by the job's first pass, after it heard LOC's refusal of the one request |
| AbrTheorems.RefundIsFinal | gateway/internal/server/paid_engine.go:294-304 | From a refund on LOC never authorizes the job and the broker never hears of it |
| AbrTheorems.RefusedFinishesExactly | gateway/internal/server/paid_engine.go:294-304 | A refused issuance can still finish if and only if the first pass holds the lock and was told of its refund or has not returned |
| AbrTheorems.VerifiedSuccess | gateway/internal/server/paid_engine.go:316-454 | Success, and with it the playlists and the completed runner status, is shown only after a typed success for this workload and LOC's closure as settled by the broker, with the units of the broker's own claim bound to this job |
| AbrTheorems.OneIdentity | gateway/internal/server/paid_engine.go:294-418 | All issuance requests are the submitted order, all dispatches the saved authorization and body, each saved before it was sent, and at most one is admitted |
| AbrTheorems.RedispatchIsChecked | gateway/internal/server/paid_engine.go:316-369 | A pass with the lock offers a job again only if, since the last offer, the exchange lookup failed and LOC showed no closure, and no claim is saved |
| AbrTheorems.UncheckedExactly | gateway/internal/server/paid_engine.go:361-370 | Once offered, a job is offered again without that look if and only if a pass lost its lock between saving a first dispatch and sending it, and lives on |
| AbrTheorems.JournalForward | gateway/internal/server/paid_engine.go:294-455 | Order, authorization and claim are written once, the dispatch mark and LOC's closure never revert, and a finished job's journal row, reservation state and billed value never change |
| AbrTheorems.SettledExactly | gateway/internal/repo/reservations.go:383-405 | A finished job's reservation stays settled in every continuation if and only if no pass that lost its lock has LOC's job still to register |
| AbrTheorems.RunnerExactly | gateway/internal/server/paid_engine.go:346-353 | A finished job's runner status stays in every continuation if and only if no pass that lost its lock, and has not seen LOC open, may still conclude on another result |
| AbrEndings.RejectionExactly | gateway/internal/server/paid_engine.go:320-360 | A rejected job is offered again, before LOC closes anything more, if and only if LOC has already closed it or a pass that lost its lock still has an offer to send |
| AbrEndings.RejectionForgotten | gateway/internal/server/paid_engine.go:331-348 | The run: a pass replaces the rejection by LOC's outcome and fails to update the reservation, the next reaches neither the exchange nor LOC, and dispatches |
| AbrEndings.ClaimFinishesExactly | gateway/internal/server/paid_engine.go:419-439 | With a claim saved and LOC closed, the job can finish if and only if LOC closed it as settled by the broker |
| AbrWitness.SomeRunUnsettles | gateway/internal/repo/reservations.go:383-405 | Some run from submission finishes a job as succeeded and settled and then sets its reservation back to pending |
| AbrWitness.SomeSuccessIsHidden | gateway/internal/server/paid_engine.go:346-353 | Some run from submission finishes a job as succeeded and then records its runner as failed |
| AbrWitness.SomeReofferIsUnchecked | gateway/internal/server/paid_engine.go:361-370 | Some run from submission offers a job a second time with no look at broker and LOC in between |
| AbrWitness.SomeRefundIsStranded | gateway/internal/server/paid_engine.go:459-477 | Some run from submission refunds a refused job and dies; no run finishes it from there |
| AbrWitness.SomeRefusalIsUnheard | gateway/internal/server/paid_engine.go:294-304 | Some run from submission loses LOC's refusal on the way; the reservation stays open and no run finishes the job |
| AbrWitness.SomeRejectionIsForgotten | gateway/internal/server/paid_engine.go:320-360 | Some run from submission saves a job's rejection and later offers the job again |
| AbrWitness.SomeClaimIsStuck | gateway/internal/server/paid_engine.go:419-439 | Some run from submission saves the broker's claim while LOC closes otherwise; no run finishes the job from there |
| AbrWorker.World.Do | gateway/internal/server/paid_engine.go:294-455 | Each step extends the run by an action that was allowed and keeps the invariant |
| AbrWorker.Pass.Save | gateway/internal/server/paid_engine.go:228-233 | The row becomes what the pass holds or stays; it reports failure only for a write that failed or went unconfirmed |
| AbrWorker.Pass.Update | gateway/internal/repo/reservations.go:57-73 | One guarded update of the reservation row, done or not, apart from what passes without the lock write; the journal is untouched |
| AbrWorker.Pass.LookupJob | gateway/internal/proxy/livepeer/v2.go:214-260 | An accepted settlement is bound to the request, the grant and the unit of the job |
| AbrWorker.Pass.SettleJob | gateway/internal/server/paid_engine.go:419-420 | LOC is asked to settle; an answer that names the job means LOC closed it on the broker's settlement with those units |
| AbrWorker.Pass.OnEvent | gateway/internal/server/paid_engine.go:375-409 | Progress and a typed terminal result that name this workload change the view, each its own part; anything else is refused and changes nothing; a terminal result is saved at once |
| AbrWorker.Pass.ConsumeStream | gateway/internal/server/paid_engine.go:375-409 | The view is what the stream's events, in order, add to it; success means all of them were read and none was refused |
| AbrWorker.Pass.SubmitJob | gateway/internal/proxy/livepeer/v2.go:127-167 | The job is offered exactly as saved; a claim is returned only after the whole stream was read; it is the trailer, if there is one, else what the lookup finds, and the broker's terminal record of the job; without one a request, an answer or a write failed |
| AbrWorker.Pass.IssuanceFailure | gateway/internal/server/paid_engine.go:459-477 | A definitive refusal of the first attempt finishes the job as refused and refunded with LOC's status as its failure code, unless a write fails; any other failure, and any later attempt, changes nothing |
| AbrWorker.Pass.Authorize | gateway/internal/server/paid_engine.go:295-309 | On success LOC's job is saved and nothing else changed; a failure is LOC's error answer, treated as such, a lost one, or a failed write |
| AbrWorker.Pass.Conclude | gateway/internal/server/paid_engine.go:346-352 | Finishes only with the reservation settled, committed and its runner status agreeing with the view; it fails only for a failed write |
| AbrWorker.Pass.CloseByLoc | gateway/internal/server/paid_engine.go:329-353 | LOC's own closure finishes at LOC's time: success needs both the runner's result and a broker settlement; a failed job that LOC recorded as not admitted says so, any other shows LOC's outcome |
| AbrWorker.Pass.AdoptSettlement | gateway/internal/server/paid_engine.go:317-326 | A settlement becomes the pass's claim; a rejection, and only that, shows in the view |
| AbrWorker.Pass.Reconcile | gateway/internal/server/paid_engine.go:316-355 | Going on means a claim was found, or the lookup failed and LOC showed no closure; only a rejection by the exchange changes the view |
| AbrWorker.Pass.Dispatch | gateway/internal/server/paid_engine.go:361-418 | On success a claim was saved after the dispatch mark was, and the view is what the stream added to it |
| AbrWorker.Pass.ConcludeClaim | gateway/internal/server/paid_engine.go:440-454 | A settled claim finishes with the claim's units, as success only with the runner's typed result |
| AbrWorker.Pass.Settle | gateway/internal/server/paid_engine.go:419-439 | LOC is asked to settle; a duplicate settlement is accepted only if LOC's record is the same settlement; it fails only if a write, a request or an answer did |
| AbrWorker.Pass.RunAbr | gateway/internal/server/paid_engine.go:294-455 | A pass succeeds only by finishing as LOC closed it; it fails only on LOC's error answer, a job billed in another unit, a rejection without a claim, or a write, a request or an answer that failed |
| AbrWorker.Process | gateway/internal/server/paid_engine.go:234-289 | The pass's final write is always one the journal accepts; a finished job is not touched; when nothing went wrong a successful turn leaves the job finished, and a failed one had LOC's error answer, which leaves what it should, a job billed in another unit, or a rejection without a claim |
| Scheduler.NowhereTwice | gateway/internal/server/paid_engine.go:139-197 | The busy set is exactly what is queued, running or being offered, nothing is in two places, and at most 23 operations are in the engine |
| Scheduler.Lane.Send | gateway/internal/server/paid_engine.go:181-188 | A send succeeds exactly when the queue has room, and appends |
| Scheduler.Lane.Take | gateway/internal/server/paid_engine.go:150-151 | A worker receives the oldest queued id |
| Scheduler.Lane.Finish | gateway/internal/server/paid_engine.go:151-154 | One running id leaves the lane and is recorded as finished |
| Scheduler.Engine.Done | gateway/internal/server/paid_engine.go:152-154 | Only the finished id is unmarked |
| Scheduler.Engine.Mark | gateway/internal/server/paid_engine.go:174-180 | An id already busy is skipped, any other is marked |
| Scheduler.Engine.Offer | gateway/internal/server/paid_engine.go:181-187 | An id that finds no room is unmarked, otherwise it stays marked and queued |
| Scheduler.Engine.Scan | gateway/internal/server/paid_engine.go:168-189 | All ids are offered, in order; a lane accepts only those, and all of them that were not busy when it has room for all, whatever the workers do meanwhile |
| Scheduler.Engine.Drain | gateway/internal/server/paid_engine.go:159-164 | After closing, a lane's workers finish every id it ever accepted, as often as it was accepted |
| Scheduler.Engine.Run | gateway/internal/server/paid_engine.go:139-197 | Every id of every scan was offered, in order, to the lane it was scanned for, and a lane accepted only such ids; when the loop returns nothing is queued, running or busy, and what was finished is what was accepted |
| JournalLocks.RowsForward | gateway/internal/repo/operations.go:121-124 | In every interleaving a stop flag never reverts and a finished row never changes |
| JournalLocks.JournalLinearity | gateway/internal/repo/operations.go:126-161 | Each saved row was computed from the row saved just before it, by the only actor whose live connection holds the lock; an actor whose connection died saves nothing |
| JournalLocks.ResourceSafety | gateway/internal/server/paid_engine.go:131-157 | Lock holders pin at most 8 connections, leaving 4 of 12, and ABR work holds at most 2 slots |
| JournalLocks.EveryDrainEnds | gateway/internal/server/paid_engine.go:234-247 | Let nothing new start: steps already begun, taken in any order, are bounded in number, and when none is left every slot is empty, so no group of actors waits for each other |
| JournalLocks.Drains | gateway/internal/server/paid_engine.go:234-247 | From every state some such run empties all slots, and tries each lock only when it is free |
| JournalLocks.RunInv | gateway/internal/repo/operations.go:134-161 | Mutual exclusion, freshness of what holders read, linear histories and the resource bounds hold in every state of every interleaving |
| Submission.AnswersAgree | gateway/internal/server/paid_handlers.go:19-28 | Whenever answered, submissions with one key and one hash get one id, and any other hash a conflict |
| Submission.OneReservationEach | gateway/internal/repo/operations.go:80-104 | Every reservation is that of exactly one operation, which names it, so there are as many operations as reservations |
| Submission.Journal.FindRequest | gateway/internal/repo/operations.go:69-71 | Finds the operation of a slot if there is one |
| Submission.Journal.CreateIntent | gateway/internal/repo/operations.go:83-104 | All rows or none; never a second operation in a slot; an error leaves open only whether its own commit happened, and means that, a failed transaction, or a conflict |
| Submission.Journal.Existing | gateway/internal/server/paid_handlers.go:19-28 | The same request finds its operation, another request a conflict |
| Submission.Journal.Submit | gateway/internal/server/paid_handlers.go:36-109 | Among concurrent submissions: an accepted reply names an operation of this slot and hash, a conflict another hash; the same request in a used slot is accepted, another a conflict, unless a read or transaction failed; a malformed request creates nothing; failures have a cause |
| Submission.Journal.Create | gateway/internal/server/paid_handlers.go:195-213 | A submission that lost the race, or whose commit's answer was lost, replies as if it had looked the slot up first; only a new live operation without credit must be paid for |
| Submission.AbrAuthorizationLimit | gateway/internal/server/paid_handlers.go:112-128 | A limit exists exactly when the request is consistent; it covers the estimate, stays within the ceiling, and defaults to the estimate plus a quarter, rounded up, without overflow |
| RateLimiter.RateLimit.Allow | gateway/internal/server/middleware.go:271-294 | The key's bucket is refilled, capped and charged as specified; other keys' buckets are unchanged; a refusal names at least one second, and the truncated wait when the rate is not zero |
| RateLimiter.Potential | gateway/internal/server/middleware.go:279-288 | Tokens taken plus tokens left never exceed the tokens at the start plus what time added, and tokens stay within zero and the burst |
| RateLimiter.WindowBound | gateway/internal/server/middleware.go:271-294 | In any window of calls of one key at most burst + rate * length are allowed |
| RateLimiter.FreshBurst | gateway/internal/server/middleware.go:275-289 | A new key may call as often at once as the burst allows, and no more |
| RateLimiter.SlowCallerAllowed | gateway/internal/server/middleware.go:279-287 | A key that waits for a token between calls is never refused |
| RateLimiter.KeysAreIsolated | gateway/internal/server/middleware.go:275-278 | What a key is allowed depends on its own calls only |
| RateLimiter.RateBound | gateway/internal/server/middleware.go:271-294 | The bound for one key among everybody's calls, from the start of the gateway |
| RateLimiter.RetryExactly | gateway/internal/server/middleware.go:289-293 | Waiting as long as told is enough if and only if the wait was a whole number of seconds or at most one |
| SseReader.ReadSse | gateway/internal/proxy/livepeer/v2.go:168-213 | Exactly the stream's events are delivered, in order, up to the first the callback refuses; success means all were accepted and the stream was intact |
| SseReader.Scanner.Scan | gateway/internal/proxy/livepeer/v2.go:169-170 | Lines end at line feeds, lose one carriage return, and must fit the buffer |
| SseReader.TooLong | gateway/internal/proxy/livepeer/v2.go:169-170 | A line of 4194304 characters or more is not read |
| SseReader.ReadField | gateway/internal/proxy/livepeer/v2.go:195-207 | A line adds to the pending event what its field says |
| SseReader.NoteItem | gateway/internal/proxy/livepeer/v2.go:195-207 | A comment, a field with or without the space, or a bare field name is noted as what it says |
| SseReader.ReadsBlocks | gateway/internal/proxy/livepeer/v2.go:187-212 | However events are written, the blocks' events are read, with or without the last blank line |
| SseReader.PrintMeans | gateway/internal/proxy/livepeer/v2.go:173-186 | A printed event, its data split at line feeds, stands for that event |
| SseReader.LinesOfText | gateway/internal/proxy/livepeer/v2.go:187-188 | Text made of lines, each ended by LF or CRLF, is scanned back into them |
| SseReader.RoundTrip | gateway/internal/proxy/livepeer/v2.go:168-213 | Events printed by the grammar of section 9.2.5 of the WHATWG HTML Standard with LF or CRLF line ends, comments anywhere, are heard exactly and in order |
| SseReader.DatalessBlockMerges | gateway/internal/proxy/livepeer/v2.go:173-176 | A blank line after a block without data is as if it were not there |
| SseReader.ReadsAsStandardExactly | gateway/internal/proxy/livepeer/v2.go:168-213 | Lines are read as section 9.2.6 of the WHATWG HTML Standard interprets them if and only if a blank line ends every event, each event has its own id without a NUL or none was kept, and no event without its own name follows a name left by a block without data |
| SseReader.TextExactly | gateway/internal/proxy/livepeer/v2.go:169-188 | The scanner's lines of a text that fits are the Standard's if and only if it has no byte order mark and no carriage return alone before its end |
| SseReader.HeardAsStandard | gateway/internal/proxy/livepeer/v2.go:168-213 | A text with the Standard's lines is heard as the Standard says if and only if its lines meet the condition above |
| SseReader.StrayNameKept | gateway/internal/proxy/livepeer/v2.go:173-184 | Input on which they differ: a name left by a block without data |
| SseReader.IdForgotten | gateway/internal/proxy/livepeer/v2.go:183-183 | Input on which they differ: an id that the Standard keeps for the next event |
| SseReader.NulIdTaken | gateway/internal/proxy/livepeer/v2.go:203-204 | Input on which they differ: an id with a NUL |
| SseReader.UnendedHeard | gateway/internal/proxy/livepeer/v2.go:212-212 | Input on which they differ: an event that no blank line ends |
| SseReader.BareCrJoins | gateway/internal/proxy/livepeer/v2.go:169-170 | Text on which the lines differ: a carriage return alone |

## Left out

- Liveness: nothing says that peers answer, that a fair scheduler exists, or that an operation finishes in time. Where an operation cannot finish at all, the theorems above say so.
- What a pass without its lock still holds in memory beyond the row it last saved or read: its late projections and conclusions carry any row that one of the engine's projections could carry then, so the failing conditions count passes by what they may do, not by which line they have reached.
- A journal write whose lock connection dies while the write is in flight either lands before the lock is free or never.
- HTTP transport, redirects, headers, JSON, base64, signatures, encryption and URL parsing: replies are values, and the checks the client makes on them are conditions in the request methods. `decodeClaim`'s parsing is not modelled.
- The recovery path for undecryptable secrets or a changed caller key, and `validateRuntimeURLs`, which is a flag of the descriptor.
- `NextAttemptAt`, `LastError`, backoff, timeouts and logging; times are kept for presence, order and the expiry of keys and key grants only.
- Relay and RTMP server: `CloseSession` on the probe has no effect here.
- Columns of the stream and reservation rows other than status, close reason, end, LOC close and refill count, and state, units, settlement, billed value and runner status.
- `estimateABRUnits`: the estimate is any positive 64-bit number. `checkOffering`, presigning and request validation are outcomes a submission may have.
- `ViewLive`, listings, web pages, catalog, waitlist, API keys and the repository methods the paid engine does not call.
- RateLimiter.RateLimit.Allow: uses exact reals for floating point; at a rate of zero the conversion of an infinite wait is any number of at least one second. The bounds are for rates that are not negative and calls in order of time.
- SseReader.RoundTrip: printed lines are those a scanner can return: no line feed inside, no carriage return at the end, and room in the buffer.
- SseReader.HeardAsStandard: characters stand for bytes, and the Standard's replacement of malformed UTF-8 is not modelled; an empty event name stands for its default type; `retry` fields have no effect on events.
- Scheduler.Engine.Run: the number of scans is given, for the shutdown that ends them; a scan that fails is one without ids.
- LiveOutcomes.FinishesAgree: the billed value is compared only when LOC had closed at the common state, since before that it is LOC's to choose.
- JournalLocks.EveryDrainEnds: a key renewal that finds its lock taken and waits again is not counted, as the source does not bound it; `Drains` needs no such step.
- Submission.Journal.Submit: a request key generated for a missing one is an arbitrary value.
