# KuchDesk: verified models of its stateful cores

This project models the parts of KuchDesk whose correctness depends on state that survives errors, and proves what
they promise over every run. Nothing here executes the original program; every claim is a statement Dafny verifies.

`dafny verify dfyconfig.toml` checks everything.

## What is modelled

**Enrollment controller** (`Enrollment*.dfy`). The controller reconciles projects with a remote service. Before every
external write it journals the write in a ledger, re-reads the policy, issues the write, reads the result back and
records it. `EnrollmentSpec` states this as functions over an *oracle*: the n-th call to the outside is answered as
the oracle says, and the answer may be a value, an error or the death of the process; a failed save may or may not
have reached the disk; every answer to a policy read may differ from the one before. A run is any sequence of
restarts and cycles. `EnrollmentController` is the same thing as objects with fields, methods and loops, each proved
to compute its function; `RunProgram` ties a whole run of the program to `Run`. The Go method `project` appears as its
stages (`Discover`, `Recover`, `Enroll`, `Grant`, `Issue`, `ReadBack`, `Confirm`, `Finalize`) and the loop over the two
memberships. The theorems need no assumption about the remote.

What a cycle answers is proved from the answers it got, in both directions: `EnrollmentAnswers` says which projects it
publishes and reports (`CycleTold`, `ServedIff`), `EnrollmentRevocation` when a vanished grant is revoked and that it
stays so (`RevokedIff`, `VanishedForGood`), `EnrollmentProgress` what gets done when the remote is well
(`HealthyIsPublished`). A revocation whose save failed is kept in memory only: the call reports the failed save, and
the next cycle that gets to its projects has saved the ledger first.

Two limits of the code are theorems as well. `IsIdentifier` admits the id `human_enrollment`, which the ledger also
uses as the marker of a pending human enrollment; for an identity with that id, and for no other, the at-most-once
guarantee fails (`MarkerGrantedTwice`, `GrantedAtMostOnceIff`). Access answers depend on the last publication and the
withdrawals since (`EligibleIff`).

**Bounded keyed runner** (`Runner*.dfy`). Every goroutine is a program counter over the atomic steps of `run`,
`acquireKey`, `releaseKey` and `finish`, including both branches of every select, a panicking task and the deferred
calls. Slots are objects with identity: after the last reference a slot leaves the table and a new one for the same
key may appear while the old token is still on its way back. `Runner` holds the same state in the source's fields,
with the goroutines' positions as one more field, and has one method per critical section and channel operation;
`RunRunner` ties a whole run of it to `Run`. `RunnerVerdicts` says from the calls and steps of a run alone what each
finished record holds. The management jobs of the Kubernetes agent are the same
machine with a key for every job.

**Rotating-token session** (`Session*.dfy`). The write-ahead `pending` flag around a one-shot exchange, the restart
rule that depends on the server version, and saves that fail with or without effect. The expiry of a token is an
unknown partial function.

**Event broker and resuming stream** (`Broker*.dfy`). Bounded history, bounded queues, connections that plan their
first frames under the broker's lock and then follow their queue, and the refresher that stores a snapshot before it
publishes it; `RunServer` ties a whole run of the server to `Run`. The reference is an unbounded log with one cursor per connection; resuming is the `Last-Event-ID`
mechanism of section 9.2 of the WHATWG HTML Living Standard. With a history size of zero a resuming client misses
events (`EmptyHistorySkips`); with any other size resuming is exact (`ExactIffHistory`). The configuration only admits
sizes from 8 to 4096.

**Corefile editor** (`Text.dfy`, `Corefile*.dfy`). The line scanner with brace depth, the parser of the managed block,
the printer and the splice, as functions on text and as the loops that compute them. The Caddyfile grammar is an
unknown predicate. The laws are those of a lens: what is put is read back, what lies outside is kept, a later update
replaces an earlier one, removing undoes adding. The code restricts the first law: the parser compares the target's
domain with the configured cluster domain as it stands and asks for five target parts, so a nonempty list of aliases
can be stored only under a domain without outer dots and with at least two labels. `PutGet` states this condition and
the two size bounds as an equivalence. Which files are accepted is said of their lines alone (`CorefileShape`), and of
the managed block by its words (`CorefileGrammar`).

**Alias manager** (`DnsManager*.dfy`). Validation of a request, and its replacement of the managed block in a
ConfigMap that other writers use too, as a state machine over reads and conditional writes with lost answers.
`DnsManagerAnswers` says exactly when a request is stored or shown and as what.

**Paged reads and waiting** (`Paging.dfy`, `Waiting.dfy`). The two pagination loops against a server that may answer
anything, and the deadline loop under a policy that may change at every second.

## Model

| member | source | states |
|---|---|---|
| EnrollmentTrace.ReconcileConfined | host-agent/internal/enrollment/controller.go:256-395 | Under any policy, reconciling a project issues only mutations of that project whose ledger entry was saved and whose policy was re-read just before; the rest of the ledger stays as it was in memory and on disk; a K8 membership is never written with human authority |
| EnrollmentEvidence.ReadyHasEvidence | host-agent/internal/enrollment/controller.go:256-395 | "ready" is returned only if, within this call, the host was seen as exactly admin, the K8 identity as exactly viewer by a machine-authenticated read, and the read-only check then accepted it |
| EnrollmentSafety.NotIssuedYet | host-agent/internal/enrollment/controller.go:333-353 | The inductive heart: a membership that is neither seen nor pending was never issued before |
| EnrollmentSafety.AnnounceKeeps | host-agent/internal/enrollment/controller.go:351-358 | If the save of the mark and the policy read both succeed, the disk holds the ledger in memory, and nothing was issued in between |
| EnrollmentSafety.GrantKeeps | host-agent/internal/enrollment/controller.go:308-384 | One turn of the membership loop keeps the invariant: what was issued is seen or pending, on disk and in memory, and nothing is issued twice |
| EnrollmentSafety.RecoverKeeps | host-agent/internal/enrollment/controller.go:266-307 | So does the detour over human authority and human enrollment |
| EnrollmentSafety.ReconcileKeeps | host-agent/internal/enrollment/controller.go:256-395 | So does a whole reconciliation, whatever fails in it and wherever the process dies |
| EnrollmentRuns.LocateKeeps | host-agent/internal/enrollment/controller.go:150-196 | So does finding or creating the K8 identity |
| EnrollmentRuns.BootKeeps | host-agent/internal/enrollment/controller.go:58-75 | A restart loads a ledger that still covers every mutation, or refuses it |
| EnrollmentRuns.RunKeeps | host-agent/internal/enrollment/controller.go:115-247 | The invariant holds after every run of restarts, cycles and crashes when no policy read asks for repair |
| EnrollmentRuns.EnrolledAtMostOnce | host-agent/internal/enrollment/controller.go:283-302 | Without repair, a human is enrolled in a project at most once over any run |
| EnrollmentRuns.GrantedAtMostOnce | host-agent/internal/enrollment/controller.go:308-384 | Without repair, each membership is granted at most once over any run, always as a new one |
| EnrollmentRuns.DiskKnowsEveryMutation | host-agent/internal/enrollment/controller.go:351-361 | Whatever was issued is seen or pending in the ledger on disk at every moment |
| EnrollmentTheorems.EveryMutationIsWriteAhead | host-agent/internal/enrollment/controller.go:421-437 | Under any policies, every external mutation directly follows the saved ledger that marks it and a policy read with the same binding, Apply on and the project allowed |
| EnrollmentTheorems.EligibleIff | host-agent/internal/enrollment/policy.go:97-113 | A project is eligible exactly if the last publication holds it and neither a withdrawal nor a restart came since |
| EnrollmentTheorems.AccessIsVerified | host-agent/internal/enrollment/policy.go:115-129 | Cut any run anywhere: a project in the answer to a request is allowed by the policy read for it, was verified by the cycle that published it after that cycle withdrew it, and was not withdrawn since |
| EnrollmentTheorems.RunTraced | host-agent/internal/enrollment/controller.go:115-247 | Every log of every run satisfies both: write-ahead mutations and backed publications |
| EnrollmentLimits.CreatedAtMostOnce | host-agent/internal/enrollment/controller.go:170-201 | Under any policies, repair included, the K8 identity is created at most once over any run |
| EnrollmentLimits.RevocationIsFinal | host-agent/internal/enrollment/controller.go:258-278 | Once a revocation is on disk and no policy asks for repair, no continuation of the run mutates the project or publishes it, and the revocation stays |
| EnrollmentLimits.MarkerGrantedTwice | host-agent/internal/enrollment/controller.go:342-361 | A host identity whose id is the human marker is granted the same membership twice: two cycles, two lost responses |
| EnrollmentLimits.GrantedAtMostOnceIff | host-agent/internal/enrollment/controller.go:342-361 | The at-most-once guarantee holds of an identity over all runs if and only if its id is not the marker |
| EnrollmentAnswers.ReadyIff | host-agent/internal/enrollment/controller.go:385-394 | A reconciliation ends ready exactly if within it the K8 identity was accepted as read-only and the ledger saved right after; these are its last two events, the entry is then complete, and the disk holds the ledger |
| EnrollmentAnswers.SweepAnswers | host-agent/internal/enrollment/controller.go:202-246 | The three accounts of a cycle agree at every point: the set it will publish, the outcomes it reports, the checks and withdrawals in the log |
| EnrollmentAnswers.CycleTold | host-agent/internal/enrollment/controller.go:115-247 | A cycle that does not die publishes a project exactly if its report calls it ready, and exactly if in this cycle its check passed and the ledger was saved right after; the report has one outcome per withdrawal, in order; its status is ready only if every outcome is |
| EnrollmentAnswers.RunExact | host-agent/internal/enrollment/controller.go:115-247 | The same for every publication of every run: a project is in it exactly if it passed since the last publication or start |
| EnrollmentAnswers.ServedIff | host-agent/internal/enrollment/policy.go:97-129 | Cut any run anywhere: a project is in the answer to a request if and only if the policy read for it has the binding and allows it, the cycle that last published passed it, and nothing withdrew it since |
| EnrollmentAnswers.CycleTakesUp | host-agent/internal/enrollment/controller.go:202-219 | A cycle works on a project only right after it read a valid policy of the starting binding that allows it |
| EnrollmentRevocation.RevokedIff | host-agent/internal/enrollment/controller.go:258-341 | Without repair, a project becomes revoked in a reconciliation if and only if something read in it is a reason: the machine is forbidden to read a project the host was seen in, the first list lacks the exact host role although the host was seen or holds another, or a list that counts once the host's role is recorded shows this of the K8 identity |
| EnrollmentRevocation.RevocationIsRecorded | host-agent/internal/enrollment/controller.go:333-341 | A reconciliation that revokes reports revoked_preserved exactly if the save succeeded, and then the revocation is on disk; with repair nothing is revoked |
| EnrollmentRevocation.VanishedHostIsRevoked | host-agent/internal/enrollment/controller.go:266-341 | By the answers: a first read that is forbidden or shows the host without its exact role, although it was seen or has another, ends with the entry revoked |
| EnrollmentRevocation.VanishedReaderIsRevoked | host-agent/internal/enrollment/controller.go:308-341 | The same for the K8 identity once the host role is confirmed and saved |
| EnrollmentRevocation.CycleKeepsRevoked | host-agent/internal/enrollment/controller.go:202-246 | Without repair, what the report of a cycle calls revoked_preserved is revoked in memory and on disk at its end and not published by it |
| EnrollmentRevocation.VanishedForGood | host-agent/internal/enrollment/controller.go:258-278 | From the end of the cycle that reports a project as revoked, no continuation of the run without repair mutates the project or publishes it |
| EnrollmentProgress.HealthyIsReady | host-agent/internal/enrollment/controller.go:308-394 | Exact memberships, successful saves and a passed check end ready |
| EnrollmentProgress.FreshIsReady | host-agent/internal/enrollment/controller.go:308-394 | A project nothing is known of ends ready within one reconciliation if the remote does as it is asked |
| EnrollmentProgress.MissingIsGranted | host-agent/internal/enrollment/controller.go:342-361 | A missing membership, neither seen nor held otherwise (or under repair), is requested with the mark on disk first, if the saves and the policy allow it |
| EnrollmentProgress.MissingIsHeldBack | host-agent/internal/enrollment/controller.go:342-350 | It is not requested while an earlier request is open, nor without Apply, and the verdict says which |
| EnrollmentProgress.ForbiddenIsEnrolled | host-agent/internal/enrollment/controller.go:279-302 | Where machine and human are forbidden to read, the human is enrolled with the marker on disk first |
| EnrollmentProgress.MissingIsCreated | host-agent/internal/enrollment/controller.go:170-190 | A missing K8 identity is created with the intention on disk first |
| EnrollmentProgress.FoundIff | host-agent/internal/enrollment/controller.go:150-193 | An identity is taken exactly if the host is listed and it is the only one that matches |
| EnrollmentProgress.WithoutApply | host-agent/internal/enrollment/controller.go:348-350 | If the policy in hand does not permit to apply, a reconciliation changes nothing at the remote, whatever a later read of the policy says |
| EnrollmentProgress.AllowedAreVisited | host-agent/internal/enrollment/controller.go:202-241 | Under a steady policy the report has an outcome for every allowed project in the order of the list, unless the remote asked to slow down at the last one |
| EnrollmentProgress.HealthyIsPublished | host-agent/internal/enrollment/controller.go:115-247 | With a healthy remote a cycle publishes every project the policy allows and no other, and reports ready, or dry_run without Apply |
| EnrollmentProgress.VisitPause | host-agent/internal/enrollment/controller.go:220-237 | The pause a cycle asks for is at least the one any failed project was answered with |
| EnrollmentController.FindMembership | host-agent/internal/enrollment/controller.go:248-255 | The scan finds the first membership of an identity |
| EnrollmentController.MatchIdentities | host-agent/internal/enrollment/controller.go:150-163 | The scan tells whether the host is listed and which identities match |
| EnrollmentController.World.Save | host-agent/internal/enrollment/store.go:81-120 | An atomic replacement: the disk holds the old or the new ledger, an error may still have reached it, and success has |
| EnrollmentController.Access.Publish | host-agent/internal/enrollment/policy.go:106-106 | Replaces the eligible projects, noted as a publication |
| EnrollmentController.Access.Withdraw | host-agent/internal/enrollment/policy.go:109-113 | Removes one project, noted as a withdrawal |
| EnrollmentController.Access.Projects | host-agent/internal/enrollment/policy.go:115-129 | The answer to one request under the policy read for it |
| EnrollmentController.Controller.AuthorizeWrite | host-agent/internal/enrollment/controller.go:421-437 | The policy check before a mutation: binding, Apply, repair, creation or project |
| EnrollmentController.Controller.Record | host-agent/internal/enrollment/controller.go:107-107 | Puts an entry into the ledger and saves it; memory keeps it even if the save fails |
| EnrollmentController.Controller.Revoke | host-agent/internal/enrollment/controller.go:333-341 | Records the revocation and reports it as preserved once it is saved, as `RevokedIff` and `RevocationIsRecorded` require |
| EnrollmentController.Controller.Reread | host-agent/internal/enrollment/controller.go:323-330 | Reads with machine authority; from then on no human authority is used |
| EnrollmentController.Controller.Confirm | host-agent/internal/enrollment/controller.go:313-332 | An exact membership that was read completes its pending write |
| EnrollmentController.Controller.Issue | host-agent/internal/enrollment/controller.go:351-361 | Journal, re-read the policy, write |
| EnrollmentController.Controller.ReadBack | host-agent/internal/enrollment/controller.go:362-383 | Accepts only the exact role; for the host it reads again with machine authority |
| EnrollmentController.Controller.Grant | host-agent/internal/enrollment/controller.go:308-384 | One turn of the loop with all its exits |
| EnrollmentController.Controller.Enroll | host-agent/internal/enrollment/controller.go:290-302 | Journal, re-read the policy, enroll the human, read with human authority |
| EnrollmentController.Controller.Recover | host-agent/internal/enrollment/controller.go:266-307 | What happens when the machine may not read the project |
| EnrollmentController.Controller.Discover | host-agent/internal/enrollment/controller.go:258-307 | The first reads of a project, revocation included |
| EnrollmentController.Controller.Finalize | host-agent/internal/enrollment/controller.go:385-394 | The read-only check and the final save |
| EnrollmentController.Controller.Project | host-agent/internal/enrollment/controller.go:256-395 | The new ledger, disk, log and verdict are those of `Reconcile`, so `ReadyIff` and `RevokedIff` are about it |
| EnrollmentController.Controller.CreateK8 | host-agent/internal/enrollment/controller.go:179-190 | Journal, re-read the policy, create the identity |
| EnrollmentController.Controller.Locate | host-agent/internal/enrollment/controller.go:164-193 | Finds, creates or refuses the K8 identity |
| EnrollmentController.Controller.Identify | host-agent/internal/enrollment/controller.go:194-201 | Refuses the host as its own K8 identity and remembers the identity on disk |
| EnrollmentController.Controller.Sweep | host-agent/internal/enrollment/controller.go:202-246 | The loop over the projects, under the policy last read, with the verified set that `SweepAnswers` determines |
| EnrollmentController.Controller.Proceed | host-agent/internal/enrollment/controller.go:150-247 | A cycle after its two list reads |
| EnrollmentController.Controller.Survey | host-agent/internal/enrollment/controller.go:133-247 | A cycle up to its publication |
| EnrollmentController.Controller.Cycle | host-agent/internal/enrollment/controller.go:115-247 | A cycle, with its publication at every exit: the state, report and set of which `CycleTold` says what they hold |
| EnrollmentController.NewController | host-agent/internal/enrollment/controller.go:58-75 | A start: policy, ledger from disk, scope check |
| EnrollmentController.RunProgram | host-agent/internal/enrollment/controller.go:396-414 | The whole program, restarted and cycled in any way, leaves the world that `Run` describes, so every theorem above is about it |
| RunnerSafety.MutualExclusion | host-agent/internal/async/runner.go:133-176 | At most one goroutine per key is between acquireKey and releaseKey, whatever slots were deleted and created |
| RunnerSafety.OrphansAreIdle | host-agent/internal/async/runner.go:157-176 | A slot that left the table has neither a holder nor a waiter |
| RunnerSafety.TasksBounded | host-agent/internal/async/runner.go:105-131 | Executing tasks never exceed the size of the semaphore |
| RunnerSteps.MoveKeeps | host-agent/internal/async/runner.go:97-194 | Every atomic step of every goroutine keeps the invariant: places, tokens and references are conserved, records agree with goroutines |
| RunnerRuns.PruneOldest | host-agent/internal/async/runner.go:221-232 | Pruning a full table removes the oldest finished record and nothing else, or nothing if all are live |
| RunnerRuns.CapacityIff | host-agent/internal/async/runner.go:83-88 | Submit reports capacity exactly when the table is full of live records |
| RunnerRuns.RunKeeps | host-agent/internal/async/runner.go:69-131 | Every run of a new runner keeps the invariant under every interleaving |
| RunnerRuns.KeysAreExclusive | host-agent/internal/async/runner.go:112-131 | In every reachable state at most one job per key executes its task |
| RunnerRuns.TasksAreBounded | kuchdesk-agent/internal/management/workloadjobs.go:85-114 | In every reachable state at most the configured number of tasks executes |
| RunnerProgress.MoveFalls | host-agent/internal/async/runner.go:97-176 | Every step of every goroutine lowers the measure of the run |
| RunnerProgress.Unblocked | host-agent/internal/async/runner.go:105-165 | Only the two selects can block; returning a token never does |
| RunnerProgress.Progress | host-agent/internal/async/runner.go:105-155 | No deadlock: while a goroutine has not exited, some goroutine can take a step, although places are held while waiting for keys |
| RunnerProgress.StepsPerJob | host-agent/internal/async/runner.go:69-131 | From any state, open or closed, a run takes at most the steps the goroutines have left and fourteen for every job accepted meanwhile |
| RunnerProgress.EveryJobEnds | host-agent/internal/async/runner.go:97-131 | Every run of a new runner takes at most fourteen steps per accepted job, and where no goroutine can move every one has exited and every record is terminal, without Close or timeouts |
| RunnerProgress.StepsAreBounded | host-agent/internal/async/runner.go:234-240 | Once the runner is stopped no goroutine is added and at most the steps its goroutines have left remain, whatever the interleaving |
| RunnerProgress.RecordsAreFixed | host-agent/internal/async/runner.go:80-82 | After Close no record is added or dropped |
| RunnerProgress.CloseReturns | host-agent/internal/async/runner.go:234-240 | A run from a closed runner that cannot go on has ended every goroutine and left every record terminal |
| RunnerProgress.RecordLife | host-agent/internal/async/runner.go:178-194 | One action and one record: a live record stays, a terminal state never changes and is written by its own goroutine only |
| RunnerProgress.TerminalIsFinal | kuchdesk-agent/internal/management/workloadjobs.go:161-176 | A terminal state is final over any continuation; a record that is gone stays gone |
| RunnerVerdicts.RecordTells | host-agent/internal/async/runner.go:97-131 | Over every run of a new runner, a finished record says succeeded exactly if the task returned without an error and the context was alive when the goroutine looked next; timed out or canceled exactly if the context had ended so by then or the task returned that error; failed exactly if it panicked or returned another error |
| RunnerVerdicts.StepTold | host-agent/internal/async/runner.go:177-194 | Every step of a goroutine keeps its position, its record and the history of its job in agreement |
| RunnerVerdicts.AskedKeysAreExclusive | host-agent/internal/async/runner.go:69-131 | Two accepted jobs asked for with the same key never execute together; the empty key of the host agent alone asks for no such protection |
| Runner.AsyncRunner.Submit | host-agent/internal/async/runner.go:69-95 | The new state and the answer are those of the state machine |
| Runner.AsyncRunner.Enlist | host-agent/internal/async/runner.go:89-94 | Adds a queued record at the end of the order, with its goroutine |
| Runner.AsyncRunner.PruneCompleted | host-agent/internal/async/runner.go:221-232 | Prunes the records in place |
| Runner.Compact | host-agent/internal/async/runner.go:221-232 | The in-place compaction of the order list computes `Prune` |
| Runner.AsyncRunner.TakePlace | host-agent/internal/async/runner.go:106-107 | The send on the semaphore |
| Runner.AsyncRunner.LeavePlace | host-agent/internal/async/runner.go:107-107 | The receive on the semaphore |
| Runner.AsyncRunner.LookUp | host-agent/internal/async/runner.go:133-142 | The critical section of acquireKey: find or create the slot and refer to it |
| Runner.AsyncRunner.RefKey | host-agent/internal/async/runner.go:135-141 | Finds the slot of a key or creates it with its token in the gate, and refers to it |
| Runner.AsyncRunner.UnrefKey | host-agent/internal/async/runner.go:171-175 | Drops a reference; the last one drops the slot from the table |
| Runner.AsyncRunner.TakeToken | host-agent/internal/async/runner.go:143-150 | The receive on a slot's gate |
| Runner.AsyncRunner.PutToken | host-agent/internal/async/runner.go:165-165 | The send on a slot's gate, also of a slot that left the table |
| Runner.AsyncRunner.ReleaseReference | host-agent/internal/async/runner.go:157-176 | The critical section of a release: the last reference drops the slot |
| Runner.AsyncRunner.MarkRunning | host-agent/internal/async/runner.go:123-125 | The record of a live goroutine exists and becomes running |
| Runner.AsyncRunner.Finish | host-agent/internal/async/runner.go:178-194 | Writes the terminal state, the one `RecordTells` determines from the run |
| Runner.AsyncRunner.StepAlone | host-agent/internal/async/runner.go:97-155 | The steps without a critical section or a channel: giving up a select, looking at the context, the work itself, being done |
| Runner.AbleIff | host-agent/internal/async/runner.go:105-155 | A goroutine is kept from its step by the two selects only |
| Runner.AsyncRunner.Enter | host-agent/internal/async/runner.go:105-155 | The steps up to the work, by where the goroutine is |
| Runner.AsyncRunner.Unwind | host-agent/internal/async/runner.go:97-131 | The steps after it: record and deferred releases |
| Runner.AsyncRunner.Advance | host-agent/internal/async/runner.go:97-131 | The next step of a goroutine, whatever it is |
| Runner.AsyncRunner.EndJob | host-agent/internal/async/runner.go:89-89 | The timeout of a job or its cancellation ends its context once |
| Runner.AsyncRunner.Stop | host-agent/internal/async/runner.go:65-66 | The end of the parent context ends every job's context |
| Runner.AsyncRunner.Cancel | host-agent/internal/async/runner.go:206-219 | Ends the context of a live job and answers with the state before |
| Runner.AsyncRunner.Close | host-agent/internal/async/runner.go:234-238 | Stops the runner and ends every context |
| Runner.AsyncRunner.PerformAll | host-agent/internal/async/runner.go:69-240 | From a state with the invariant, any calls and steps leave the state of `Run` |
| Runner.RunRunner | host-agent/internal/async/runner.go:61-240 | A new runner after any submissions, endings and steps is in the state of `Run`, so every theorem above is about it |
| SessionSafety.RunKeeps | host-agent/internal/enrollment/session.go:61-160 | Over every run of uses, expiry reports, restarts and crashes: an unconfirmed exchange is marked on disk, and a confirmed one left the token due next |
| SessionSafety.ExchangesFormAChain | host-agent/internal/enrollment/session.go:115-159 | Each exchange sends exactly the token that the confirmed outcome of the previous one determined |
| SessionSafety.LostOutcomeIsFinal | host-agent/internal/enrollment/session.go:121-158 | With rotating tokens, an exchange whose outcome was lost in any way is the last one, over all restarts: whenever a token is sent, every exchange before was confirmed on disk before that |
| SessionSafety.ResentOnlyWithoutReplacement | host-agent/internal/enrollment/session.go:148-151 | A token is sent twice in a row only if the first exchange was confirmed before the second, and its response held no new one |
| SessionSafety.HandedOutTokensAreFresh | host-agent/internal/enrollment/session.go:99-160 | A token handed out belongs to the organization and stays valid for the margin |
| SessionSafety.TokenIff | host-agent/internal/enrollment/session.go:99-160 | A token is handed out if and only if the session has not expired and either the one in hand is fresh or, the pause over, one exchange marked before and stored after brings a fresh one of the same organization; that one is then on disk |
| SessionSafety.ExpiryIff | host-agent/internal/enrollment/session.go:115-159 | A use that survives expires the session exactly if the marker or the new session cannot be stored, the answer is foreign or stale, or the exchange failed and may not be repeated |
| SessionClass.Session.Token | host-agent/internal/enrollment/session.go:99-160 | The session, its file and the log change as the specification says |
| SessionClass.Session.Settle | host-agent/internal/enrollment/session.go:122-159 | What follows the exchange: error, wrong organization, stale token or commit |
| SessionClass.Session.constructor | host-agent/internal/enrollment/session.go:61-75 | A pending exchange expires a rotating session at the start and is forgotten by the other |
| SessionClass.Session.Expire | host-agent/internal/enrollment/session.go:90-98 | Only the current token expires the session |
| SessionClass.RunSessions | host-agent/internal/enrollment/session.go:61-160 | A whole run of processes on one session file leaves the world that `Run` describes |
| BrokerSafety.ReplayIsExact | kuchdesk-agent/internal/stream/broker.go:67-103 | The replay of a resumable connection is exactly the log after its resume id |
| BrokerSafety.SnapshotIff | kuchdesk-agent/internal/httpapi/server.go:196-214 | A snapshot is sent exactly if the resume id is absent or unknown, or events after it have left the history, for every 64-bit id |
| BrokerSafety.RunKeeps | kuchdesk-agent/internal/stream/broker.go:34-103 | Written, planned and queued frames are consecutive frames of the ideal stream, under every interleaving |
| BrokerSafety.ResumeIsExact | kuchdesk-agent/internal/httpapi/server.go:185-244 | The frames of every connection are a prefix of its ideal stream: no skip, repeat or reorder; an open and drained connection has all of it |
| BrokerSafety.EmptyHistorySkips | kuchdesk-agent/internal/stream/broker.go:77-85 | Without history a resuming client misses an event |
| BrokerSafety.ExactIffHistory | kuchdesk-agent/internal/stream/broker.go:51-85 | Resuming is exact over all runs if and only if the history size is not zero |
| BrokerSafety.SnapshotsAreFresh | kuchdesk-agent/internal/agent/snapshot.go:26-36 | A snapshot frame labelled with an id carries a state at least as new as every snapshot event up to that id |
| BrokerSafety.RoomDecides | kuchdesk-agent/internal/stream/broker.go:56-63 | A published event reaches every subscriber with room, which stays; one that is sixteen events behind is closed with what it has; other channels stay the same |
| BrokerSafety.StaysSubscribed | kuchdesk-agent/internal/stream/broker.go:56-101 | A subscriber with room stays subscribed over every action but its own leaving |
| BrokerClass.EventBroker.Publish | kuchdesk-agent/internal/stream/broker.go:34-65 | History, numbering and every queue change as specified |
| BrokerClass.EventBroker.Deliver | kuchdesk-agent/internal/stream/broker.go:56-63 | The loop over the subscribers: full queues are closed and removed |
| BrokerClass.EventBroker.Subscribe | kuchdesk-agent/internal/stream/broker.go:67-103 | Replay, gap, latest id and the new channel, all from one state |
| BrokerClass.EventBroker.Cancel | kuchdesk-agent/internal/stream/broker.go:91-101 | Unsubscribing twice or after an eviction changes nothing |
| BrokerClass.EventBroker.Take | kuchdesk-agent/internal/httpapi/server.go:226-229 | A receive takes the oldest event of one queue |
| BrokerClass.StreamServer.Store | kuchdesk-agent/internal/agent/snapshot.go:31-31 | The pointer is stored before the event |
| BrokerClass.StreamServer.PublishStored | kuchdesk-agent/internal/agent/snapshot.go:32-34 | The event follows, unless it cannot be encoded |
| BrokerClass.StreamServer.Connect | kuchdesk-agent/internal/httpapi/server.go:185-187 | A connection subscribes and knows what it has to write first |
| BrokerClass.StreamServer.WritePlanned | kuchdesk-agent/internal/httpapi/server.go:196-214 | The snapshot is read when it is written; the replay is written in order |
| BrokerClass.StreamServer.Receive | kuchdesk-agent/internal/httpapi/server.go:222-235 | One turn of the live loop, with the end of a closed and drained channel |
| BrokerClass.StreamServer.Leave | kuchdesk-agent/internal/httpapi/server.go:187-187 | The deferred unsubscription |
| BrokerClass.RunServer | kuchdesk-agent/internal/httpapi/server.go:185-244 | A new server after any actions is in the state of `Run`, so every theorem above is about it |
| BrokerClass.OpenStream | kuchdesk-agent/internal/httpapi/server.go:185-214 | The first frames of a connection are the ideal ones |
| CorefileScan.ScanConcat | kuchdesk-agent/internal/dnsconfig/corefile.go:41-88 | Scanning whole lines and then more text is scanning the two in turn |
| CorefileScan.TextAlike | kuchdesk-agent/internal/dnsconfig/corefile.go:41-88 | Text without markers is read in the same way wherever the file puts it |
| CorefileScan.NoMoreMarkers | kuchdesk-agent/internal/dnsconfig/corefile.go:50-69 | After a block, and in a file without one, no marker is accepted |
| CorefileAliases.AliasReadBack | kuchdesk-agent/internal/dnsconfig/corefile.go:148-160 | The parser reads a rendered alias back exactly if the domain has no outer dots and at least two labels |
| CorefileAliases.BlockReadBack | kuchdesk-agent/internal/dnsconfig/corefile.go:136-165 | The same for a whole block of valid aliases, with either newline |
| CorefileAliases.BlockScanned | kuchdesk-agent/internal/dnsconfig/corefile.go:70-87 | The alias lines of a block change nothing in the scanner but the position |
| CorefileLens.Locate | kuchdesk-agent/internal/dnsconfig/corefile.go:28-106 | Wherever inspection succeeds, the file is cut at the managed block, and the scanner is in the same state on both sides of it |
| CorefileUpdate.BlockFound | kuchdesk-agent/internal/dnsconfig/corefile.go:50-69 | Wherever a new block is accepted, whatever it holds, it is found where it was put |
| CorefileUpdate.UpdateFrames | kuchdesk-agent/internal/dnsconfig/corefile.go:108-134 | A successful update leaves every byte outside the managed block as it was, and the block found afterwards is the rendering it was given, where the old block was or right below the root line |
| CorefileLaws.PutGet | kuchdesk-agent/internal/dnsconfig/corefile.go:108-165 | An update with valid aliases succeeds exactly if the text fits and parses, and there are no aliases or the block fits and the domain is readable; reading then gives those aliases and their rendering |
| CorefileLaws.PutPut | kuchdesk-agent/internal/dnsconfig/corefile.go:108-134 | A later update replaces an earlier one, errors included, if the earlier rendering is nonempty or there was no block |
| CorefileLaws.PutAfterRemoval | kuchdesk-agent/internal/dnsconfig/corefile.go:125-129 | The remaining case: after a removal the same text results exactly if the old block stood right below the root line and the newline convention survived |
| CorefileLaws.AddThenRemove | kuchdesk-agent/internal/dnsconfig/corefile.go:108-134 | Adding a block and removing it restores the file byte for byte, with LF and CRLF |
| CorefileLaws.PutTwice | kuchdesk-agent/internal/dnsconfig/corefile.go:108-134 | Putting the same valid aliases again changes nothing |
| CorefileLaws.NewlineKept | kuchdesk-agent/internal/dnsconfig/corefile.go:113-116 | An update keeps the newline convention of the file |
| CorefileExample.PremisesAreMet | kuchdesk-agent/internal/dnsconfig/corefile.go:108-134 | A small file without a block takes an alias, reads it back, takes it again and gives it up again, so the premises of the laws can be met |
| CorefileExample.SampleUpdated | kuchdesk-agent/internal/dnsconfig/corefile.go:108-134 | The exact text of a small file after it took one alias |
| CorefileShape.InspectIff | kuchdesk-agent/internal/dnsconfig/corefile.go:28-106 | A file is accepted if and only if it parses, its lines are in order (one root block, depth never negative and zero at the end, both plugins at the top of the block, markers once and in order there, no rewrite there outside them) and the block reads; otherwise the first line out of order decides the error |
| CorefileShape.StepTracks | kuchdesk-agent/internal/dnsconfig/corefile.go:41-88 | One line is accepted exactly if it is in order, told from the lines before it and not from the state of the scan |
| CorefileShape.ConcludeIff | kuchdesk-agent/internal/dnsconfig/corefile.go:89-106 | The checks after the last line, and where the root line and the two markers are |
| CorefileGrammar.RewritesAreManaged | kuchdesk-agent/internal/dnsconfig/corefile.go:70-76 | In an accepted file every rewrite at the top of the root block stands between the markers |
| CorefileGrammar.UpdateIff | kuchdesk-agent/internal/dnsconfig/corefile.go:108-134 | An update succeeds if and only if the file is accepted before it and after it |
| CorefileGrammar.AliasIff | kuchdesk-agent/internal/dnsconfig/corefile.go:148-160 | A line declares an alias if and only if its six words are the ones the printer writes for it and the names are valid |
| CorefileGrammar.ManagedIff | kuchdesk-agent/internal/dnsconfig/corefile.go:136-165 | A managed text is read if and only if it is short enough, its lines are blank or declare aliases, and no host name comes twice; it gives the aliases in order |
| CorefileGrammar.BracesCount | kuchdesk-agent/internal/dnsconfig/corefile.go:177-209 | Outside quotations every brace counts once |
| CorefileGrammar.QuotationsDoNotCount | kuchdesk-agent/internal/dnsconfig/corefile.go:190-206 | Between two quotes of a kind nothing counts, comment signs and the other quote included |
| Corefile.CorefileBraceDelta | kuchdesk-agent/internal/dnsconfig/corefile.go:177-209 | The character loop with quotes, escapes and comments |
| Corefile.ParseManagedText | kuchdesk-agent/internal/dnsconfig/corefile.go:136-165 | The parser's loop with its set of seen host names |
| Corefile.RenderAliases | kuchdesk-agent/internal/dnsconfig/manager.go:235-251 | The printer's loop |
| Corefile.IndentLines | kuchdesk-agent/internal/dnsconfig/corefile.go:120-122 | The loop that indents the lines of a rendering |
| Corefile.InspectRoot | kuchdesk-agent/internal/dnsconfig/corefile.go:43-49 | The root line, once |
| Corefile.InspectMarker | kuchdesk-agent/internal/dnsconfig/corefile.go:50-69 | The markers: inside the root block only, in order, once |
| Corefile.InspectDirective | kuchdesk-agent/internal/dnsconfig/corefile.go:70-79 | Foreign rewrites are refused, exactly as `CorefileShape.InspectIff` says of the file; the two plugins are noted |
| Corefile.InspectBraces | kuchdesk-agent/internal/dnsconfig/corefile.go:80-87 | Depth, the end of the root block, the offset |
| Corefile.InspectLine | kuchdesk-agent/internal/dnsconfig/corefile.go:41-88 | One line of the scan: root, markers, directives, braces, in this order |
| Corefile.InspectCorefile | kuchdesk-agent/internal/dnsconfig/corefile.go:28-106 | The line loop and the conclusion, of which `CorefileShape.InspectIff` says what they accept |
| Corefile.UpdateManagedCorefile | kuchdesk-agent/internal/dnsconfig/corefile.go:108-134 | Inspects, builds the block, splices it and inspects again; it succeeds as `CorefileGrammar.UpdateIff` says |
| DnsManagerSafety.ValidateIff | kuchdesk-agent/internal/dnsconfig/manager.go:191-233 | A request is accepted exactly if it is short enough, every alias is acceptable once normalised, host names are distinct and every service is found; the result is the normalised list, valid and overriding no service name |
| DnsManagerSafety.FirstFailure | kuchdesk-agent/internal/dnsconfig/manager.go:199-231 | The first alias that does not pass decides between a bad request and a failed lookup |
| DnsManagerSafety.NormalFixed | kuchdesk-agent/internal/dnsconfig/manager.go:253-255 | A valid alias is its own normal form |
| DnsManagerSafety.Resubmitted | kuchdesk-agent/internal/dnsconfig/manager.go:191-233 | A list that was read is accepted unchanged when sent back |
| DnsManagerSafety.RunKeeps | kuchdesk-agent/internal/dnsconfig/manager.go:94-159 | The invariant of the store under every interleaving of requests, other writers and lost answers, and that versions are only added |
| DnsManagerSafety.NoLostUpdate | kuchdesk-agent/internal/dnsconfig/manager.go:94-159 | A request that succeeds stored exactly one version, right on top of the one it named; it reads back as the normal forms of the aliases of the request, one for one and in order, and agrees with the named version outside the block |
| DnsManagerSafety.VersionsAreUpdates | kuchdesk-agent/internal/dnsconfig/manager.go:118-157 | Every version the manager stored, acknowledged or not, is such an update; no request leaves two, and previews and refusals leave none, except that a lost answer may hide a stored one |
| DnsManagerAnswers.PlanIff | kuchdesk-agent/internal/dnsconfig/manager.go:94-145 | A request is written, or shown as a preview, if and only if the manager is enabled, every alias passes, the directives parse, the cluster answers, the version is the last one and the file takes the aliases; what is written or shown is the update with the normal forms of its aliases |
| DnsManagerAnswers.ReplaceIff | kuchdesk-agent/internal/dnsconfig/manager.go:94-159 | A call stores if and only if that holds, it is no dry run, nobody wrote in between and the request was not lost; whoever wrote in between makes it a conflict; otherwise the versions stay as they were |
| DnsManagerAnswers.PreviewsAreUpdates | kuchdesk-agent/internal/dnsconfig/manager.go:138-145 | Over every run, a preview shows the file its request would have made of the version it names and stores nothing |
| DnsManagerAnswers.NormalHostname | kuchdesk-agent/internal/dnsconfig/manager.go:253-255 | Of a host name the outer blanks and then the outer dots go, capitals become small letters, everything else stays |
| DnsManagerAnswers.NormalLabel | kuchdesk-agent/internal/dnsconfig/manager.go:201-202 | Of a service or namespace the outer blanks go, capitals become small letters, everything else stays |
| DnsManager.ValidateAliases | kuchdesk-agent/internal/dnsconfig/manager.go:191-233 | The validation loop, which normalises in place and keeps a set of seen host names |
| DnsManager.CheckAlias | kuchdesk-agent/internal/dnsconfig/manager.go:199-231 | The checks of one alias in their order |
| DnsManager.Manager.Prepared | kuchdesk-agent/internal/dnsconfig/manager.go:95-106 | Validation, rendering and the check of the directives, before the store is read |
| DnsManager.Manager.Computed | kuchdesk-agent/internal/dnsconfig/manager.go:119-127 | The version check and the new text |
| DnsManager.ConfigMap.Put | kuchdesk-agent/internal/dnsconfig/manager.go:147-157 | The store takes a write only on top of the version it was computed from |
| DnsManager.Manager.Replace | kuchdesk-agent/internal/dnsconfig/manager.go:94-159 | The store and the outcome after a call, with the writes of others in its middle; `DnsManagerAnswers.ReplaceIff` says when it stores and what |
| DnsManager.CallIsRun | kuchdesk-agent/internal/dnsconfig/manager.go:94-159 | A call is a run of the state machine, so what holds of every run holds of it |
| Paging.ReadIsPages | host-agent/internal/enrollment/adapter.go:76-110 | A list that is read is the served pages put together in order: all accepted, no identifier twice, as many as the last total said |
| Paging.ReadsHonestServer | host-agent/internal/enrollment/adapter.go:145-179 | Against a server with a fixed list, reading gives exactly that list, however the pages are cut, if and only if the list fits the bound and the bound is not zero |
| Paging.NeverRunsOut | host-agent/internal/enrollment/adapter.go:79-110 | With a bound above zero the loop never ends by running out of offsets |
| Paging.TakePage | host-agent/internal/enrollment/adapter.go:94-100 | The inner loop: the items of a page, unless one is refused or known |
| Paging.Projects | host-agent/internal/enrollment/adapter.go:76-110 | The project loop, whose last page is cut down to the bound |
| Paging.Memberships | host-agent/internal/enrollment/adapter.go:145-179 | The membership loop, which does not tell its faults apart |
| Waiting.Delay | host-agent/internal/enrollment/policy.go:130-142 | The doubling loop gives min(15 min, max(30 s, interval) times two to the failures), for all failures |
| Waiting.BackoffDoubles | host-agent/internal/enrollment/policy.go:130-142 | The wait is between thirty seconds and a quarter of an hour; without failures it is the interval, and every failure doubles it up to the longest |
| Waiting.WaitForNextCycle | host-agent/internal/enrollment/reload_wait.go:10-40 | Due never before the back-off of the interval loaded last, or of the fallback if none can be loaded, nor before the pause asked for; with punctual timers never after the longest wait; under a steady policy exactly on time; not due exactly if cancelled |

## Left out

- HTTP clients and servers, TLS, bearer checks, browser login, terminal input, Keychain and `.env` reading: plumbing
  over libraries; the calls that matter appear as answers of the oracle.
- File modes, ownership, locks and fsync: only the single writer, the atomic replacement and "an error may have reached
  the disk" are kept.
- `caddyfile.Parse`, used for a whole Corefile and for the rendered directives: two unknown predicates.
- `tokenExpiry`: an unknown partial function from a token and an organization to a time.
- Names of Kubernetes resources: labels and subdomains in the style of section 2.1 of RFC 1123; texts are ASCII, so
  bytes and characters agree.
- The token limit of `bufio.Scanner` in `parseManaged`: the content of a managed block is at most as long as that limit
  and always ends with a newline, so it is not reached.
- Random operation ids are fresh numbers; wrap-around of the broker's `nextID` is not modelled, wrap-around of the
  resume id is.
- Broker ids across restarts of the agent: ids start again, so resuming is about one process.
- `parseLastEventID`, heartbeats, SSE framing and `retry:` lines: they do not touch the order of events.
- `Session.Status`, `Controller.Snapshot`, report fields other than status, results and pause: read-only views.
- Project identifiers are checked by the read of the project list, as in `adapter.go`; the later checks of the same
  identifiers are therefore not repeated.
- Cluster snapshot builders, collector scheduling, service classification, Doctor checks, deploy commands, site
  rendering, chart patching, pod exec and port-forward: mostly straight-line or driven by libraries.
- CorefileLaws.PutGet: the cluster domain must not contain white space, quotes, backslashes, braces or `#`; a DNS name
  has none of them, but the configuration does not refuse them.
- CorefileLaws.PutPut: the earlier rendering must not contain a carriage return unless the later one is empty; a
  rendering of valid aliases has none (`CorefileLaws.RenderReturns`).
- EnrollmentRevocation.VanishedForGood: stated for policies without repair; repair is the request to undo a revocation.
- EnrollmentRuns.GrantedAtMostOnce: stated for policies without repair and for identities whose id is not the marker;
  `EnrollmentLimits.GrantedAtMostOnceIff` shows that the second restriction is needed.
- DnsManagerSafety.NoLostUpdate: resource versions are numbered by position, and the store changes only through writes
  to the ConfigMap's Corefile.
- Waiting.WaitForNextCycle: each round reads the clock once.
