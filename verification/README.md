# The crash-safe money path, verified

`ferry` is a command-line client that moves money. Its hard promise is that a
process may die between any two instructions, be interrupted, lose a write, be
resumed by another process and be answered by anything at all, and still never
send a transfer twice, never say "nothing was sent" about a request that left,
and never execute a plan nobody consented to. This project models the code that
keeps that promise and proves what it keeps, and where it does not.

## How the model is built

| layer | module | what it is |
|---|---|---|
| filesystem | `Fsx` | a disk of names, inodes, unsynced data and unsynced renames; `WriteFileAtomic` step by step |
| one durable file | `DurableStore` | the current version and every version a power cut may bring back |
| lock | `RunLock`, `HeldStore` | flock on a sidecar inode that may be unlinked, as a transition system; what it refines |
| record | `Records`, `Ledger` | steps and states; the handle's methods in place, each proved equal to a function |
| table | `Outcomes`, `Api` | one answer or one command body to one class; what is resent, what is followed |
| loops | `Loops` | the resend loop and the poll loop against any server and any clock that moves forward |
| ends | `Consent`, `Exit` | when an execute may be sent; what the process reports |
| protocol | `Protocol`, `ProtocolHandle` | every invocation that ever holds one run, as events over one world; which handle call each event makes |
| invariant | `ProtocolSafety`, `ProtocolSteps` | the inductive invariant, and one lemma per event |
| results | `ProtocolTheorems`, `ProtocolEvolution`, `ProtocolInvocation`, `ProtocolSession`, `ProtocolOpen`, `ProtocolGate`, `ProtocolReopen`, `ProtocolWitnesses`, `ProtocolHome`, `ProtocolHolds`, `IdempotentServer` | what every history satisfies, histories that reach each failure, and the runs directory that may itself be lost |
| sweeps | `Sweeps`, `Maintenance` | the scans of the run directory while it changes; scrub and prune among other processes |
| ids, tokens | `Ulid`, `UlidGenerator`, `PlanToken` | the bit-packed order embedding, the monotone generator, the token sweep |

The layers meet: `Fsx.WriteRefinesSave` shows that the atomic write does what
`DurableStore.Store.Save` says, `Ledger.Handle` writes through it, `RunLock`
refines `HeldStore`, every protocol event is a `HeldStore` step
(`ProtocolHolds.EventIsAHeldStep`), and each event that writes has exactly the effect
of the `Handle` method it calls (`ProtocolHandle.EventIsTheHandleCall`).

In a history (`Protocol.Play`) a save ends in one of three ways (durable; an error
with nothing written; an error after the new bytes are in place), a power cut may
bring back any recoverable version, another invocation may open the run whenever
nobody holds it, an invocation may stop after any event, and answers are arbitrary.

## Where the code falls short of its own words

Each is a theorem here, with the exact condition under which the promise holds.

* A closed gate. `create.go` says that every simulate without a fresh token leaves
  the execute unreachable. The close is best effort: if its write fails and the
  simulate ended transient or pending, a later resume simulates again and may
  execute (`ProtocolReopen.GateIsFinalIff`, `ProtocolReopen.CloseOn202IsFinalIff`;
  reached from the start by `ProtocolWitnesses.GateCanBeLost` and
  `ProtocolWitnesses.CloseOn202CanBeLost`).
* A failed write. `fsx.go` opens by saying that an error means there is no record. When
  only the directory fsync fails there is an error and the new bytes are at the path, so
  a failed `Begin` may have left a pending step (`Fsx.FileSystem.WriteFileAtomic`,
  `Ledger.Handle.Begin`).
* The first run in a new home. A record is durable before its request leaves, but `Create`
  makes the runs directory with MkdirAll and nothing fsyncs its parent, so a power cut
  can take the directory with the record. Write-ahead holds against every power cut
  exactly when the directory's own entry is there for good
  (`ProtocolHome.WriteAheadIff`; lost from the start by `ProtocolHome.FirstRunCanBeLost`).
* A late sleep. The poll loop checks its deadline before a sleep and not after it, so a
  poll is due before the deadline and is sent before it exactly when the sleep is not
  later than what was left (`Loops.DelayedPollInTimeIff`, `Loops.OversleptPollIsLate`).
* A decline. If its write fails, the refusal may be on disk and is reported as failed; a
  power cut can take it back, and asking again writes nothing because the step already
  reads declined. It is final exactly when the write was durable or no version it was
  written over could be resumed into an execute (`ProtocolReopen.DeclineIsFinalIff`,
  `Ledger.RefusalIff`; reached by `ProtocolWitnesses.DeclineAtPromptCanBeLost`, and in
  the window before the prompt by `ProtocolWitnesses.DeclineOfUnpromptedCanBeLost`).
* Exit 1. `main.go` holds that 1 means nothing was sent. A verb that wrote part of its
  document and then failed with an unclassified error exits 1 after a request may
  have left (`Exit.ExitOneAfterSendIff`). The protocol's exit theorem assumes
  all-or-nothing writes to stdout.
* Generator order. An exhausted increment and a short read both change the memory they
  report an error about, so the next id can be lower
  (`UlidGenerator.ExhaustionLosesOrder`, `UlidGenerator.ShortReadCanLoseOrder`,
  `UlidGenerator.NextIsAboveIff`), and past 48 bits the clock wraps.
* A 429 is resent whatever its code, although a refusal's code then classifies as not
  safe to resend (`Api.ResentThrottleIsSafeIff`); and an `UPSTREAM_BUSY` whose command
  is named only in the details is resent although it is also followed
  (`Api.ResentAndFollowedIff`).
* A wait over 9223372036 seconds is a different duration after wrapping: 9223372037 is
  negative and is not waited at all, 18446744074 is under a third of a second and is. The
  bound of one request a second of budget holds of a wait exactly when its wrapped
  duration is at least a second, and with one that is not positive neither loop ends
  (`Loops.OneASecondIff`, `Loops.WrappedWaits`, `Loops.WrappedWaitPollsForever`).
* A panic after the document is written makes the document and the exit code differ,
  unless what was written is what a panic reports (`Exit.DocumentAgreesIff`).
* A caller's own key. `FindByKey` and `Create` are not under one lock, so a second caller
  starts a second run under the same key exactly when its lookup began before the first
  run was there (`Sweeps.SecondCallerIsFreshIff`).
* `Record` has no guard, so "terminal is absorbing" belongs to the protocol and not to
  the method (`Ledger.RecordUnguarded`).
* A prune whose sidecar cannot be removed has removed the record and does not report it
  (`Maintenance.Directory.Prune`).

## Assumptions

* Run ids are not minted twice. The protocol's theorems are about one run; that two runs
  never share a key is proved for minted keys (`ProtocolTheorems.RunsNeverShareAKey`).
* A money verb writes its document to stdout whole or not at all, and one that writes
  nothing returns an error, which never has a class that exits 0.
* Outside `ProtocolHome`, the runs directory is there for good before the first run: the
  theorems of the other protocol modules are about power cuts that leave it.
* SHA-256 is injective, and a record decodes to what was encoded.
* An unlocked process does not write a record; flock and rename behave as POSIX says.
* The server that "runs the first request under a key and replays afterwards" is
  assumed only in `IdempotentServer` and the two theorems that use it.

## Model

| member | source | states |
|---|---|---|
| Fsx.FileSystem.WriteFileAtomic | internal/fsx/fsx.go:111-147 | the ordered effects leave a disk from which the path recovers to the old or the new bytes only; no error means the new bytes in every recovery, an error at or before the rename leaves the path unchanged, and only a failed directory fsync is an error with the new bytes in place |
| Fsx.FileSystem.WriteTemp | internal/fsx/fsx.go:115-137 | the temporary file holds the data synced, or an error; no other name changes in any recovery |
| Fsx.FileSystem.Publish | internal/fsx/fsx.go:138-146 | rename and directory fsync, with the three ways they end |
| Fsx.FileSystem.Rename | internal/fsx/fsx.go:138-140 | a rename is visible now and may or may not survive a power cut until the directory is synced |
| Fsx.FileSystem.SyncDir | internal/fsx/fsx.go:81-91 | after a directory fsync every recovery has the current entries |
| Fsx.CrashAtomicity | internal/fsx/fsx.go:93-147 | after a write with any outcome and a power cut at any point, the path holds exactly the old or exactly the new bytes, never a mixture |
| Fsx.WriteRefinesSave | internal/fsx/fsx.go:111-147 | the three outcomes of the atomic write are the three outcomes of `Store.Save` on current and recoverable versions |
| Fsx.CleanRecovers | internal/fsx/fsx.go:111-147 | a file with no unsynced data recovers to whole versions only |
| RunLock.StepRefines | internal/runs/lock.go:45-111 | every system call of Create, Open, the probes, prune and crashes is a step of one record held by at most one process |
| RunLock.LockSafety | internal/runs/ledger.go:106-136 | in every state of every behaviour at most one process holds a live handle, and what it holds is what is on disk, so no save overwrites a version its writer did not load or write |
| RunLock.OneHolder | internal/runs/lock.go:31-40 | two live handles are the same process |
| RunLock.SidecarFirstIsUnsafe | internal/runs/sweep.go:283-333 | with prune's two unlinks the other way round there is a behaviour with two live holders: the order is needed |
| RunLock.UnlinkKeepsInv | internal/runs/sweep.go:314-319 | unlinking the record and then the sidecar under the lock keeps the lock invariant |
| RunLock.LoadKeepsInv | internal/runs/ledger.go:205-221 | the re-read under the lock, and the clean-up when the record is gone, keep the lock invariant |
| RunLock.StaleSidecarGoes | internal/runs/ledger.go:205-221 | an open that finds no record under its lock lets the lock go and then removes the sidecar |
| HeldStore.StepKeepsExclusive | internal/runs/lock.go:31-40 | the holder interface keeps exclusiveness |
| Records.StepKeyInjective | internal/runs/record.go:367-370 | minted keys are equal exactly for the same run and the same step |
| Records.WithKeepsValid | internal/runs/record.go:331-338 | replacing a step by a valid one of its key keeps the run valid and changes only what is found under its name |
| Records.PrunableIff | internal/runs/record.go:345-365 | a run may be pruned exactly when every step is terminal, declined or unreachable with its token absent, empty or scrubbed; then nothing in it is unresolved |
| Records.MintedKeyIsValid | internal/runs/record.go:367-375 | every key minted from a run id can be sent; a key can be sent exactly when it is 1 to 255 printable ASCII characters |
| Ledger.Handle.Begin | internal/runs/ledger.go:319-359 | refused, or written as pending with the body and one more attempt; a failed save rolls back state and attempts and keeps the body and digest |
| Ledger.Admit | internal/runs/ledger.go:324-347 | the refusals in order, and the body and digest set |
| Ledger.Handle.AwaitConfirmation | internal/runs/ledger.go:368-378 | only an untouched or already awaiting step; memory keeps the change when the save fails |
| Ledger.Handle.SetPlan | internal/runs/ledger.go:386-402 | plan and token stored unless the step is settled |
| Ledger.Handle.Record | internal/runs/ledger.go:413-440 | response stripped of tokens, outcome, answered or terminal, and the plan token scrubbed when terminal |
| Ledger.Handle.Decline | internal/runs/ledger.go:447-462 | refused once begun; nothing written when already refused; otherwise declined and scrubbed |
| Ledger.Handle.Unreachable | internal/runs/ledger.go:465-476 | refused once begun; otherwise unreachable and scrubbed, from declined too |
| Ledger.Handle.Save | internal/runs/ledger.go:281-291 | one atomic write of the run in memory; a closed handle writes nothing |
| Ledger.VerifyDigests | internal/runs/ledger.go:262-278 | a record is accepted exactly when every stored digest is of the stored body |
| Ledger.BeginKeeps | internal/runs/ledger.go:319-359 | begin keeps name, key and any body already set, and leaves the step pending with the bytes given |
| Ledger.BeginRefusedIff | internal/runs/ledger.go:319-349 | begin is refused exactly for a settled step, unholdable bytes, bytes other than those recorded, or nothing to send |
| Ledger.BeginEffect | internal/runs/ledger.go:319-359 | a begun step is the old one but for its state, one more attempt, and the bytes given, or those recorded, with their digest |
| Ledger.KeptAfterFailure | internal/runs/ledger.go:349-359 | a begin whose save failed keeps only the body and digest: state, attempts and every other step are as they were |
| Ledger.RecordKeeps | internal/runs/ledger.go:413-440 | on a step that began, recording keeps key, body and "may have sent", and stores no token |
| Ledger.RecordStores | internal/runs/ledger.go:413-430 | an answer is stored with its status, and its body is the redaction of a cut of what the structural pass left, or of the body itself; no answer leaves the last one, and the outcome is the one given |
| Ledger.RecordEffect | internal/runs/ledger.go:413-440 | nothing else changes: answered for exit codes 5 and 6 and for no outcome, terminal otherwise, and a terminal step keeps no live token |
| Ledger.RecordUnguarded | internal/runs/ledger.go:413-440 | recording makes any step read as sent, and is a valid record exactly when the step holds bytes and an attempt |
| Ledger.RefusalIff | internal/runs/ledger.go:447-476 | declining and closing are refused exactly when a request may have left; a second decline writes nothing |
| Ledger.RefusalEffect | internal/runs/ledger.go:442-491 | a decline and a close change the state and scrub a live token, and change nothing else |
| Ledger.SetPlanEffect | internal/runs/ledger.go:386-402 | the plan and a non-empty token are stored on any step that is not settled, and nothing else changes |
| Ledger.PlannedTokenLives | internal/runs/sweep.go:242-255 | a stored token of an unsettled step is scrubbed exactly once its plan expired more than ten minutes ago |
| Ledger.RefusedIsAbsorbing | internal/runs/ledger.go:319-476 | a refused step cannot begin, be asked about or get a plan |
| Ledger.WithEvolves | internal/runs/ledger.go:319-476 | one operation evolves its step and leaves the others as they were |
| Ledger.ScrubRunKeeps | internal/runs/sweep.go:242-255 | a scrub changes plan tokens only, never a body, digest, key or state, and leaves none it should remove |
| Ledger.ScrubLeavesIff | internal/runs/sweep.go:242-255 | after a scrub a step has a live token exactly when it had one, is not settled, and its plan has not expired for more than ten minutes |
| Ledger.ScrubKeeps | internal/runs/ledger.go:484-491 | after a scrub no live token is left and body, digest and state are unchanged |
| Ledger.NewRunIsValid | internal/runs/ledger.go:138-185 | a run that passes the checks has distinct names and keys and digests that match |
| Ledger.ValidateNewIff | internal/runs/ledger.go:138-185 | a new run is accepted exactly when it has steps, distinct names and keys, sendable keys, untouched states and bodies that can be recorded; only digests are filled in |
| PlanToken.SweepComplete | internal/runs/token.go:14-49 | the output of the textual sweep contains no match of the token shape |
| PlanToken.SweepIdentity | internal/runs/token.go:36-49 | an input without a match is unchanged |
| PlanToken.SweepIdempotent | internal/runs/token.go:36-49 | sweeping twice is sweeping once |
| PlanToken.SweepRemovesOnlyTokens | internal/runs/token.go:36-49 | input and output are one cut: every byte outside a maximal token is kept, in order |
| PlanToken.StripPlanToken | internal/runs/token.go:36-49 | the scan computes the sweep of whatever the structural pass returned |
| PlanToken.StrippedBodyHoldsNoToken | internal/runs/token.go:36-49 | for every body and every result of the structural pass the stored body holds no token |
| PlanToken.ContainsMeansMatch | internal/runs/token.go:14-34 | the predicate is true exactly when a match exists somewhere |
| Ulid.Render | internal/ulid/ulid.go:133-160 | the 26 unrolled expressions are the base-32 digits of the 128-bit number |
| Ulid.Encode | internal/ulid/ulid.go:121-161 | the id is the base-32 text of the low 48 bits of the clock and the entropy |
| Ulid.OrderEmbedding | internal/ulid/ulid.go:121-161 | string order is numeric order and no two numbers share an id |
| Ulid.EncodingIsAnOrderEmbedding | internal/ulid/ulid.go:121-191 | ids order as (ms, entropy), are equal only for equal pairs, are valid, and give the ms back |
| Ulid.Valid | internal/ulid/ulid.go:167-179 | true exactly of the strings the encoder can produce |
| Ulid.Timestamp | internal/ulid/ulid.go:182-191 | nothing for a string that is no id, else the ms it was made from |
| UlidGenerator.Increment | internal/ulid/ulid.go:111-119 | the in-place carry is the successor, or reports overflow exactly when every byte is 255, after the wrap |
| UlidGenerator.IncrementedAddsOne | internal/ulid/ulid.go:111-119 | plus one on the big-endian value, or zero exactly at the maximum |
| UlidGenerator.Generator.New | internal/ulid/ulid.go:79-109 | in its fields and its in-place carry, the method is one `Mint` of the memory, whose laws are `FullDrawIsTheId`, `ShortDrawIsKept` and `StalledIsTheSuccessor` |
| UlidGenerator.FullDrawIsTheId | internal/ulid/ulid.go:84-109 | at a new millisecond a full draw is the id's entropy under the low 48 bits of the clock, and both are remembered |
| UlidGenerator.SameIdIff | internal/ulid/ulid.go:84-109 | two such ids, of one process or two, are equal exactly when the clocks agree modulo 2^48 and the draws are equal |
| UlidGenerator.ShortDrawIsKept | internal/ulid/ulid.go:84-91 | a short draw is an error that leaves the clock, and the bytes delivered in front of the old ones |
| UlidGenerator.StalledIsTheSuccessor | internal/ulid/ulid.go:92-109 | a clock that stalls or goes back mints the next number after the last, or reports exhaustion when there is none |
| UlidGenerator.IssuedIncreases | internal/ulid/ulid.go:79-119 | for any clock within 48 bits and any entropy the ids before the first error increase strictly |
| UlidGenerator.GeneratorMonotone | internal/ulid/ulid.go:79-119 | the same as strings, byte by byte |
| UlidGenerator.NextIsAboveIff | internal/ulid/ulid.go:79-119 | the next id is above a given one, whatever comes, exactly when the memory is not below it |
| UlidGenerator.ExhaustionLosesOrder | internal/ulid/ulid.go:111-119 | the exhausted generator's memory is below its last id |
| UlidGenerator.ShortReadCanLoseOrder | internal/ulid/ulid.go:85-91 | a short read followed by a stalled clock mints a lower id |
| UlidGenerator.ClockPast48BitsWraps | internal/ulid/ulid.go:121-131 | two clocks mint the same id from the same entropy exactly when they differ by a multiple of 2^48 ms |
| Outcomes.PollAgainIff | internal/outcome/command.go:47-181 | pending exactly while moving and uncontradicted; no command is transient |
| Outcomes.CommandClassIs | internal/outcome/command.go:47-129 | a command exits 0 exactly when it is a completed execute with nothing contradicting it whose stored status is not "failed"; that status is an upstream failure, a completed simulate is simulated again, and a contradiction, an unknown state or one waiting for an operator is escalated |
| Outcomes.FailedLikeItsCode | internal/outcome/command.go:131-181 | a command failed for good is classified as its code answered directly, with everything transient, pending or uncatalogued escalated |
| Outcomes.MoneyPendingIff | internal/outcome/classify.go:113-276 | the exact money answers that establish nothing |
| Outcomes.MoneyOtherwise | internal/outcome/classify.go:113-276 | every other money answer: transient when no byte left, a success as its body says, a refusal as the table says |
| Outcomes.OtherwiseClassified | internal/outcome/classify.go:113-276 | the same for reads and the making of a key |
| Outcomes.ExecuteCodes | internal/outcome/table.go:147-377 | the table by class: which codes leave an execute open, which may be sent again as they are, which need a person |
| Outcomes.ExecuteRefusals | internal/outcome/table.go:147-377 | which spend the plan, and that there is no other class |
| Outcomes.SimulateCodes | internal/outcome/table.go:147-377 | a simulate differs from an execute only where an execute has spent the plan |
| Outcomes.ReadCodes | internal/outcome/table.go:147-377 | which codes are worth another read |
| Outcomes.TableShape | internal/outcome/table.go:147-377 | no code is a success; a code safe to resend for one step is for the other; an execute is never told to fix what a simulate must price again |
| Outcomes.ExitCodesAre | internal/outcome/class.go:74-85 | each class has its own exit code but the two successes; a same-key resend is safe exactly below 3, at 5 and at 6 |
| Outcomes.TableMakesNoLocalClaim | internal/outcome/table.go:147-377 | no answer and no command is a local fault or a usage error |
| Outcomes.MoneyExitZeroIff | internal/outcome/classify.go:113-248 | exit 0 exactly on a readable 2xx that is not a 202, and for an execute not failed |
| Api.RetryDelaySeconds | internal/api/meta.go:96-102 | the wait is at least a second |
| Api.CommandDelaySeconds | internal/poll/command.go:216-226 | the poll wait is at least a second |
| Api.FreshTokenIff | internal/noun/transfers/create.go:222-240 | a token is handed to this invocation exactly by a simulate's own parsed 2xx that is no 202 and no replay |
| Api.AnswerExitZeroIff | internal/noun/transfers/money.go:568-608 | a money answer exits 0 exactly when its own success body was read and no transfer in it failed |
| Api.FollowedIff | internal/noun/transfers/money.go:707-740 | which answers are followed, whose command, and after how long |
| Api.ResentIff | internal/api/retry.go:49-86 | which refusals are resent on the money path, and on a read |
| Api.FollowedIsPending | internal/noun/transfers/money.go:713-740 | every followed answer classifies pending, so the poll's record never overwrites a settled step |
| Api.ResentServerErrorIsSafe | internal/api/retry.go:49-86 | a 5xx the loop resends is safe to resend by the table |
| Api.ResentThrottleIsSafeIff | internal/api/retry.go:49-86 | a 429 is always resent, and the table agrees exactly when its code's row does |
| Api.ThrottleIsSafe | internal/api/retry.go:49-86 | RATE_LIMITED, an unknown code and no code are agreeing cases |
| Api.ThrottleWithRefusalIsResent | internal/api/retry.go:49-86 | a 429 with a plan refusal is resent and not safe to resend |
| Api.ResentAndFollowedIff | internal/noun/transfers/money.go:713-740 | exactly which answers are both resent and followed |
| Loops.Do | internal/api/client.go:148-233 | identical requests leave, exactly those the answers, the clock and the budget allow; stopped means the next is not allowed; with waits that do not wrap it stops, after at most one request a second of budget and one more |
| Loops.WithinBudget | internal/api/client.go:185-230 | while every wait is at least a second, what the server asked to be waited is within the budget and at most one request a second of it follows the first; only the last oversleep can carry an attempt past it |
| Loops.NeverResent | internal/api/retry.go:49-86 | nothing is resent after a transport fault, and a control create not at all |
| Loops.BusyLeavesIff | internal/api/client.go:217-230 | a server that always asks for one wait gets exactly the requests whose wrapped waits fit in the budget |
| Loops.Watch | internal/poll/poll.go:104-189 | the polls made are those the delays, the clock and the deadline allow while the command moves; what each stop means; with waits that do not wrap it stops, within one poll a second up to the deadline |
| Loops.UnreadIsTransient | internal/poll/poll.go:158-164 | a poll that could not be read, and was no refusal, is transient |
| Loops.DelayedPollInTimeIff | internal/poll/poll.go:120-141 | a delayed poll whose wait does not wrap is due before the deadline, and is sent before it exactly when its sleep is not later than what was left |
| Loops.OversleptPollIsLate | internal/poll/poll.go:120-141 | a sleep that ends late enough sends the poll at the deadline or as far past it as one likes |
| Loops.PollsWithinBound | internal/poll/poll.go:104-189 | while every wait between polls is at least a second, there are at most the ceiling of the seconds to the deadline, and at least one |
| Loops.WrappedWaitPollsForever | internal/poll/poll.go:120-137 | a wait that wraps to nothing or less polls forever, however near the deadline |
| Loops.SecondsExactIff | internal/api/client.go:217-223 | the conversion to a duration is exact up to 9223372036 seconds and negative just past it |
| Loops.OneASecondIff | internal/api/client.go:217-230 | for every 64-bit wait the bound of one request a second of budget holds exactly when the wrapped duration is at least a second, and the loop is endless when it is not positive |
| Loops.WrappedWaits | internal/api/client.go:217-223 | one wait that wraps negative and one that wraps under a second |
| Consent.GrantedIff | internal/consent/consent.go:118-221 | consent is one of three facts about this invocation; an interrupt before or during the read never grants |
| Consent.NotGrantedIs | internal/consent/consent.go:118-221 | without a grant: unavailable exactly with no terminal, failed exactly when the question or the read failed, else a no |
| Consent.BlankIsNo | internal/consent/consent.go:228-235 | an empty or blank line is not a yes |
| Consent.LowersToYes | internal/consent/consent.go:228-235 | y and yes in any case are all that lower to them |
| Consent.AffirmativeIsWholeLine | internal/consent/consent.go:228-235 | with any surrounding Unicode white space the answer is y or yes in any case, and nothing longer |
| Exit.SentIffMarked | internal/cli/flight/flight.go:63-134 | whatever is noted and in whatever order, the flag reads sent exactly when MarkSent ran: never cleared |
| Exit.CommandIsKept | internal/cli/flight/flight.go:111-121 | the command reported is the last one named; an answer naming none does not lose it |
| Exit.RunIsKept | internal/cli/flight/flight.go:98-134 | the run and the profile reported are the last ones noted |
| Exit.OrdinaryCode | internal/cli/root.go:385-477 | a verb that ended by itself, unsignalled and not contradicted by the flag, reports its own class |
| Exit.AbnormalCode | internal/cli/root.go:425-477 | every other end, by panic, signal or local failure, is 6 once the flag is up unless the verb had already reported, and 1 otherwise |
| Exit.ExitZeroIff | internal/cli/root.go:385-477 | 0 comes out exactly when nothing panicked and the verb returned no error, or one of class 0 that no interrupt overrode |
| Exit.MoneyExitsZeroIff | internal/noun/transfers/report.go:25-48 | a money verb exits 0 exactly when it did not panic and reported an outcome that does |
| Exit.SuccessIsRead | internal/noun/transfers/report.go:25-48 | and such an outcome rests on a success that was read or on a completed execute |
| Exit.ExitOneAfterSendIff | internal/cli/root.go:385-477 | exit 1 after a request may have left, exactly when a verb wrote and then returned an unclassified or local error |
| Exit.ExitOneMeansNothingSent | internal/noun/transfers/report.go:25-48 | with whole writes of a report whose class the table gave, exit 1 means the flag was never set |
| Exit.DocumentAgreesIff | internal/cli/root.go:385-423 | document and process report one code exactly when the command did not panic after writing, or had written what a panic reports |
| ProtocolHandle.EventIsTheHandleCall | internal/noun/transfers/money.go:450-541 | each event that writes makes one handle call, with exactly the effect on memory and disk that the method is proved to have |
| ProtocolHandle.OtherEventsWriteNothing | internal/noun/transfers/money.go:450-541 | every other event but a prune leaves the record alone |
| ProtocolOpen.OpenIsUnresolved | internal/runs/record.go:302-343 | in every version there ever is, a step sent and not settled is unresolved: the orphan check stops at its run, a prune refuses it, and a resume has something to act on |
| ProtocolOpen.ResumesTheFirst | internal/noun/transfers/resume.go:170-199 | a resume acts on the first step that is unresolved or whose plan waits behind an earlier one, and does nothing exactly when there is none |
| ProtocolSteps.CreateKeeps | internal/noun/transfers/money.go:299-360 | a created run satisfies the invariant in memory and on disk, whichever way the save ends |
| ProtocolSteps.DecideKeeps | internal/noun/transfers/resume.go:94-199 | the step a resume picks, and the bytes it picks, respect the gate |
| ProtocolSteps.AskKeeps | internal/noun/transfers/money.go:765-809 | consent is asked before an execute, and awaiting_confirmation is durable before the prompt |
| ProtocolSteps.ReadLineKeeps | internal/noun/transfers/money.go:796-809 | a grant is of this prompt; a decline is written |
| ProtocolSteps.BeginKeeps | internal/noun/transfers/money.go:470-490 | begin, for either step and any save outcome, keeps the invariant, and leaves the bytes durable when it succeeds |
| ProtocolSteps.SendKeeps | internal/noun/transfers/money.go:492-500 | each request that leaves carries the key and bytes of the durable record |
| ProtocolSteps.AnswerKeeps | internal/noun/transfers/money.go:568-608 | any answer at all keeps the invariant; a fresh one adds the token it issued |
| ProtocolSteps.RecordKeeps | internal/noun/transfers/money.go:617-635 | recording the answer keeps the invariant |
| ProtocolSteps.CloseOn202Keeps | internal/noun/transfers/money.go:524-530 | the close at a 202 keeps the invariant |
| ProtocolSteps.FollowUpKeeps | internal/noun/transfers/money.go:644-705 | whatever the poll found, its record goes over a pending answer only |
| ProtocolSteps.ProceedKeeps | internal/noun/transfers/create.go:160-220 | with a fresh token the plan is stored and asked about, else the execute is closed |
| ProtocolSteps.ScrubKeeps | internal/runs/sweep.go:201-255 | a scrub between any two invocations keeps the invariant |
| ProtocolSteps.PruneKeeps | internal/runs/sweep.go:293-333 | a prune loses only a settled run |
| ProtocolSteps.LeaveKeeps | internal/cli/root.go:256-290 | an end at any point keeps the report true |
| ProtocolSteps.PowerCutKeeps | internal/fsx/fsx.go:93-110 | any recoverable version satisfies the invariant |
| ProtocolSteps.PlayKeeps | internal/noun/transfers/money.go:450-541 | the invariant holds after every history |
| ProtocolTheorems.RecordedBeforeSent | internal/noun/transfers/money.go:470-500 | when a request leaves, every version a crash could bring back already names its key and bytes as sent |
| ProtocolTheorems.HeldUntilPruned | internal/runs/ledger.go:305-359 | and so does every version recoverable at any later point, until a prune |
| ProtocolTheorems.PrunedBySettling | internal/runs/sweep.go:293-333 | a record is lost only by a prune of an old run whose every step was terminal, declined or unreachable, with its token absent, empty or scrubbed |
| ProtocolHome.WriteAheadIff | internal/runs/ledger.go:106-136 | when a request leaves, everything any power cut could leave names it as sent exactly when the runs directory's own entry is there for good |
| ProtocolHome.LastingHolds | internal/xdg/paths.go:114-127 | once it is, every later version names the request, until a prune of the settled run |
| ProtocolHome.FirstRunCanBeLost | internal/xdg/paths.go:114-127 | a history from an empty home in which a request leaves and a power cut leaves nothing that names it |
| ProtocolHome.ShutThroughLoss | internal/noun/transfers/resume.go:94-199 | a lost directory reopens no refusal |
| ProtocolTheorems.OneKeyOneBody | internal/runs/ledger.go:319-359 | across retries and resumes the requests of one step carry one key and one body, and different steps different keys |
| ProtocolEvolution.DurableIsNeverUndone | internal/runs/ledger.go:305-476 | from any durable version on, every version recoverable after any history has the same steps and keys, no body changed once set, and no step that may have been sent reading otherwise |
| ProtocolEvolution.KeysNeverChange | internal/runs/ledger.go:106-185 | in every version there ever is, a step has the key it was created with |
| ProtocolEvolution.BodyIsFixed | internal/noun/transfers/resume.go:119-148 | the bytes a later request carries are those of the first begin that lasted, sent or not |
| ProtocolTheorems.RunsNeverShareAKey | internal/runs/record.go:367-370 | requests of runs with different ids and minted keys never carry one key |
| ProtocolTheorems.AtMostOneEffect | internal/noun/transfers/resume.go:119-148 | behind a server that runs a key once, each step takes effect at most once, however requests are delayed, reordered or repeated |
| ProtocolTheorems.EffectIsTheRequest | internal/noun/transfers/resume.go:119-148 | every delivered request has the bytes that took effect |
| ProtocolTheorems.ExecuteIsConsented | internal/noun/transfers/money.go:450-460 | every execute was consented to by the invocation that sent it; a resume that did not simulate is never its own consent |
| ProtocolSession.ExecuteIsTyped | internal/noun/transfers/money.go:765-809 | an execute leaves an invocation only with --yes, after a yes typed among its own events, or with no terminal; a resume on no terminal must first have simulated |
| ProtocolInvocation.TerminalNeverResends | internal/runs/ledger.go:361-378 | an invocation on a terminal without --yes that is about to send an execute is the first of its run ever to do so |
| ProtocolTheorems.ExecuteCarriesFreshToken | internal/noun/transfers/create.go:152-240 | an execute of a two-step run carries the token of a fresh, parsed simulate answer this run received before |
| ProtocolTheorems.ExitOneSentNothing | internal/cli/root.go:425-477 | an invocation that exits 1 sent nothing, wherever it stopped and whatever it reported |
| ProtocolSession.ExitOneLeavesTheWire | internal/cli/root.go:425-477 | between taking the run and an exit of 1 the invocation put nothing on the wire |
| ProtocolInvocation.ExitCodesAreTrue | internal/cli/root.go:385-477 | over every history: with the flag up an abnormal end exits 6 unless it had reported; a money verb exits 0 exactly when it reported an outcome that does, and what that rests on was read |
| ProtocolSession.SuccessIsTheExecute | internal/noun/transfers/create.go:161-203 | of a run with an execute, success is reported only for the execute, never for a simulate that gave no token |
| ProtocolSession.FollowUpSays | internal/noun/transfers/money.go:644-705 | the outcome is the answer's when it is not followed, the command's when the loop stopped on it, and otherwise pending, whatever the last command read |
| ProtocolSession.PollSaysWhatWatchEnded | internal/noun/transfers/money.go:672-686 | and that is the class the poll loop ended with, except that an unreadable poll establishes nothing |
| ProtocolSession.ProceedSays | internal/noun/transfers/create.go:161-203 | only a simulate that succeeded and handed over a token goes on, and with that token; one that succeeded without exits 4; any other outcome is reported as it is |
| ProtocolSession.OutcomeIsOnDisk | internal/noun/transfers/money.go:617-705 | when a verb has its outcome, every version a power cut could leave has the step with that outcome, answered or terminal as it says |
| ProtocolInvocation.AnswerIsStored | internal/noun/transfers/money.go:617-635 | after recording, every version a power cut could leave holds the status of the answer and its body but for tokens |
| ProtocolInvocation.RecordedIsTheAnswer | internal/noun/transfers/money.go:617-635 | and that is the answer just received, as the structural pass left it |
| ProtocolInvocation.FlagOnlyRises | internal/cli/flight/flight.go:84-96 | while an invocation works its flag rises at MarkSent and never falls |
| ProtocolInvocation.FlagBeforeSend | internal/noun/transfers/money.go:483-497 | over every history the flag is up before each request leaves |
| ProtocolTheorems.EveryVersionIsClean | internal/runs/ledger.go:404-491 | in every recoverable version a settled step holds no live token, a stored answer none at all, and digests match |
| ProtocolGate.NeverBegunNeverSent | internal/runs/record.go:110-128 | a recoverable version whose execute never began, a refused one above all, proves no request for it ever left |
| ProtocolGate.ShutForever | internal/noun/transfers/resume.go:94-199 | once no recoverable version and no invocation can lead to the execute, no history sends it |
| ProtocolReopen.MaySendIff | internal/noun/transfers/resume.go:94-199 | with nobody at work and no execute sent, one can ever be sent exactly when some recoverable version has an unrefused execute and something to resume |
| ProtocolReopen.DeclineIsFinalIff | internal/runs/ledger.go:442-462 | an accepted decline, from either state, is final exactly when its write was durable or no version it was written over could be resumed into an execute |
| ProtocolReopen.GateIsFinalIff | internal/noun/transfers/create.go:152-220 | a simulate that ends without a token closes the execute for good exactly when the close was saved, the execute was refused already, or the simulate is not resumable |
| ProtocolReopen.RefusedGateIsFinal | internal/noun/transfers/create.go:160-220 | over an execute already refused, a simulate that ends in any way, a fresh token included, reopens nothing |
| ProtocolReopen.CloseOn202IsFinalIff | internal/noun/transfers/money.go:517-530 | the close at a 202 is final exactly when it was saved or the execute was refused already |
| ProtocolWitnesses.GateCanBeLost | internal/noun/transfers/create.go:160-220 | a history from the start in which a busy simulate closes the gate, the write fails, and an execute can follow |
| ProtocolWitnesses.CloseOn202CanBeLost | internal/noun/transfers/money.go:524-530 | the same for a 202 |
| ProtocolWitnesses.DeclineAtPromptCanBeLost | internal/noun/transfers/money.go:796-803 | the same for a decline at the prompt |
| ProtocolWitnesses.DeclineOfUnpromptedCanBeLost | internal/runs/sweep.go:266-281 | the same for `runs decline` of a step that was given its plan and never prompted |
| ProtocolReopen.BroadcastRuns | internal/noun/transfers/create.go:126-203 | a broadcast run reaches an execute on the wire |
| ProtocolHolds.EventIsAHeldStep | internal/runs/lock.go:31-111 | every protocol event is a step of a record held by at most one process |
| IdempotentServer.RanOnce | internal/noun/transfers/resume.go:119-127 | the assumed server runs no key twice |
| IdempotentServer.KeyRan | internal/noun/transfers/resume.go:119-127 | the assumed server has run the key of everything that arrived |
| Sweeps.List | internal/runs/sweep.go:55-78 | what reading the listed records one after another gives; every run present throughout is listed, and an unreadable record fails the call |
| Sweeps.FindByKey | internal/runs/sweep.go:90-112 | an exact match that was really there; none only when no run held the key throughout |
| Sweeps.Route | internal/noun/transfers/money.go:216-245 | the same bytes under a held key resume that run, other bytes are refused, and a new run starts exactly when the lookup found no owner, so no run held the key throughout |
| Sweeps.SecondCallerIsFreshIff | internal/noun/transfers/money.go:216-351 | a second caller of a key starts a run of its own exactly when its lookup began before the first run was there |
| Sweeps.Orphans | internal/runs/sweep.go:142-191 | a run unresolved, unheld and in scope throughout is reported, and a record unreadable throughout fails the call; each report was read unresolved and found unlocked; no lock outlives the call, and never two are held |
| Sweeps.OrphanCheck | internal/noun/transfers/money.go:254-291 | without --allow-pending a new run starts only past a directory with nothing abandoned and nothing unreadable, and it is refused only on evidence: a run read unresolved and found unlocked, an unreadable record, or a lock that could not be opened |
| Sweeps.Acquire | internal/runs/lock.go:45-67 | a fault ends it; held by another only past the deadline and if busy at every attempt; a probe tries once |
| Sweeps.OwnLocks.Probe | internal/runs/lock.go:94-111 | the lock is tried once and let go before returning |
| Maintenance.ScrubInPlace | internal/runs/sweep.go:242-255 | the in-place scrub is `ScrubRun`, and reports a change exactly when there is one |
| Maintenance.Directory.Scrub | internal/runs/sweep.go:201-239 | whatever others do between turns, each run free at its turn is scrubbed as far as its save allows and reported exactly when changed durably; any other is untouched |
| Maintenance.Directory.Prune | internal/runs/sweep.go:293-333 | whatever others do between turns, exactly the runs removable at their turn go, record before sidecar, and the reported are those that left neither file |
| Maintenance.RemovedWasSettled | internal/runs/sweep.go:293-333 | what a prune removes was unheld, old, and settled in every step: nothing in it was still to come |
| Maintenance.PruneIsComplete | internal/runs/sweep.go:283-333 | left alone, a prune without an error removes exactly the removable runs it was given |

## Left out

- JSON and UTF-8 decoding, and SHA-256: a record decodes to what was encoded; a body that is not UTF-8 is a constructor.
- HTTP, headers, TLS, URLs and tracing: an attempt is an answer or a transport phase.
- Cobra, flags, prompts' text, rendering, `report` and the `next` sentences: presentation.
- `checkCredential`, `assertEnvironment`, profile and credential lookup: they refuse before anything is sent.
- Real signals and goroutines: an interrupt is an end of the invocation between any two events, or an answer at the prompt.
- Context cancellation inside `Do`: it ends the loop early and sends nothing more.
- Two runs at once in the protocol: its histories are of one run; the race on a caller's key is `Sweeps.SecondCallerIsFreshIff`.
- The redaction of `internal/noun/runs/view.go`: it promises no absence of matches.
- `Time.Sub` saturation in the retry budget: differences of readings are taken exactly.
- Maintenance.Directory.Prune: a run's turn is one step, because its lock keeps others off it (`RunLock`); what others do to other files during that turn is not interleaved with it.
- Maintenance.Directory.Scrub: the same.
- Loops.WithinBudget: assumes waits of at least a second after wrapping, because otherwise it is false (`Loops.OneASecondIff`).
- Loops.PollsWithinBound: the same (`Loops.WrappedWaitPollsForever`).
- ProtocolTheorems.ExitOneSentNothing: assumes whole writes to stdout, because without them it is false (`Exit.ExitOneAfterSendIff`).
- UlidGenerator.GeneratorMonotone: assumes a clock within 48 bits, because past them it is false (`UlidGenerator.ClockPast48BitsWraps`).
- Consent.AffirmativeIsWholeLine: lower-casing is of ASCII letters, because no other code point lowers to y, e or s.
