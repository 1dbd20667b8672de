# NodeLite, modelled and proved in Dafny

This project models the parts of NodeLite that must not go wrong when a machine loses power, a
network lies or a limit is reached, and proves what they promise.

* **The signed updater** (`Options`, `AgentUpdate`, `Policy`, `Trust`, `Journal`, `Disk`, `Host`,
  `Activate`, `Download`, `Runtime`): its journal, trust cache, request record and activation state
  machine. A command is a *plan*: the durable writes one process attempts, in order, decided from
  the disk it finds and the answers of its host, each with the journal in memory at that moment and
  with what an error there does (latch operator recovery, be ignored, leave the command, or let a
  repository load go on and fail at its end). An `io` script says of each attempted write whether it
  is done, lost, or takes effect although an error is reported; where the script ends, the power is gone.
* **Its decisions** (`Decisions`, `Origins`): what each plan does, told from the disk and the host's raw
  answers alone, in both directions; and where candidates come from.
* **Its proof** (`World`, `Safety`, `Saves`, `Phases`, `Requests`, `Fetches`, `Collects`, `Openings`,
  `Commands`, `Runs`): an invariant that holds after every single durable write of every command in
  every run from enrollment, with unit completions, consumed markers, reboots, lost writes and lost
  power in any order; and a rule every write obeys where it happens. `Guarantees` reads the
  promises off it, `Liveness` shows that open transactions settle, `Latching` which commands make a
  disk unloadable, and `Witness` that commits, rollbacks and unloadable disks are reachable.
* **Its code** (`Machine`, `Updater`, `Service`): the same updater as a class whose methods change
  the journal in memory and attempt one durable write after another. Each method is proved to do what
  its plan says, and `Service.Serve` puts a whole command into a run, so that what it leaves on disk
  satisfies the invariant.
* **The first migration** (`Migration`), **the publisher** (`Publisher`), **the server's log store**
  (`AgentLogs`), **wire limits and text truncation** (`Limits`, `Text`), **login sessions and one-time
  codes** (`Sessions`, and `SessionLives` for how long they live, told from calls and replies alone) and **the server's view of update requests** (`ServerUpdates`): each with its
  specification, its theorems and an imperative class that meets the specification.

## How to read the updater's theorems

`Runs.Reachable(p, w)` is every world any run can lead to; a command cut off by lost power is a run
of its own, so the reachable worlds include every moment between two durable writes.
`Worlds.Permitted` is the rule for one write, `Worlds.Inv` the invariant.
`Worlds.History` records what the invariant needs to remember: commits, accepted requests, the
completed ticks of the current trial and what they saw, and where in the log of unit completions the transaction took
its samples.

The TUF client is trusted for this much and no more. It starts from the cached root, or the bootstrap
root. Between two requests it keeps the root in its working directory or stores the one it trusts, and
it trusts only a higher version that answered a request for the next root: `before` answers that request
from the record where it can (`Download.Answer`), and the network otherwise, with any document.

The host is trusted for this much and no more: it reports the boot it is in and the last completion of
a unit, and boot ids never repeat. Unit exit times need not increase and clocks may jump, except that
`Liveness` assumes an advancing boot clock. The local policy and the bootstrap root are fixed for a run,
except that `Liveness` lets the operator pause or resume updates; the policy's minimum sequence is at most
the baseline's, as `validate_paused` demands. A remote request
is accepted before second 2^53 - 300, and an operator's reset of the time floor happens after 1970.

## Findings

* `Validate` holds of every journal the updater writes, with two exceptions, both proved exactly.
  Latching a `Committed` journal leaves `from != installed`, which the next load rejects
  (`Journals.LatchedLoadsIff`). It happens exactly to a reconcile past the gate, or an apply that reaches
  the pointer, that finds `active` unverifiable after a commit (`LatchedCommits.UnloadableIff`), and it is
  reachable (`Witnesses.Killing`). Since `load` has just verified the installed object, it takes a damaged
  `active` link or an object changed in between. A time floor reset or an enrollment at epoch 0 leaves a zero floor,
  which a load rejects too (`Journals.FloorResetLoadsIff`, `Journals.EnrolledLoadsIff`).
* The updater's README says that a failed target is remembered and not retried. A target abandoned
  because the machine rebooted in `Prepared` or `Stopping`, and no other, is not added to `failed`
  (`Guarantees.OnlyRebootsAreForgiven`); the same release is then prepared again (`Witnesses.Forgiving`).
* While updates are paused, a reconcile whose `active` does not verify leaves at the gate without a latch. An
  operator who pauses during a transaction can so keep it open for ever, with no recovery flag raised
  (`Witnesses.Stalling`); `Liveness.OpenTransactionsSettle` says exactly when that happens. Since `load` has
  just verified the objects of the transaction, it takes a damaged link or an object changed in between, at
  every tick.
* `capture_root` skips a root whose version is recorded without comparing documents. This is safe because
  recorded roots are replayed: the cached root is always one of the recorded documents
  (`Guarantees.RootHistory`), and no mirror can hide one (`Guarantees.MirrorsHideNoRoot`).
* When saving the prepared journal fails, the latch that follows may write a journal that opens and
  latches the transaction at once; the proofs cover it (`Worlds.Starts`).
* In `dispatch` only the errors of `reconcile` and `prepare` reach `latch_failure`; errors of `collect`,
  `fetch` and of the busy check leave through `?` or `return` and latch nothing.
* `publish_locked` compares documents, `put_immutable` bytes. A publication that encodes a shared root or
  role document differently passes every comparison, collides, and leaves a generation behind that counts
  against the retention quota (`Publishers.NoCollisionIff`, `Publishers.ReformattedRootCollides`).
* Forgetting used TOTP steps after 150 seconds is invisible, and no code can be replayed, exactly while no
  more than 60 seconds pass between computing the matching steps and exchanging them
  (`Sessions.ForgettingInvisibleIff`, `Sessions.NoCodeReplayedIff`). The code bounds that delay nowhere.
* The server drops a node's entry after an hour offline or when the node is forgotten, and with it the number
  of its last session: an older session can then take over again (`ServerUpdates.OvertakenSessionReturns`,
  `ServerUpdates.ForgottenSessionReturns`). A session falls in no other way
  (`ServerUpdates.FallsOnlyWhenDropped`, `ServerUpdates.OlderTakesOverIff`).
* A first migration can end where no further call of `apply`, `resume` or `recover` completes it
  (`Migrations.CommitReachableIff` is the exact condition). Its directory exists without a journal
  (`Migrations.AbandonedFirst`); a directory, program or unit of an earlier attempt is unfinished
  (`Migrations.FileCutOff`); trust processing began without leaving the updater's journal
  (`Migrations.TrustCutOff`), as tools/nodelite_migrate/README.md intends; the updater's boot unit failed
  during a trial and called for an operator (`Migrations.OperatorCalled`), or the updater enrolled at epoch
  zero; or attempts whose load failed filled the updater's metadata store, which `verify_enrollment` never
  collects (`Migrations.StoreFillsUp`).

## Model

| member | source | states |
|---|---|---|
| Runs.ReachableInv | nodelite-updater/src/activate_tests.rs:254-271 | the invariant holds in every world any run reaches: commands, host events, reboots and power cuts between any two durable writes |
| Runs.ReachableWrites | nodelite-updater/src/runtime.rs:99-179 | every durable write of any command started anywhere in a run obeys the rule for writes, and the invariant holds after each |
| Commands.PerformedSafe | nodelite-updater/src/runtime.rs:99-179 | one command on any disk satisfying the invariant, under any host answers and any faults: all its writes are permitted and keep the invariant |
| Guarantees.PointerConsistent | nodelite-updater/src/activate.rs:78-298 | where `active` points in every phase, what is installed after commit and rollback, and that `pending` exists while a transaction is open |
| Guarantees.CommitsAreEarned | nodelite-updater/src/activate.rs:232-269 | a commit is written only after an unbroken streak of completed ticks of one new invocation in one boot, long enough by both clocks, in each of which the host showed fresh evidence of the running process and object |
| Guarantees.ActivationWaitsForBarrier | nodelite-updater/src/activate.rs:121-192 | `active` moves to the new code only after preflight and stop completions of this boot since their samples, in a tick that was told the marker is consumed, the unit is down and its control group empty or gone; otherwise only back to `from` |
| Guarantees.AskedInPlace | nodelite-updater/src/activate.rs:78-230 | the bridge is asked to stop only after the preflight passed, to restart only what `active` then names; a candidate is pointed at, and a payload stored, only once its release and floors are adopted |
| Guarantees.LoadsUnlessDead | nodelite-updater/src/state.rs:179-202 | a reachable disk loads exactly when its journal is not a latched commit |
| Guarantees.OnlyLatchingACommitKills | nodelite-updater/src/runtime.rs:182-188 | the only write that makes a loadable disk unloadable is the latch of a committed transaction |
| LatchedCommits.UnloadableIff | nodelite-updater/src/runtime.rs:140-188 | which commands make a loadable disk unloadable, in terms of that disk, the offered release and the host's answers: however disturbed, no other; undisturbed, all of these |
| Witnesses.Committing | nodelite-updater/src/activate.rs:121-269 | under every enabled policy each newer release can be fetched, tried and committed |
| Witnesses.RollingBack | nodelite-updater/src/activate.rs:194-230 | and each can be rolled back from its trial, after which it is remembered as failed |
| Witnesses.Killing | nodelite-updater/src/runtime.rs:182-188 | and each committed release can be latched into a disk that no longer loads |
| Guarantees.TrustFrozenWhileOpen | nodelite-updater/src/runtime.rs:140-155 | no write changes trust while a transaction is open; `installed` moves only at commit; phases move forward; at most the target is added to `failed`; reports last |
| Guarantees.RollbackAuthorised | nodelite-updater/src/activate.rs:194-208 | while a transaction is open its rollback target is installed, stored and at or above every floor, so the revoked-baseline error is never reached |
| Guarantees.TargetsNeverFailed | nodelite-updater/src/activate.rs:85-96 | no transaction that can still move forward targets a digest that failed |
| Guarantees.RolledBackNeverReturns | nodelite-updater/src/activate.rs:198-206 | over any continuation of a run, the target of a journaled rollback is never targeted again nor left active |
| Guarantees.NothingIsForgotten | nodelite-updater/src/state.rs:295-300 | seen sequence, floor, installed sequence, failed list and recorded roots only grow over any run, and equal seen sequences mean equal digests |
| Guarantees.OnlyRebootsAreForgiven | nodelite-updater/src/activate.rs:124-146 | exactly which rolled-back targets are remembered as failed |
| Witnesses.Forgiving | nodelite-updater/src/activate.rs:124-130 | under every enabled policy a newer release abandoned by a reboot is not remembered, and is prepared again |
| Witnesses.Retrying | nodelite-updater/src/activate.rs:85-96 | any settled, enabled host that has fetched before prepares the latest seen release again as soon as the guard of `prepare` allows it |
| Guarantees.AcceptedOnce | nodelite-updater/src/remote.rs:201-234 | accepted requests are at least the cooldown apart and no request is accepted twice, at arbitrary times |
| Guarantees.ReportedCommitsHappened | nodelite-updater/src/remote.rs:81-119 | a stored `Committed` report names an artifact the journal committed after accepting that very request and before any other |
| Guarantees.RootHistory | nodelite-updater/src/trust.rs:47-95 | recorded roots form one gap-free interval of at most 128 from the bootstrap version or its successor, each signed by enough of its own keys and of those before it; the cached root is one of the recorded documents |
| Guarantees.MirrorsHideNoRoot | nodelite-updater/src/trust.rs:97-117 | whatever the network offers, a client asking for one next root after another is led to the newest recorded one |
| Guarantees.IdlesOnlyOnKnownGood | nodelite-updater/src/gate.rs:24-37 | unattended recovery idles only when `active` is installed or an authorised rollback target, and never on an unconfirmed candidate |
| Liveness.OpenTransactionsSettle | nodelite-updater/src/activate.rs:121-298 | in any run with finitely many reboots, power cuts and failed writes, updates paused and resumed by the operator at any time: an open transaction ends or an operator is called, exactly unless from some point on no tick is admitted |
| Witnesses.Stalling | nodelite-updater/src/runtime.rs:190-209 | paused during a trial, with an `active` that does not verify, the transaction stays open for ever and no recovery flag is raised |
| Liveness.TickNearer | nodelite-updater/src/activate.rs:121-298 | every completed tick ends a phase, makes the outstanding restore request, uses up time before a deadline, or leaves the disk at rest; one that is stopped at the gate changes nothing |
| Liveness.OthersWriteNothing | nodelite-updater/src/runtime.rs:140-143 | while a transaction is open every command but reconcile writes nothing |
| Phases.PreparedSafe | nodelite-updater/src/activate.rs:121-152 | a prepared tick keeps the invariant through all its writes, faults and latches |
| Phases.StoppingSafe | nodelite-updater/src/activate.rs:154-192 | the same for a stopping tick, including the flip |
| Phases.TrialSafe | nodelite-updater/src/activate.rs:232-270 | the same for a trial tick |
| Phases.RollbackSafe | nodelite-updater/src/activate.rs:194-230 | the same for a rollback, from a trial or resumed |
| Openings.PrepareSafe | nodelite-updater/src/activate.rs:78-119 | the same for preparing a fetched candidate, including a prepared journal that cannot be saved |
| Fetches.FetchCarries | nodelite-updater/src/download.rs:191-239 | every write of a fetch is safe wherever the power goes or an error is reported; a finished fetch leaves its candidate stored and its trust saved |
| Fetches.LoadCarries | nodelite-updater/src/transport.rs:52-130 | a repository load keeps memory ahead of the disk through all its requests, also those that go on after a failed one, and ends with a recorded working root |
| Fetches.AnswerGenuine | nodelite-updater/src/trust.rs:107-116 | whatever answers a root request cannot contradict the record |
| Fetches.CaptureCarries | nodelite-updater/src/trust.rs:47-70 | capturing a root keeps the chain and everything loaded, and the working root is then the recorded document of its version |
| Fetches.PublishCarries | nodelite-updater/src/download.rs:68-108 | publishing the cache never leaves the journal naming a generation that is not whole |
| Collects.CollectExact | nodelite-updater/src/maintenance.rs:31-95 | collection leaves exactly what is installed, seen last or part of the last transaction, and the current generation, in any listing order, and does not affect whether the disk loads |
| Collects.FetchedPlanSafe | nodelite-updater/src/runtime.rs:144-145 | collecting and then fetching keeps the invariant at every cut |
| Requests.AcceptSaved | nodelite-updater/src/remote.rs:248-250 | making an acceptance durable keeps the invariant |
| Requests.ReportedSaved | nodelite-updater/src/remote.rs:252-261 | the final report keeps the invariant whatever the apply left behind |
| Trust.ChainExtends | nodelite-updater/src/trust.rs:72-95 | a continuing root extends the authorised chain at its top, or by the bootstrap document below it |
| Trust.Latest | nodelite-updater/src/trust.rs:74 | the newest recorded version below a given one |
| Hosts.Health | nodelite-updater/src/system.rs:143-170 | evidence counts exactly when `active` is the expected object and it is fresh by both clocks and names that object, the current process and the current invocation |
| Hosts.StoppedIff | nodelite-updater/src/system.rs:122-141 | which answers of the host mean that nothing of the agent is left, that something is, or that it cannot be told |
| Decisions.ReconcileOutcomes | nodelite-updater/src/activate.rs:272-298 | what a reconcile looks at before its phase, and when it calls for an operator there |
| Decisions.PrepareOutcomes | nodelite-updater/src/activate.rs:78-119 | exactly when a release is prepared, in which order, and that what may not be tried leaves no trace |
| Decisions.PreparedOutcomes | nodelite-updater/src/activate.rs:121-152 | exactly when, by the host's answers, a preparation moves on, is given up, waits or needs an operator, and what is written |
| Decisions.StoppingOutcomes | nodelite-updater/src/activate.rs:154-192 | the same for a stop: the flip exactly when nothing of the agent is left |
| Decisions.TrialOutcomes | nodelite-updater/src/activate.rs:232-270 | the same for a trial: the commit exactly on a stable, healthy, new invocation; the rollback exactly after deadline or reboot |
| Decisions.RollbackOutcomes | nodelite-updater/src/activate.rs:194-210 | the floor first, then the intent with the target remembered as failed |
| Decisions.RestoreOutcomes | nodelite-updater/src/activate.rs:210-230 | exactly when a restore is finished, asked for, waits or needs an operator |
| Journals.SnapshotIdempotent | nodelite-updater/src/remote.rs:41-47 | taking the stored form of a stored journal changes nothing |
| Journals.LatchedLoadsIff | nodelite-updater/src/state.rs:307-321 | exactly when a latched journal still validates |
| Journals.FloorResetLoadsIff | nodelite-updater/src/state.rs:115-133 | a lowered time floor leaves the journal valid exactly when the clock is past the epoch |
| Journals.EnrolledLoadsIff | nodelite-updater/src/state.rs:154-177 | the journal of an enrollment loads exactly when the clock was past the epoch |
| Journals.ResetUnblocksFetch | nodelite-updater/src/clock.rs:15-41 | when a reset is granted, and that the floor afterwards never blocks the next fetch |
| AgentUpdate.RequestLifetime | nodelite-proto/src/agent_update.rs:16-25 | a request valid at one moment is invalid 65 seconds later |
| Decisions.AcceptOutcomes | nodelite-updater/src/remote.rs:201-234 | exactly which requests are accepted, and the whole record stored of one |
| Decisions.StoredReport | nodelite-updater/src/remote.rs:81-119 | every stored journal reports what is installed, when the next request is due, and its own transaction truly |
| Decisions.ReportOutcomes | nodelite-updater/src/remote.rs:49-69 | how a download that was cut off, found nothing newer or ended its run is put down |
| Decisions.RequestWrites | nodelite-updater/src/remote.rs:242-250 | the timer's flag is raised before the journal names the request |
| Decisions.GateOutcomes | nodelite-updater/src/runtime.rs:190-209 | exactly when an unattended reconcile idles, and when it fails at the gate |
| Decisions.ReconcileWrites | nodelite-updater/src/runtime.rs:107-141 | markers of an earlier boot go first, idle or not; then an abandoned download is put right; then the phase decides |
| Decisions.SettledOutcomes | nodelite-updater/src/runtime.rs:163-188 | which ends drop the timer's flag and which latch operator recovery |
| Decisions.RefusedCommands | nodelite-updater/src/runtime.rs:66-124 | all that paused, latched or unloadable hosts still let a command write |
| Decisions.ResetOutcomes | nodelite-updater/src/clock.rs:15-40 | exactly when a time floor is lowered, and to what |
| Decisions.FetchWrites | nodelite-updater/src/runtime.rs:144-150 | a fetch collects before it brings anything in |
| Decisions.ClockRefused | nodelite-updater/src/download.rs:197-202 | a clock behind the accepted floor refuses a fetch before it writes |
| Decisions.LoadStarts | nodelite-updater/src/download.rs:110-133 | a load starts from the cached root, or the bootstrap root |
| Decisions.RequestsAfterRecord | nodelite-updater/src/trust.rs:97-109 | before a request goes out the trusted root is durable, and from the first timestamp on all metadata |
| Decisions.UnrecordedLoadFails | nodelite-updater/src/download.rs:214-219 | a load that could not record its trust before a request fails, whatever follows |
| Decisions.NothingStored | nodelite-updater/src/download.rs:212-238 | without a loaded repository and a matching payload the release plan fails and stores nothing |
| Decisions.LoadedJournal | nodelite-updater/src/state.rs:273-323 | what any journal that loads satisfies: this policy, its floors, its roots, and a transaction that can be undone |
| Origins.AcceptedIff | nodelite-updater/src/download.rs:30-189 | exactly which offered releases are accepted, field by field, and what is remembered of one |
| Origins.OnlyOurReleases | nodelite-updater/src/download.rs:143-239 | whatever becomes of any command: what it stores, adopts or begins to try is the release it was offered, for the policy's own channel and target |
| Updaters.Updater.Prepare | nodelite-updater/src/activate.rs:78-119 | the method attempts exactly the writes of the prepare plan, in order, and stops at the first error with the journal then in memory |
| Updaters.Updater.Prepared | nodelite-updater/src/activate.rs:121-152 | the same for the prepared phase |
| Updaters.Updater.Stopping | nodelite-updater/src/activate.rs:154-192 | the same for the stopping phase, whose outcomes `Decisions.StoppingOutcomes` gives |
| Updaters.Updater.Rollback | nodelite-updater/src/activate.rs:194-230 | the same for rollback |
| Updaters.Updater.Trial | nodelite-updater/src/activate.rs:232-270 | the same for the trial phase |
| Updaters.Updater.Reconcile | nodelite-updater/src/activate.rs:272-298 | the same for the dispatch over phases |
| Updaters.Updater.CaptureRoot | nodelite-updater/src/trust.rs:47-70 | the same for capturing a root |
| Updaters.Updater.PublishCache | nodelite-updater/src/download.rs:68-108 | the same for publishing the cache |
| Updaters.Updater.Request | nodelite-updater/src/trust.rs:97-117 | one metadata request attempts its planned writes and, however they end, the load goes on as the plan says |
| Updaters.Updater.Requests | nodelite-updater/src/transport.rs:114-130 | the loop over all requests of a load: a failed root request counts as a missing root, any other failure ends the requests |
| Updaters.Updater.Load | nodelite-updater/src/download.rs:204-218 | requests, then `finish`, also after a failure; its own error comes first |
| Updaters.Updater.AcceptOffer | nodelite-updater/src/download.rs:143-189 | the offered release is checked, adopted in memory, published and its payload stored, or refused, as `Origins.AcceptedIff` says |
| Updaters.Updater.Fetch | nodelite-updater/src/download.rs:191-239 | the whole fetch attempts exactly its plan |
| Updaters.Updater.Collect | nodelite-updater/src/maintenance.rs:67-95 | both collection loops attempt exactly the planned deletions |
| Updaters.Updater.LatchFailure | nodelite-updater/src/runtime.rs:182-188 | latching attempts both writes and ignores their errors |
| Updaters.Updater.Dispatched | nodelite-updater/src/runtime.rs:99-179 | a command leaves the disk its script leaves under the same faults, and reports an error exactly when the script has one |
| Updaters.Updater.AcceptRequest | nodelite-updater/src/remote.rs:242-250 | the same for accepting a request |
| Updaters.Updater.Report | nodelite-updater/src/remote.rs:252-262 | the same for the final report |
| Updaters.Updater.Perform | nodelite-updater/src/runtime.rs:99-179 | a whole command performs exactly the durable writes the model attributes to it |
| Service.Serve | nodelite-updater/src/runtime.rs:59-97 | running a command from a reachable disk leaves a reachable disk, on which the invariant holds |
| Migrations.MigrationSafe | tools/nodelite_migrate/transaction.py:225-303 | after any sequence of applies, resumes and recoveries cut off anywhere: a switched unit has its drop-in, `rolled_back` and `committed` mean what they say, and one undisturbed recovery settles the rest |
| Migrations.RecoverKeeps | tools/nodelite_migrate/transaction.py:268-303 | a recovery cut off at any point leaves a sound site and never invents or loses a commit |
| Migrations.RecoverCompletes | tools/nodelite_migrate/transaction.py:268-303 | the first undisturbed recovery ends in `rolled_back`, after which recovery changes nothing |
| Migrations.HandoffCommitsIff | tools/nodelite_migrate/transaction.py:110-252 | an undisturbed handoff ends committed with the new unit and its drop-in exactly when nothing an earlier attempt left stands against its provisioning |
| Migrations.HandoffKeeps | tools/nodelite_migrate/transaction.py:225-255 | a handoff cut off or failing anywhere, its own recovery included, leaves a sound site |
| Migrations.HandoffOrder | tools/nodelite_migrate/transaction.py:225-255 | wherever a handoff ends: the legacy agent stops only after authentication and preflight, the unit is switched only after stop, saved configuration and drop-in, and a commit needs verified units, authenticated health and enabled timers |
| Migrations.FailureUndone | tools/nodelite_migrate/transaction.py:253-255 | whatever raises in a handoff, the recovery that follows undoes it before the error is reported |
| Migrations.RecoveryOrder | tools/nodelite_migrate/transaction.py:279-298 | the legacy unit comes back only after units are disabled, the agent stopped and its configuration saved; the drop-in goes after it; `rolled_back` comes last |
| Migrations.ChangedOriginals | tools/nodelite_migrate/transaction.py:277-282 | changed originals are never used: nothing is switched and an operator is called |
| Migrations.RefusedCalls | tools/nodelite_migrate/transaction.py:177-218 | a refused apply or resume leaves the site as it was |
| Migrations.Migration.Recover | tools/nodelite_migrate/transaction.py:268-303 | the method takes exactly the steps of the recovery and keeps soundness |
| Migrations.Migration.HandOver | tools/nodelite_migrate/transaction.py:225-255 | the method takes exactly the steps of the handoff; success means committed |
| Migrations.Migration.Apply | tools/nodelite_migrate/transaction.py:177-203 | a first migration; refused when any earlier attempt left its directory |
| Migrations.CommitReachableIff | tools/nodelite_migrate/transaction.py:177-222 | whatever was tried and wherever it was cut off, some further calls complete the migration, exactly unless one of the dead ends is reached: no journal, an unfinished file, lost or shut trust, no room for one load |
| Migrations.AbandonedFirst | tools/nodelite_migrate/transaction.py:184-198 | power lost right after the directory is made leaves a directory without a journal |
| Migrations.FileCutOff | tools/nodelite_migrate/transaction.py:110-121 | power lost while the trust anchor is created leaves an unfinished file that every resumed attempt refuses |
| Migrations.TrustCutOff | tools/nodelite_migrate/transaction.py:124-134 | power lost between `trust-started` and the updater's journal leaves trust that every resumed attempt calls missing |
| Migrations.OperatorCalled | nodelite-updater/src/enrollment.rs:16-22 | a trial whose boot unit fails leaves a recovery flag that every later enrollment check refuses |
| Migrations.StoreFillsUp | nodelite-updater/src/state.rs:219-232 | attempts that fail in their load leave one generation each until the store is full, and nothing else wrong |
| Migrations.Migration.Resume | tools/nodelite_migrate/transaction.py:206-222 | a new attempt, only after a rollback that left the legacy unit |
| Publishers.PublicationsMonotone | tools/nodelite_release/repository.py:124-141 | over any run of publications the root chain extends byte for byte, versions, sequence and floor never fall, equal versions mean equal documents, equal sequences equal releases and payloads, and no publication repeats an earlier one |
| Publishers.LaterAlwaysAcceptable | nodelite-updater/src/download.rs:157-173 | a client that accepted one publication never meets the downgrade rejection at a later one, and refuses it exactly when it revokes what is installed |
| Publishers.FloorFollowsPublisher | nodelite-updater/src/download.rs:174-180 | the client's floor is the larger of the policy's and the last accepted publication's |
| Publishers.ClientFollows | nodelite-updater/src/download.rs:157-188 | over any sequence of fetches in publication order, from enrollment on, floor and seen release are those of the last accepted publication and the policy |
| Publishers.RefusedOnlyWhenRevoked | nodelite-updater/src/download.rs:157-173 | and each further publication is refused exactly when it revokes what the client has installed by then |
| Publishers.ChainAlwaysCaptured | nodelite-updater/src/trust.rs:47-95 | a client following the published chain, from the bootstrap root or any cached one, captures every next root: no gap, no rejection, no quota |
| Publishers.WholeChainCaptured | nodelite-updater/src/trust.rs:47-95 | and, following it to its end, records all of it |
| Publishers.FirstAlwaysCaptured | nodelite-updater/src/trust.rs:72-95 | the first capture takes the bootstrap root or its successor |
| Publishers.NoCollisionIff | tools/nodelite_release/repository.py:155-180 | a publication that passed every comparison collides with a copied file exactly when it encodes a shared document differently |
| Publishers.ReformattedRootCollides | tools/nodelite_release/repository.py:124-141 | any publication with its first root formatted in another way passes the comparisons and collides |
| Publishers.BuiltServes | tools/nodelite_release/repository.py:91-106 | reading the new generation back yields what was published |
| Publishers.ServedOnce | tools/nodelite_release/repository.py:91-106 | a generation serves one view only |
| Publishers.ReadRoots | tools/nodelite_release/repository.py:38-59 | the loop returns the history the files form and fails exactly when they form none |
| Publishers.Mirror.Publish | tools/nodelite_release/repository.py:124-173 | what does not advance is refused before the disk is touched; a differently encoded shared document never gets through; failed or interrupted anywhere, the old generation is still served; published, the new one is served whole |
| Publishers.Mirror.Submit | tools/nodelite_release/repository.py:109-121 | published only if enough keys signed every role under the newest root, nothing has expired and all else that `Deserves` lists holds; anything else is refused and leaves the disk alone |
| Publishers.DeservesIff | tools/nodelite_release/repository.py:38-114 | the checks before the lock amount to exactly this: a gap-free root chain, enough signatures for every root and role, separate keys, fresh documents that name their children, one scoped entry of the payload's digest and length |
| Publishers.MayFollowIff | tools/nodelite_release/repository.py:124-144 | the checks under the lock amount to exactly this: ahead of what is served in every respect, or the first on an empty mirror, and room for one more |
| Publishers.Mirror.PutRoots | tools/nodelite_release/repository.py:155-156 | the loop writes every root of the chain and refuses only if one exists with other bytes |
| AgentLogs.LogState.RecordEntries | nodelite-server/src/agent_logs.rs:92-127 | counters, queues and history agree, both budgets and the per-node limit are met, other queues lose exactly what is evicted from their front, and nothing retained is older than anything ever evicted |
| AgentLogs.LogState.EnforceGlobalBudget | nodelite-server/src/agent_logs.rs:192-211 | eviction ends within both budgets and takes no more than needed; what it takes is recorded entry by entry, from the queue fronts and oldest first; its `break` is unreachable |
| AgentLogs.EvictedQueues | nodelite-server/src/agent_logs.rs:196-208 | every entry that stays is newer than the one evicted |
| AgentLogs.LogState.PopFront | nodelite-server/src/agent_logs.rs:213-229 | the front leaves, both counters follow, and an emptied queue disappears |
| AgentLogs.LogState.ForgetMissing | nodelite-server/src/agent_logs.rs:144-158 | exactly the queues of unknown nodes disappear |
| AgentLogs.LogState.List | nodelite-server/src/agent_logs.rs:129-142 | the newest entries the node ever got accepted, oldest of them first |
| AgentLogs.Without | nodelite-server/src/agent_logs.rs:231-239 | the sums over all queues, one of them taken out |
| Text.TruncatedIsLongest | nodelite-proto/src/text.rs:4-14 | truncation keeps exactly as many whole characters as fit the byte limit |
| Text.BoundaryEnds | nodelite-proto/src/text.rs:10 | every byte that is no continuation byte begins a character |
| Text.TruncateToByteBoundary | nodelite-proto/src/text.rs:4-14 | the loop finds the greatest boundary within the limit |
| WireLimits.WireSnapshot.Fit | nodelite-proto/src/limits.rs:24-47 | the running size decides as the true size does; the result is the specified one, whose disks `WireLimits.FitReports` traces, and the return value counts what was dropped |
| WireLimits.FitReports | nodelite-proto/src/limits.rs:24-47 | each kept disk is a disk of the input, in order, with its own figures and its own strings cut to whole characters; a missing one repeats a reported mount point, exceeds the 64, or follows one too much for the budget |
| WireLimits.FittedIsLongest | nodelite-proto/src/limits.rs:37-45 | the kept disks are the longest prefix whose true JSON size fits the budget |
| WireLimits.FitMeetsLimits | nodelite-proto/src/limits.rs:24-47 | at most 64 disks with distinct mounts and bounded strings, within the budget |
| WireLimits.FitAgain | nodelite-proto/src/limits.rs:24-47 | fitting twice changes nothing more |
| WireLimits.RetainedFirst | nodelite-proto/src/limits.rs:30-35 | each truncated mount point is represented by the first disk that carried it |
| Sessions.ForgettingInvisibleIff | nodelite-server/src/auth.rs:458-494 | forgetting used steps after 150 seconds is indistinguishable from never forgetting exactly when at most 60 seconds pass before use |
| Sessions.NoCodeReplayedIff | nodelite-server/src/auth.rs:350-371 | in the store that forgets, over any schedule, each success has a step no earlier success had, exactly when at most 60 seconds pass before use |
| Sessions.ExchangeConsumes | nodelite-server/src/auth.rs:350-371 | a successful exchange takes its pending token and marks its steps, of which the store did not hold at least one |
| Sessions.FullStoreKeepsLogin | nodelite-server/src/auth.rs:361-363 | a full store refuses a login and consumes neither token nor steps |
| Sessions.SpentStaysSpent | nodelite-server/src/auth.rs:358-369 | a pending token never succeeds again unless it is issued again |
| Sessions.RunBounded | nodelite-server/src/auth.rs:279-325 | no operation overflows either session budget or lets a pending login survive five failures |
| Sessions.MatchingSteps | nodelite-server/src/auth.rs:530-552 | the steps of the drift window whose code was entered, and no others |
| Sessions.TwoFactorSessions.ExchangePending | nodelite-server/src/auth.rs:350-371 | the method's reply and new state are those of the specified store |
| Sessions.TwoFactorSessions.CreatePending | nodelite-server/src/auth.rs:279-301 | a full pending store loses one that expires first |
| Sessions.TwoFactorSessions.MarkUnused | nodelite-server/src/auth.rs:458-470 | all matching steps are spent together unless none is new |
| Sessions.TwoFactorSessions.RecordFailedAttempt | nodelite-server/src/auth.rs:312-325 | the fifth failure removes the pending login |
| SessionLives.ExchangeSucceeds | nodelite-server/src/auth.rs:350-371 | over any history: an exchange succeeds only within 300 seconds of the login's beginning, before five failures, with a step not spent for 150 seconds; and then it does, unless crowded out |
| SessionLives.RecognisedIff | nodelite-server/src/auth.rs:394-398 | a session is recognised exactly for 24 hours after it was issued, unless it was ended |
| SessionLives.WaitsIff | nodelite-server/src/auth.rs:303-307 | a login that was not crowded out by 256 others waits exactly 300 seconds, unless it was ended |
| SessionLives.FifthFailureEnds | nodelite-server/src/auth.rs:312-325 | a login is ended by its fifth failure and by no earlier one |
| SessionLives.MarkedIff | nodelite-server/src/auth.rs:332-337 | steps are marked exactly when one was not spent in the last 150 seconds |
| SessionLives.RefusedOnlyWhenFull | nodelite-server/src/auth.rs:339-346 | a session is refused only when 1024 were issued in the last 24 hours |
| ServerUpdates.CommittedOnlyWhenReported | nodelite-server/src/agent_updates.rs:74-137 | the view shows a reserved request as committed only after the node's then-current session reported that very request committed |
| ServerUpdates.ReadyOnlyWhenReported | nodelite-server/src/agent_updates.rs:38-62 | readiness rests on a report of the session that is current |
| ServerUpdates.ReservationCoolsDown | nodelite-server/src/agent_updates.rs:155-175 | a second reservation needs the cooldown and the expiry of the first request |
| ServerUpdates.CapacityHolds | nodelite-server/src/agent_updates.rs:42-46 | over any history the store never exceeds its capacity |
| ServerUpdates.SessionsOnlyRise | nodelite-server/src/agent_updates.rs:56-98 | while a node's entry survives its session only rises, and a report or an end of an overtaken session changes nothing |
| ServerUpdates.FallsOnlyWhenDropped | nodelite-server/src/agent_updates.rs:42-61 | between any two moments at which a node is known, its session falls only if it was forgotten or a beginning found it offline for an hour |
| ServerUpdates.OlderTakesOverIff | nodelite-server/src/agent_updates.rs:42-61 | a beginning session older than one the node held takes over exactly when the entry is gone or has been offline for an hour |
| ServerUpdates.OvertakenSessionReturns | nodelite-server/src/agent_updates.rs:42-61 | after an hour offline an older session can take over |
| ServerUpdates.ForgottenSessionReturns | nodelite-server/src/agent_updates.rs:192-196 | after a node was forgotten an older session can take over at once |
| ServerUpdates.AgentUpdates.Begin | nodelite-server/src/agent_updates.rs:38-62 | exactly the entries offline for an hour go, other nodes are untouched, the newer session takes over and keeps the request, and only a full store turns a node away |
| ServerUpdates.AgentUpdates.Record | nodelite-server/src/agent_updates.rs:74-98 | an old or offline session changes nothing; a report about another request keeps phase, request and sequences, except that manual recovery shows |
| ServerUpdates.AgentUpdates.Reserve | nodelite-server/src/agent_updates.rs:139-176 | granted exactly when the view called the node ready, which it then no longer is; a refusal leaves the view as it was |
| ServerUpdates.AgentUpdates.Look | nodelite-server/src/agent_updates.rs:100-137 | after any calls, a commit it shows was reported by the then-current session, and readiness was reported by the session the node has |

## Left out

* Signature schemes, hashing and the inside of the TUF client: a signature is counted over key sets, a
  document stands for its own collision-free digest however the client re-encodes it in its directory, and a
  repository load is whatever the contract above lets it make `before` and `finish` see.
* File ownership, modes, links, locks, `systemctl` and cgroups: they are part of what the host answers.
* `initialize` before its journal exists, and `verify_enrollment`: runs begin with the disk it leaves.
* Waiting for the lock in `take` and consuming the request file: only the lock holder writes.
* The published status file: nothing reads it back.
* Host events during a command are placed after its writes; a preflight that completes after its sample may
  have been started before the candidate pointer moved.
* All boot clock reads of one process fail together.
* `latest_known_time.json` in a working generation, and partially written files of a generation that no
  journal names.
* In the migration, accounts, the saved originals, the recovery unit and the attempt records are steps without
  a durable effect of their own; an unfinished file is never complete by accident; the old and the new unit
  differ. How many generations one complete load adds is a parameter; what the publisher serves, and whatever
  an operator does to the updater by hand, is not part of the model.
* In the publisher, JSON decoding beyond a document having several encodings, key canonicalisation and file
  modes; a damaged mirror that `current` would not read.
* In the log store, trimming messages and parsing timestamps: an entry arrives in its sanitized form.
* In wire limits, JSON encoding: an element's size is a parameter, the base size is positive.
* In sessions, entropy failures, login event ids, confirmations and passkey ceremonies; one clock serves steps and
  expiry, in milliseconds.
* HTTP, WebSocket, storage, alerts, the web frontend, installers and the remaining server modules.
