# Scope: verified models of the hard parts

A Dafny model of the parts of Scope whose correctness depends on arithmetic, interleaving or exact text: the
media worker's leases and object ledger, the API's change notifications and Git segment recovery, the CLI's
visibility-config sync, remote selection and config undo, the license-expression checker, and a few codecs and
bounded readers. `dafny verify dfyconfig.toml` checks everything.

## What is proved

**Leases** (`Lease`, `LeaseProtocol`). A media worker claims a job row with an expiry in whole Unix seconds, polls
the job under `supervise_lease`, renews at a third of the lease L, retries at L/24 and drops the work L/4 before the
granted lease ends. `Lease` models the supervisor's loop; `LeaseProtocol` is a step system of any number of workers,
their clocks, one row, renewals that succeed, fail, are refused, stall or arrive after nobody waits for them, and
settlements that commit, and are heard, at times of their own. In every run at most one worker polls a job it has not
settled, **if and only if** no renewal that was seen to fail reaches the row later and the clock skew plus one second
is at most L/4. A worker whose settlement has committed may go on polling until it hears so; it does for at most
L - L/4 and none of its requests changes the row any more. At most one worker polls at all if and only if, besides,
settlements are heard as they commit. All of this holds for every lease of at least one second.

**The object ledger** (`ObjectLedger`, `StagedKeys`). A claimed job reserves a key, writes the part, and publishes or
discards, and can be dropped at every wait while other parties orphan and purge. Every wait consumes an event of an
arbitrary script, so each contract holds at every cancellation point and for every answer: only this attempt's
objects change, every stored object is in the ledger, no adopted object is missing, and nothing is deleted once a
completion may have been applied; a completed job's stored parts concatenate to its files. Staged keys spell out their
attempt, so seen from the object store no path of another attempt changes.

**Notifications** (`LogNotify`, `RepoBus`). In the self-pruning registry no append is lost, for any timestamps and any
interleaving of runs. Publishes of every run are spaced by the window, and the answers are those of a registry that
never forgets, exactly when no append finds its window pruned away too early; in timestamp order none does. The change
bus sends each event exactly once to each subscriber of its repository in every interleaving of subscriptions,
idle-channel removal, local publishes and notifications. The classes carry these results in their `Valid()`.

**License expressions** (`LicenseExpr`). The recursive-descent parser that computes sets of sets is proved equal to a
grammar-directed parse, the parse to be the exact inverse of printing, and the computed choices to be the Boolean
meaning of the tree (Annex D of SPDX 2.3). An accepted selection entails the declared license.

**Visibility config** (`ConfigSync`). Local file, recorded base hash and server config over arbitrary histories, each
operation cut short before any of its file writes.

**Segment recovery** (`SegmentRecovery`) and **config undo** (`GitConfigUndo`). Sweepers racing publishers and each
other, retirement and repository deletion; capture, any prefix of `configure_remote`, restore.

**Smaller ones.** `RemoteSelection`, `ByteRanges` (section 14.1.2 of RFC 9110), `BoundedReaders`, `Quoting` (section 2.2
of the POSIX Shell Command Language, section 3.2 of RFC 8187).

## Where the code does less than one would expect

Each of these has a lemma with the failing input and one with the exact condition.

| expectation | what the code does | exact condition |
|---|---|---|
| a quarter of the lease covers any skew, and a failed renewal is harmless | a wider skew, or a failed renewal that is applied late, lets a second worker in | `ExclusionIff` (`WiderSkewBreaksExclusion`, `LateRenewalBreaksExclusion`) |
| a settled job is polled by nobody else | a second worker can start before the first hears that its settlement committed | `AloneIff` (`LateReplyOverlaps`, `SettledWorkerIsHarmless`) |
| a local config edit is never overwritten | one equal to the recorded base is, after a half-written refresh left an old base | `EditSurvivesIff`, `OverwritesIff` (`StaleBaseLosesEdit`) |
| a first push can be repeated after it was stopped | a default config created and left behind counts as an edit | `RerunAfterAbandonedCreation` |
| publishes of a run are a window apart | timestamps are read before the lock is taken: a pruned run can publish again too early | `RegistrySpacesIff` (`PublishesTooEarlyOutOfOrder`) |
| pruning never shows | it does when an append finds its window pruned before the window's end by its own timestamp | `PruningShowsIff` (`PruningShowsOutOfOrder`) |
| every process hears every event | not from another process with its origin id | `AllHeardIffDistinctOrigins` (`SharedOriginLosesEvents`) |
| the callback line depends on the bytes alone | with the newline from 3841 to 4095 in a longer stream it depends on the reads | `CutsAgreeIff` |
| configuring a remote leaves other remotes alone | it unsets every key of remotes whose names extend its own by a dot | `OtherRemoteSurvivesIff`, `SectionTakesInIff` |
| a selection that entails the declaration is accepted | one that adds obligations is refused | `EntailsIffCovered`, `ValidateSelections` (`SelectionIsStricter`) |
| a printed command can be pasted | not if its name is printed plain and is an assignment or a reserved word | `CommandReadsBackIff` |
| PowerShell reads the quoted base URL back | not with a typographic quote in it | `WindowsBaseUrlReadsBackIff` |

## Model

| member | source | states |
|---|---|---|
| `Lease.Begin` | media-worker/src/lease.rs:45-56 | supervision starts iff more than the safety margin remains, and then the first renewal is due at or before the give-up time |
| `Lease.AfterGrant` | media-worker/src/lease.rs:74-79 | after a grant the next renewal is due no later than the new give-up time |
| `Lease.AfterFailure` | media-worker/src/lease.rs:27-31 | a retry is due before the give-up time and does not extend the granted lease |
| `Lease.AwaitRenewal` | media-worker/src/lease.rs:57-73 | an answer is heard, at its time, exactly when it comes before the give-up time and before the work's end; finished work wins over the give-up timer |
| `Lease.RoomAtBegin` | media-worker/src/lease.rs:17-25 | for a lease of at least 30 ms, a grant of the first renewal leaves a whole heartbeat before the give-up time it sets |
| `Lease.GrantIsTimely` | media-worker/src/lease.rs:74-79 | a grant keeps the timing invariant: the give-up time does not move back and, from 30 ms on, the cap on the next renewal does not bind |
| `Lease.FailureIsTimely` | media-worker/src/lease.rs:80-88 | a failed renewal keeps the timing invariant |
| `Lease.TurnIsTimely` | media-worker/src/lease.rs:57-88 | every loop iteration keeps the timing invariant or stops no later than the give-up time |
| `Lease.TurnKeepsTheWork` | media-worker/src/lease.rs:57-88 | an iteration goes on only while the work is unfinished; it reports a lost lease exactly on a refusal |
| `Lease.TurnOnTime` | media-worker/src/lease.rs:148-166 | a renewal granted in time brings the work another third of the lease, with room for the next |
| `Lease.TurnEndsForCause` | media-worker/src/lease.rs:57-88 | an iteration that ends was refused, or failed with no room for a retry, or reached the give-up time |
| `Lease.SuperviseLease` | media-worker/src/lease.rs:34-90 | over any renewals: the work is never polled after the give-up time in force, is dropped only while unfinished and only for cause; the renewals answered are the first ones, as answered and when scheduled, and the next one was not answered in time; renewals granted in time carry the work beyond its first lease to its end |
| `Lease.RefusalIsHeard` | media-worker/src/lease.rs:80 | a renewal refused in time, the first or one after answered ones, ends the supervision there with a lost lease |
| `Lease.TurnHears` | media-worker/src/lease.rs:57-88 | each iteration asks for the renewal that is due when it is due, and records the answer it gets |
| `Lease.OutageIsBounded` | media-worker/src/lease.rs:27-31 | consecutive failed renewals share one give-up time and number at most (give-up time - first attempt) / (L/24), rounded up |
| `LeaseProtocol.StartIsBacked` | media-worker/src/jobs.rs:65-106 | a worker starts polling only while the row still stands behind its claim, however late the claim's answer came |
| `LeaseProtocol.NobodyFindsItExpired` | crates/scope-postgres/src/db/request_media/processing.rs:33-44 | while a worker polls a job it has not settled, no worker's clock finds the row claimable |
| `LeaseProtocol.RenewalKeepsPhases` | crates/scope-postgres/src/db/request_media/processing.rs:200-232 | applying a renewal, for a holder or for nobody, keeps every worker's lease bounds |
| `LeaseProtocol.GensKept` | crates/scope-postgres/src/db/request_media/processing.rs:163-184 | a lease generation is handed out once, and a request nobody waits for never carries the generation of a holder |
| `LeaseProtocol.SettlementKeepsPhases` | crates/scope-postgres/src/db/request_media/processing.rs:428-496 | a settlement's commit, heard at once or later, keeps every worker's lease bounds |
| `LeaseProtocol.InvKept` | media-worker/src/jobs.rs:56-114 | every step of every worker, and of the database, keeps the invariant |
| `LeaseProtocol.InvHolds` | media-worker/src/jobs.rs:56-114 | so does every run |
| `LeaseProtocol.MutualExclusion` | media-worker/src/lease.rs:45-89 | in every run at most one worker polls the job without having settled it, and before the stored expiry of its generation on every clock |
| `LeaseProtocol.SettledWorkerIsHarmless` | media-worker/src/jobs.rs:478-501 | a worker whose settlement committed polls on for at most L - L/4, and no request of its generation changes the row any more |
| `LeaseProtocol.WiderSkewBreaksExclusion` | media-worker/src/runtime.rs:121-125 | with more skew than the margin covers, a run has two workers polling an unsettled job at once |
| `LeaseProtocol.ExclusionIff` | media-worker/src/lease.rs:17-25 | for every lease, exclusion over all runs holds iff no failed renewal arrives late and skew + 1 s <= L/4 |
| `LeaseProtocol.LateReplyOverlaps` | media-worker/src/jobs.rs:146-153 | for every lease and clocks, a job settled and queued again is polled by a second worker before the first hears of its commit |
| `LeaseProtocol.AloneIff` | media-worker/src/jobs.rs:116-172 | at most one worker polls at all, over all runs, iff settlements are also heard as they commit |
| `LeaseProtocol.RetryIsClaimedIff` | crates/scope-postgres/src/db/request_media/processing.rs:448-478 | after a failure recorded with a time to try again, whatever happens until somebody claims, cancels or retries, a claim succeeds iff the claiming worker's clock had reached that time |
| `LeaseProtocol.SettledForGood` | crates/scope-postgres/src/db/request_media/processing.rs:448-478 | a job completed, failed for good or out of attempts is never claimed nor started again unless cancelled or retried by a user |
| `LeaseProtocol.CancelledForGood` | crates/scope-postgres/src/db/request_media/processing.rs:33-44 | a cancelled job is never claimed, renewed, settled or retried again |
| `LeaseProtocol.LiveOrClaimable` | crates/scope-postgres/src/db/request_media/processing.rs:33-44 | at any clock reading a held lease is live or claimable, never both |
| `LeaseProtocol.RenewalIsAnswered` | crates/scope-postgres/src/db/request_media/processing.rs:200-232 | a renewal is granted iff its lease is live, and a worker that hears a refusal stops |
| `LeaseProtocol.ExhaustedIsClosed` | crates/scope-postgres/src/db/request_media/processing.rs:137-147 | a claim can close a job out of attempts exactly when its lease has expired |
| `LeaseProtocol.EndingsStopPolling` | media-worker/src/lease.rs:80-88 | a worker refused, out of time, settled or ended polls no more and leaves the row alone |
| `LeaseProtocol.LateRenewalBreaksExclusion` | media-worker/src/lease.rs:80-88 | for every lease and perfect clocks, a renewal seen to fail that reaches the row after the retry was granted lets a second worker in |
| `ObjectLedger.MeanwhileProgresses` | crates/scope-postgres/src/db/request_media/processing.rs:121-133 | what others do during a wait touches only this attempt's objects, keeps every object tracked and loses no part that is not orphaned |
| `ObjectLedger.LateWriteLands` | crates/scope-media-storage/src/storage.rs:110-129 | a write nobody waits for any more can still store its bytes |
| `ObjectLedger.ReservationProgresses` | crates/scope-postgres/src/db/request_media/processing.rs:272-336 | a reservation keeps the ledger sound |
| `ObjectLedger.WriteProgresses` | crates/scope-media-storage/src/storage.rs:110-129 | a write under a reserved key keeps the ledger sound |
| `ObjectLedger.AdoptIsSafe` | crates/scope-postgres/src/db/request_media/processing.rs:365-425 | adopting pending, stored parts never adopts a missing object and leaves other attempts alone |
| `ObjectLedger.AdoptPublishes` | crates/scope-postgres/src/db/request_media/processing.rs:365-425 | adopting the keys of the uploaded objects publishes each file, part by part |
| `ObjectLedger.ChunkSizes` | media-worker/src/jobs.rs:337-349 | no chunk is empty, all but the last are full, and the count is exact |
| `ObjectLedger.ChunksMakeTheFile` | media-worker/src/jobs.rs:337-376 | the chunks in order concatenate to the file |
| `ObjectLedger.PublishedIsTheFile` | media-worker/src/jobs.rs:337-402 | the stored parts of a published object concatenate to the file |
| `ObjectLedger.PublishedLeavesNonePending` | crates/scope-postgres/src/db/request_media/processing.rs:365-425 | once all objects are published, no reservation of the attempt is left pending |
| `ObjectLedger.OtherPathsUntouched` | media-worker/src/jobs.rs:321-326 | whatever random suffixes are drawn, the store's paths of other attempts hold after the job what they held before |
| `ObjectLedger.Host.Reserve` | crates/scope-postgres/src/db/request_media/processing.rs:272-336 | a key is entered only under the live lease and as pending; the reply is success exactly when the request is accepted under a live lease |
| `ObjectLedger.Host.WritePart` | crates/scope-media-storage/src/storage.rs:110-129 | only a reserved key is written; success means the bytes are held unless the key was orphaned |
| `ObjectLedger.Host.DeleteKey` | crates/scope-media-storage/src/storage.rs:209-224 | a deletion is only asked for while nothing of the attempt is adopted, and touches that key |
| `ObjectLedger.Host.DeleteParts` | media-worker/src/jobs.rs:533-539 | every part is tried, whatever fails |
| `ObjectLedger.Host.DeleteObject` | crates/scope-media-storage/src/storage.rs:198-207 | every part is tried until the first failure |
| `ObjectLedger.Host.DeleteObjects` | media-worker/src/jobs.rs:541-547 | every object is tried, each until its first failure |
| `ObjectLedger.Host.PutPart` | media-worker/src/jobs.rs:360-376 | reserves, then writes; the two answers decide the result exactly |
| `ObjectLedger.Host.StagePart` | media-worker/src/jobs.rs:356-376 | the plan, then the reservation, then the write decide the result exactly; a refused or failed part takes the staged ones along, one that cannot be planned does not |
| `ObjectLedger.Host.ReadChunk` | media-worker/src/jobs.rs:337-354 | the next chunk, empty exactly at the end of the file, or an error when it does not fit |
| `ObjectLedger.Host.StageNext` | media-worker/src/jobs.rs:337-376 | the next part holds the next chunk, numbered one higher; the end is reported only after the last chunk; without trouble it succeeds |
| `ObjectLedger.Host.SealParts` | media-worker/src/jobs.rs:377-384 | an object that cannot be sealed is discarded and fails |
| `ObjectLedger.Host.UploadDerivative` | media-worker/src/jobs.rs:310-403 | an uploaded object could be named and sealed and has parts 1..n that hold exactly the file's chunks; without trouble a fine file is uploaded, and a failure names what went wrong |
| `ObjectLedger.Host.ReadSource` | media-worker/src/jobs.rs:189-258 | no object is touched before the first upload; the answers for manifest and codec decide the result exactly |
| `ObjectLedger.Host.UploadNext` | media-worker/src/jobs.rs:260-293 | a derivative that fails takes the objects before it along and becomes the failure, lost lease or error of the work |
| `ObjectLedger.Host.ProcessClaim` | media-worker/src/jobs.rs:189-301 | prepared work holds every derivative in order; without trouble fine files are prepared, at any other end nothing is adopted and the work names what went wrong |
| `ObjectLedger.Host.CompleteJob` | crates/scope-postgres/src/db/request_media/processing.rs:365-425 | all parts are published or none, by the answer exactly; a lost lease means none |
| `ObjectLedger.Host.MarkValidated` | media-worker/src/jobs.rs:437-453 | changes no object; an invalid input is told from other errors |
| `ObjectLedger.Host.RecordFailure` | media-worker/src/jobs.rs:478-501 | a recorded failure orphans every reservation of the attempt |
| `ObjectLedger.Host.Discard` | media-worker/src/jobs.rs:130-138 | discards every object, then records a failure only for an invalid source |
| `ObjectLedger.Host.SettleFailure` | media-worker/src/jobs.rs:156-168 | a validated source is marked first, then the failure recorded; the answers decide the outcome exactly |
| `ObjectLedger.Host.Publish` | media-worker/src/jobs.rs:124-155 | the answers to marking and completing decide the outcome: completed exactly when both are applied, and then all is published; a lost lease or a recorded failure means nothing adopted and every object discarded |
| `ObjectLedger.Host.SettleClaim` | media-worker/src/jobs.rs:116-172 | whatever is answered and wherever the job is cut: tracked, no adopted object missing, other attempts untouched; a job that meets no trouble completes, one that ends early names its trouble; a completed job's stored parts are its files and no reservation stays pending; a recorded failure leaves only orphaned ones |
| `ObjectLedger.CleanUp` | media-worker/src/cleanup.rs:75-151 | the outcome exactly: completed iff every deletion and the completion are accepted, else the first failure recorded; what was deleted is gone and no other key |
| `StagedKeys.KeyPieces` | crates/scope-media-storage/src/keys.rs:3-21 | a staged key's path spells its attachment, object and attempt |
| `StagedKeys.LeaseAttemptInjective` | media-worker/src/jobs.rs:321-326 | token and generation can be read back from the attempt id |
| `StagedKeys.KeyNamesTheAttempt` | crates/scope-media-storage/src/keys.rs:3-50 | equal keys come from one attachment, object, token and generation |
| `StagedKeys.KeyNamesThePart` | crates/scope-media-storage/src/keys.rs:3-35 | equal keys also have the part number and the random suffix in common |
| `StagedKeys.StagedKeyIsDeletable` | crates/scope-media-storage/src/storage.rs:209-217 | every staged key passes the guard of its deletion: prefix, length and no double slash |
| `LogNotify.LogNotifyWindow.OnAppend` | api/src/repo_events.rs:46-63 | publishes iff the last publish is a window ago or there is none, else a timer later than now stands behind the append; keeps publishes spaced |
| `LogNotify.LogNotifyWindow.OnDeadline` | api/src/repo_events.rs:65-73 | the timer of a pending due time publishes; a stale one changes nothing or publishes a window after the last; keeps publishes spaced |
| `LogNotify.RunOkKept` | api/src/repo_events.rs:45-74 | a pending due time always has an outstanding timer for that due time |
| `LogNotify.PublishesAreSpaced` | api/src/repo_events.rs:45-74 | for any order of timestamps, recorded publish times are at least 250 ms apart |
| `LogNotify.OccurOnRun` | api/src/repo_events.rs:165-196 | to each run, a call of the registry is a pruning and then, if it is the run's own, an event of its window |
| `LogNotify.RegistrySpacesIff` | api/src/repo_events.rs:165-196 | for any timestamps and interleaving, the publishes of every run are at least 250 ms apart iff no append finds its window pruned away within a window of its last publish |
| `LogNotify.RegistrySpacesInOrder` | api/src/repo_events.rs:165-196 | in timestamp order they are |
| `LogNotify.PublishesTooEarlyOutOfOrder` | api/src/repo_events.rs:427-440 | with an older timestamp a pruned run publishes at 0 and at 100 |
| `LogNotify.PendingUntilPublished` | api/src/repo_events.rs:165-196 | a run's due time stays pending, through pruning and other runs' calls, until something is published for the run |
| `LogNotify.NoAppendIsLost` | api/src/repo_events.rs:427-457 | for any timestamps and interleaving of runs: once a run's timers have woken, a publish was recorded at or after each of its appends |
| `LogNotify.LogNotifyRegistry.OnLogAppend` | api/src/repo_events.rs:165-187 | the append is recorded as published or a timer later than now stands behind it, other runs' logs are untouched, and the registry's invariant is kept |
| `LogNotify.LogNotifyRegistry.OnLogDeadline` | api/src/repo_events.rs:189-196 | the timer of the run's pending due time publishes, a stale one that does not changes no window, other runs are untouched, and the registry's invariant is kept |
| `LogNotify.AnswersAlike` | api/src/repo_events.rs:165-196 | registries that differ only in expired windows answer alike ever after |
| `LogNotify.PruningIsInvisible` | api/src/repo_events.rs:165-196 | for nondecreasing timestamps and any calls, the answers are those of a registry that never prunes |
| `LogNotify.PruningIsRare` | api/src/repo_events.rs:165-180 | nothing is pruned before its time, and then not for another 30 seconds |
| `LogNotify.WindowsAreIndependent` | api/src/repo_events.rs:553-571 | a run's window is decided by that run's calls alone |
| `LogNotify.PruningShowsIff` | api/src/repo_events.rs:165-187 | for any calls, the answers are the never-pruning ones iff no append finds its window pruned away within a window of its last publish |
| `LogNotify.PruningShowsOutOfOrder` | api/src/repo_events.rs:165-187 | such a sequence: with an older timestamp a pruned run publishes again within its window |
| `RepoBus.RepoChangeBus.NewReceiver` | api/src/repo_events.rs:202-211 | the new receiver starts empty on its repository's channel, no other receiver or channel changes, and every receiver still holds what it should |
| `RepoBus.RepoChangeBus.RemoveChannelIfIdle` | api/src/repo_events.rs:213-224 | afterwards the channel exists iff a live receiver subscribes to the repository |
| `RepoBus.RepoChangeBus.Publish` | api/src/repo_events.rs:226-237 | every live receiver of the event's repository is sent it once, no other is, a channel nobody listens to is dropped, and every receiver still holds what it should |
| `RepoBus.IdleChannelIsReplaced` | api/src/repo_events.rs:604-614 | the last receiver to leave takes its channel along when tidied, and the next one gets a new channel |
| `RepoBus.RepoChangeBus.Receive` | api/src/repo_events.rs:249-261 | the process's own echo changes nothing; any other notification reaches the receivers as a publish does |
| `RepoBus.PublishReaches` | api/src/repo_events.rs:226-237 | publishing appends the event once to exactly the live receivers of its repository |
| `RepoBus.HandleKeepsProcess` | api/src/repo_events.rs:226-237 | receivers hold exactly the events of their repository handled since they joined, in order; publishing keeps that |
| `RepoBus.TakeKeepsProcess` | api/src/repo_events.rs:202-224 | so do subscribing, dropping a receiver and removing an idle channel |
| `RepoBus.DeliveryInvKept` | api/src/repo_events.rs:486-510 | every step keeps: an event was handled by a process or its notification is on the way there, never both |
| `RepoBus.FanOut` | api/src/repo_events.rs:486-510 | in every interleaving no process handles an event twice, and once nothing is on the way it has handled all |
| `RepoBus.ExactlyOnce` | api/src/repo_events.rs:202-261 | a receiver subscribed before an event is published and still there was sent it exactly once if it concerns its repository, else never, once nothing is on the way |
| `RepoBus.SharedOriginLosesEvents` | api/src/repo_events.rs:249-261 | a process never handles what another process with its origin id published |
| `RepoBus.AllHeardIffDistinctOrigins` | api/src/repo_events.rs:249-261 | over all runs every process hears every event iff the origin ids are distinct |
| `LicenseExpr.ChoicesMeaning` | dev/licensing/generate.py:231-253 | some computed choice is granted in full iff the expression is true |
| `LicenseExpr.LeafEntailsIff` | dev/licensing/generate.py:223-240 | one license entails, and is accepted for, another iff they have the same name and the same exception up to case |
| `LicenseExpr.ExceptionMatters` | dev/licensing/test_generate.py:201-202 | a license and the license with an exception are never accepted for one another |
| `LicenseExpr.TwoNames` | dev/licensing/generate.py:242-253 | as text, a slash or OR makes two alternatives and AND makes one |
| `LicenseExpr.OperatorsAreNoNames` | dev/licensing/generate.py:223-229 | no operator and no mark is read as a license |
| `LicenseExpr.ParseInvertsPrint` | dev/licensing/generate.py:231-258 | the parser accepts exactly the printed trees and returns the tree printed |
| `LicenseExpr.Parser.Take` | dev/licensing/generate.py:216-221 | advances over exactly the asked-for token |
| `LicenseExpr.Parser.Identifier` | dev/licensing/generate.py:223-229 | accepts exactly a name and lower-cases it |
| `LicenseExpr.Parser.ReadTerm` | dev/licensing/generate.py:231-240 | succeeds iff the tokens begin with a term, consumes it, returns its choices |
| `LicenseExpr.Parser.ReadConjunction` | dev/licensing/generate.py:242-247 | the same for a conjunction |
| `LicenseExpr.Parser.ReadAlternatives` | dev/licensing/generate.py:249-253 | the same for alternatives |
| `LicenseExpr.LicenseChoices` | dev/licensing/generate.py:210-258 | the in-place parser returns the choices of the tree of the whole text, or nothing |
| `LicenseExpr.PrintedExpressionReadsBack` | dev/licensing/generate.py:210-258 | printing any tree as text and reading it gives that tree's choices |
| `LicenseExpr.AcceptedExpressionMeaning` | dev/licensing/generate.py:210-258 | an accepted text is one tree, all its characters but blanks used, and its choices mean what the tree means |
| `LicenseExpr.EntailsIffCovered` | dev/licensing/generate.py:204-207 | entailment holds iff each selected choice contains a declared one |
| `LicenseExpr.SelectionIsSound` | dev/licensing/generate.py:204-207 | a selection whose choices are declared ones entails the declaration |
| `LicenseExpr.SelectionIsStricter` | dev/licensing/generate.py:204-207 | some selections that entail the declaration are refused |
| `LicenseExpr.ValidateSelections` | dev/licensing/generate.py:204-207 | accepts iff every selected choice set is among the declared ones, and then every selection entails its declaration; the first pair not accepted decides the error |
| `ConfigSync.Worktree.Refresh` | cli/src/repo_config.rs:242-268 | either write can be the last, the base is never ahead of the config, and synced means both are on disk |
| `ConfigSync.Worktree.PreparePush` | cli/src/push.rs:83-145 | file write by file write: synced leaves the base at the server's config and the result on disk, without a config file beforehand always the server's; a local config the base does not record is kept, a conflict writes nothing |
| `ConfigSync.Worktree.SyncPull` | cli/src/repo_config.rs:90-120 | a local config is never replaced; synced means a config on disk with a base; a base is written only for the server's config on disk |
| `ConfigSync.PreparedIsInStep` | cli/src/push.rs:114-145 | a successful preparation leaves the base at the server's config and its result on disk |
| `ConfigSync.PreparesExactly` | cli/src/push.rs:83-145 | exactly when a preparation syncs and with which config: the local one if the base is the server's, else the server's, which is then on disk; and when it fails for what |
| `ConfigSync.PullsExactly` | cli/src/repo_config.rs:90-120 | exactly when a pull syncs, with which config, and when it fails for what |
| `ConfigSync.PublishedIsInStep` | cli/src/push.rs:183-222 | a synced preparation and the publication of its config leave server, config and base the same |
| `ConfigSync.OverwritesIff` | cli/src/push.rs:114-145 | a local config is replaced iff it equals the recorded base and the server has another one; a pull never replaces it |
| `ConfigSync.ConflictsIff` | cli/src/push.rs:114-145 | a preparation refuses for a conflict iff local, server and base are three different things |
| `ConfigSync.RerunAfterHalfWrite` | cli/src/push.rs:114-145 | cut between the config and the base write, a rerun against the same server succeeds |
| `ConfigSync.RerunAfterAbandonedCreation` | cli/src/repo_config.rs:154-175 | after a created default config was left behind, the exact condition under which the next preparation refuses |
| `ConfigSync.SyncKeepsEdit` | cli/src/push.rs:114-145 | no single operation loses an edit the base does not record |
| `ConfigSync.EditSurvives` | cli/src/push.rs:83-222 | over any history of pulls, preparations, publications, server changes and cuts, such an edit survives while it differs from the server's config |
| `ConfigSync.EditSurvivesIff` | cli/src/push.rs:114-145 | a local config that is not the server's survives every history of synchronisation iff the base does not record it |
| `ConfigSync.StaleBaseLosesEdit` | cli/src/repo_config.rs:242-268 | a half-written refresh, an edit back to the old config and a preparation lose the edit |
| `SegmentRecovery.Treat` | api/src/git_segment_recovery.rs:20-87 | remote cleanup only after the row was taken for deletion, marking only after remote cleanup succeeded; one counter moves |
| `SegmentRecovery.TreatExactly` | api/src/git_segment_recovery.rs:26-86 | what is taken for deletion is cleaned up and marked as far as the calls succeed; what happened decides which counter moves and when the sweep fails |
| `SegmentRecovery.Sweep` | api/src/git_segment_recovery.rs:11-88 | each counter is the number of candidates it stands for, and together they are all; the sweep fails exactly on a database error |
| `SegmentRecovery.SegmentsKept` | crates/scope-postgres/src/db/git_segments/ledger.rs:122-155 | every step, retirement and repository deletion included, keeps published objects present and moves segments only towards deletion |
| `SegmentRecovery.InvKept` | crates/scope-postgres/src/db/git_segments/retirement.rs:5-32 | every step of a sweeper, publisher, retirement or repository deletion keeps the invariant |
| `SegmentRecovery.RecoveryIsSafe` | api/src/git_segment_recovery.rs:20-87 | in every interleaving: a published segment's object exists, a deleted one's remote cleanup succeeded, and finished sweeps account for all candidates |
| `SegmentRecovery.StaleCandidateIsRemoved` | api/src/git_segment_recovery.rs:26-86 | left alone, a sweeper whose calls succeed removes an unreferenced stale candidate and counts it as deleted |
| `SegmentRecovery.OthersAreSkipped` | api/src/git_segment_recovery.rs:38-41 | what is referenced or published is skipped, counted, and not touched |
| `SegmentRecovery.UploadIsPublished` | crates/scope-postgres/src/db/git_segments/publication.rs:9-38 | left alone, an upload whose object is written is published |
| `SegmentRecovery.RetiredForGood` | crates/scope-postgres/src/db/git_segments/retirement.rs:5-32 | a segment retired, or whose repository is deleted, is never ready or published again |
| `GitConfigUndo.ReadInvertsEncode` | cli/src/init.rs:245-267 | reading the NUL-separated list gives the values, empty ones included |
| `GitConfigUndo.ExactUndo` | cli/src/init.rs:148-198 | capture, any prefix of the configuration's changes, restore: the original config |
| `GitConfigUndo.LocalConfig.RemoteSectionKeys` | cli/src/init.rs:211-243 | lists exactly the keys with the section's prefix |
| `GitConfigUndo.LocalConfig.LocalConfigValues` | cli/src/init.rs:245-267 | returns the key's values in order |
| `GitConfigUndo.LocalConfig.Capture` | cli/src/init.rs:174-187 | the snapshot holds the value list of every key the configuration can change |
| `GitConfigUndo.LocalConfig.ReplaceLocalValues` | cli/src/init.rs:269-283 | clearing and adding one by one sets exactly the list |
| `GitConfigUndo.LocalConfig.Restore` | cli/src/init.rs:189-197 | clears the section, then sets the captured lists |
| `GitConfigUndo.LocalConfig.ConfigureRemote` | cli/src/init.rs:148-165 | performs a prefix of the listed changes, unsetting exactly the section's keys of an existing remote first |
| `GitConfigUndo.LocalConfig.ConfigureAndUndo` | cli/src/init.rs:53-83 | a configuration that failed anywhere and was undone leaves the config as it was |
| `GitConfigUndo.SectionTakesInIff` | cli/src/init.rs:229-241 | a key of another remote is in a remote's section iff the other's name extends it by a dot |
| `GitConfigUndo.OtherRemoteSurvivesIff` | cli/src/init.rs:148-165 | after a whole configuration another remote's key is there, unchanged, iff the configured remote was new or its name with a dot does not begin the other's |
| `GitConfigUndo.ConfigurationLeaves` | cli/src/init.rs:148-165 | exactly what a whole configuration leaves: address and fetch rule, credential helper, Scope settings, and every other key outside the section as it was |
| `RemoteSelection.ParsePrinted` | cli/src/git_transport.rs:42-84 | parsing a remote printed for any view gives it back with that view |
| `RemoteSelection.SameTargetSameAddress` | cli/src/git_transport.rs:18-84 | equal owner, repository and view at one API print the same URL |
| `RemoteSelection.AcceptsIff` | cli/src/git_transport.rs:18-73 | exactly which addresses are accepted for an API and as what: same origin, no password, a path that spells view, owner and repository |
| `RemoteSelection.AddressIff` | cli/src/context.rs:144-149 | exactly the address of a remote: that of the first of its name, if it is accepted |
| `RemoteSelection.LoadsIff` | cli/src/context.rs:144-177 | exactly when a remote loads and as what |
| `RemoteSelection.LoadAgrees` | cli/src/context.rs:144-177 | a loaded remote agrees with `--repo`, and for a push its two addresses agree in owner, repo, view and URL |
| `RemoteSelection.EarliestLeast` | cli/src/context.rs:235-245 | the first of the candidates none comes before: on push the private view first, then `scope`, then `origin` |
| `RemoteSelection.LoadAll` | cli/src/context.rs:193-196 | keeps exactly the remotes that load |
| `RemoteSelection.PushCandidates` | cli/src/context.rs:223-234 | keeps exactly the candidates that push through the view they fetch, of the same repository |
| `RemoteSelection.AmongAll` | cli/src/context.rs:193-246 | succeeds iff some remote loads for this purpose and all that load name one repository, or none loads and `--repo` can be targeted; none that qualifies ranks before the result |
| `RemoteSelection.ForRepository` | cli/src/context.rs:248-257 | succeeds iff the API has no password and the names are not empty, with the named repository at the private view |
| `RemoteSelection.LoadOne` | cli/src/context.rs:178-192 | a remote named by argument or branch is returned iff it loads, with what loading promises |
| `RemoteSelection.Resolve` | cli/src/context.rs:114-246 | the exact condition of success; every success agrees with `--repo`, `--remote` and the branch, on push has agreeing addresses, and without an explicit or branch choice stands for the one repository all Scope remotes name |
| `ByteRanges.SpecIsServed` | media-service/src/ranges.rs:11-70 | a satisfiable specifier that fits 64 bits is served with exactly the bytes section 14.1.2 of RFC 9110 selects |
| `ByteRanges.ServedIsSpec` | media-service/src/ranges.rs:11-70 | whatever is served is such a specifier |
| `ByteRanges.ServedIff` | media-service/src/ranges.rs:11-70 | both together: served iff so written |
| `ByteRanges.HeadersServedIff` | media-service/src/ranges.rs:11-61 | for any headers: the whole object exactly without a range header, a part exactly for one satisfiable specifier |
| `ByteRanges.PrintedRangeParses` | media-service/src/ranges.rs:11-70 | printing a valid closed range and parsing it returns it |
| `ByteRanges.LengthIsCount` | media-service/src/handlers.rs:307-316 | the response length is the number of selected bytes, at most the size, and no subtraction underflows |
| `BoundedReaders.ReadCapped` | media-worker/src/process.rs:106-120 | for any pieces, the first min(total, limit) bytes |
| `BoundedReaders.BufferUploadBody` | media-service/src/handlers.rs:182-209 | for any framing, accepted iff it arrives whole and fits, and then it is the bytes sent |
| `BoundedReaders.ReadRequestLine` | cli/src/login.rs:320-352 | at most 4352 bytes buffered; exactly which line or error any sequence of reads gives |
| `BoundedReaders.LineIs` | cli/src/login.rs:328-336 | the line is the bytes before the newline but for returns at their end, and never empty |
| `BoundedReaders.LineIsChunkIndependent` | cli/src/login.rs:320-352 | with the first newline at 3840 or before, or a stream within the limit, every cut gives the line before it; from 4096 on every cut is too large |
| `BoundedReaders.CutsAgreeIff` | cli/src/login.rs:320-352 | all cuts of a stream give the same result iff the first newline is absent, at 3840 or before, at 4096 or after, or the stream is within the limit |
| `Quoting.ArgumentReads` | cli/src/error.rs:151-162 | any argument, quoted or not, reads as exactly one word |
| `Quoting.CommandLineReadsBack` | cli/src/error.rs:147-165 | a shell's word splitting recovers exactly the printed argument list |
| `Quoting.CommandReadsBackIff` | cli/src/error.rs:147-165 | the line is that simple command iff its first argument, printed plain, is no assignment and no reserved word |
| `Quoting.PosixBaseUrlReadsBack` | cli-downloads/src/installers.rs:3-7 | a shell reads the quoted base URL as one word, the trimmed URL |
| `Quoting.TrimSlashesIs` | cli-downloads/src/installers.rs:3-7 | only slashes at the end are trimmed, and all of them |
| `Quoting.WindowsBaseUrlReadsBackIff` | cli-downloads/src/installers.rs:178 | PowerShell reads the quoted base URL back iff it has no typographic quote |
| `Quoting.DecodeInvertsEncode` | media-service/src/handlers.rs:385-410 | percent-decoding the `filename*` value returns the filename's bytes |
| `Quoting.Fallback` | media-service/src/handlers.rs:371-384 | the quoted fallback is 1 to 150 printable characters, not all blank, without quote or backslash |
| `Quoting.FallbackIs` | media-service/src/handlers.rs:371-384 | exactly the fallback: the first 150 characters, unsafe ones replaced, unless all are blank |
| `Quoting.AttrCharsStand` | media-service/src/handlers.rs:385-410 | characters that may stand for themselves do |
| `Quoting.SafeNameIsKept` | media-service/src/handlers.rs:371-384 | a short name of safe characters is its own fallback |

## Left out

- Lease.SuperviseLease: the timing clauses are stated for a first lease of at most the lease duration; a longer one arises only when the wall clock is set back between claiming and starting, and can then put a give-up time before an answer.
- LeaseProtocol.MutualExclusion: one job row, since rows share no state; a lease token stands for its generation, with which it is always compared; timers are ideal, clock offsets fixed, and code between two waits takes no time; the cleanup job's lease is the same protocol.
- LeaseProtocol.InvKept: the tombstones of attachment deletion appear only as a row being cancelled at any time.
- ObjectLedger.Host.DeleteObjects: the validation that deleting an object begins with is not an outcome, because every object was sealed by the same validation and not changed since.
- ObjectLedger.Host.WritePart: requires a reserved key that was not written before, which the random suffix of each staged key provides; failures of digest and media-type sealing are one flag per derivative.
- ObjectLedger.Host.ProcessClaim: does not promise that a failed claim's parts are deleted, as the worker only tries; they stay in the ledger for the orphan cleanup.
- ObjectLedger.CleanUp: the row's renewals are those of `LeaseProtocol`.
- RepoBus.ExactlyOnce: receivers do not lag behind the channel's capacity of 128, and the notification channel is reliable; failed notifications and those the database sends for attachments are not modelled.
- ConfigSync.EditSurvives: each operation is atomic with respect to edits, fingerprints are injective, creating the default config file is one write, and the local file is at the current version.
- ConfigSync.Worktree.PreparePush: the review checks of the head object and the signing of push intents are not modelled.
- SegmentRecovery.RecoveryIsSafe: which uploads count as stale, and the retention query behind `referenced`, are left open: any segment may be a candidate and any answer may come.
- GitConfigUndo.ExactUndo: keys without a value and the order of sections in the file are not represented, and no restore call fails.
- RemoteSelection.Resolve: URLs are parsed values in normal form, the arguments are already trimmed and split, and percent-encoding of `--repo` names is not modelled; the wording of the errors is left out.
- BoundedReaders.ReadRequestLine: lines are bytes; the lossy conversion to text, interrupted reads and read errors are not modelled.
- Quoting.Fallback: the filename is a sequence of characters here and a sequence of bytes for `DecodeInvertsEncode`; UTF-8 encoding between the two is not modelled.
- Overflow of the lease expiry at the end of 64-bit time, `retry_delay`, `Cadence` and the job loop: easy arithmetic.
- `put_upload_part`, grants, tokens and push-intent signing: they rest on storage and cryptography.
- The rest of `generate.py` (archives, supplements, shared terms) and of the install scripts: input, output and library regexes.
- Routers, telemetry, semaphore budgets, retention, mail, device login and progress output: plumbing with easy claims.
