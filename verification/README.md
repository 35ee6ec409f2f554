# Blazn CLI: what its durable state guarantees

A Dafny 4.11 model of the parts of the Blazn CLI that keep state consistent while servers fail,
processes die and commands are repeated, with proofs about every input, every failure pattern and
every reachable state of that model. `dafny verify dfyconfig.toml` checks all of it.

| file | what it models |
|---|---|
| `CredentialProtocol.dfy` | remote sessions, credential store and login fence as a state machine over any number of processes |
| `CredentialService.dfy` | the authentication commands, run against that machine while others interfere and any process may die |
| `CredentialFiles.dfy` | the protected-file store, with process crashes and power loss |
| `CredentialBackends.dfy` | the once-and-for-all choice between Secret Service and the file |
| `SessionLock.dfy` | the development-session lock: mkdir, owner record, recovery by rename |
| `DevelopmentSession.dfy` | the write-ahead receipt of a session: what its event logs look like and what follows |
| `SessionSteps.dfy` | `start` and `finish` as steps of any number of processes on one receipt and one server |
| `SessionCommands.dfy` | `start` and `finish` as programs over those steps |
| `SessionOverlaps.dfy` | which overlapping commands do harm, exactly |
| `SessionUnderLock.dfy` | the lock and the commands together |
| `CanonicalJson.dfy` | the canonical JSON printer and the document digest |
| `JsonReader.dfy` | a reader of JSON texts, written from RFC 8259, that gives the printer's output its meaning |
| `Quickstart.dfy` | registration that reuses or creates five objects |
| `SchemaRefs.dfy` | JSON Pointer and the walk over cyclic `$ref`s |
| `ProcessTree.dfy` | closure of a process tree and its clean-up |
| `RunWatch.dfy` | following a growing event log |
| `VerifiedReader.dfy` | the size- and digest-checking download stream |
| `Uninstall.dfy` | the transactional uninstall |
| `Common.dfy` | options, steps that may die, bytes, and an arbitrary set element for loops in any order |

## How it is modelled

- Nondeterminism (`*`) stands for the server, other processes, clocks, random names and failing calls,
  so a contract holds for every outcome of all of them.
- **Authentication server.** Honest but lossy: a refresh may rotate and still report an error, an
  exchange or a revocation may take effect and lose its answer. A nil revocation, `device_revoked`,
  `device_not_found` and `session_invalid` are given only for a device without a live session.
- **The ledger.** A live session that loses its place in the store is entered in a ledger with a cause and the
  process to blame, and leaves it when it is stored again. The command contracts (`Safe`, `LockSafe`, `Sound`)
  say which causes a command can be blamed for: none for `Logout`, `Devices`, `RevokeDevice` and refreshing.
- **Other processes.** `Others` runs any finite sequence of permitted actions of all other processes
  between two effects; while the credential lock is held, only those that need no lock.
- **Death.** A method with result `Step` may end in `Died` after any of its effects. Deaths in the
  session receipt and the authentication commands are process deaths; the credential file is also
  proved against power loss.
- **Faults.** Counters (`faults`, `setbacks`) that only the primitive calls raise count what went wrong, so that
  contracts can say that a command fails only if something did.
- Polling loops get a bound (`polls`, `attempts`, `patience`, `limit`) for the rounds before the deadline
  or the interruption; the contracts hold for every bound.

## Where the code does less than it seems to promise

Each is proved of the model, by a run that shows it, an exact condition, or both.

- `Status` deletes credentials on `refresh_invalid` even when the stable revocation was not confirmed. That
  orphans the session exactly when it is live and no process carries it (`StatusLocked`,
  `DeletionOrphansExactly`, `UnconfirmedDeletionOrphans`). No other definitive code does.
- A retaining save after a lost fence, or after a failed lock, replaces another login's session exactly when
  the store holds a live one, and orphans it exactly when no process carries it (`SaveReplacesExactly`,
  `UnfencedSaveOrphans`).
- The session lock admits two holders exactly through one step: a recovery that renames a directory away in
  which a live process holds or is about to (`ExclusiveUnlessDisplaced`, `DisplacedAdmitsTwo`, `TwoHolders`).
- A failed owner-record write removes `owner.json` by name; that is harmless exactly when no other process
  holds, or is about to hold, the directory that has the lock's name by then (`FailedWriteExactly`), and every
  such process ends up holding without a record (`FailedWriteRobs`, `HolderExposed`, `WriterRobbed`). The other
  lock theorems are about runs without a harmful failed write (`CarefulRun`).
- With two holders, a second sandbox is created exactly through a first start that begins while another has not
  recorded its session (`OneSandboxUnlessDoubled`, `DoubledMakesTwo`, `TwoStartsTwoSandboxes`). A session that was
  ready is stopped unapproved exactly through a `finish` without options that opens from `starting` while `ready`
  is or may still be recorded, or a start resumed during one (`NoUnapprovedStopWithoutRace`, `RaceEndsBadly`,
  `ReadyStoppedUnapproved`). What each process has seen before it acts holds always (`EveryRunIsGrounded`).
- A session that never became ready is stopped by `finish` without any approval (`UnreadyNeedsNoApproval`);
  one that did is not (`NoStopWithoutApproval`).
- The profile name has only the first eight characters of the model route, and neither profile nor Agent
  version is compared on the rest, so a different route can be served by the first one's objects
  (`ProfileNameExactly`, `RouteTailIsIgnored`, `EveryRouteIsShared`).
- Repeating a credential deletion whose directory sync failed reports success without syncing
  (`FileStore.Delete` states exactly when a nil deletion is durable).
- A `Read` after an error reports an unverified end of file exactly when the error was a size or digest mismatch
  (`ReadOn`).
- Array indices go through `strconv.Atoi`, which reads more tokens than section 4 of RFC 6901 allows: exactly those
  that are not the decimal numeral of the index (`AtoiExactly`, `AtoiIsLenient`). The model follows the code.
- An uninstall that ends in an error does not name what it leaves: exactly the candidate, lock or journal that it
  could not remove again (`RunUninstall`).

## Model

| member | source | states |
|---|---|---|
| `CredentialProtocol.InvStep` | internal/auth/service.go:158-305 | every action of any process or of the server keeps the invariant: sessions accounted for, fences unbroken, store reserved |
| `CredentialProtocol.InvRun` | internal/auth/service.go:158-598 | the invariant holds after every run of any number of processes |
| `CredentialProtocol.EveryLiveSessionIsAccountedFor` | internal/auth/service.go:349-475 | in every reachable state a live session whose key is neither stored nor carried is in the ledger with its cause, and no stored one is; `CredentialService.Machine.AnyCommands` says which causes the commands can be blamed for |
| `CredentialProtocol.SafeRunLosesNothing` | internal/auth/service.go:349-475 | a run without deaths, lost exchanges, fence-less saves, unconfirmed deletions and failed retention loses no session |
| `CredentialProtocol.VerifiedFenceWasNeverBroken` | internal/auth/lock.go:57-114 | a fence that verifies was never removed since its claim, and no second login has one |
| `CredentialProtocol.VerifiedSaveReplacesNothing` | internal/auth/service.go:211-218 | the save of a verified login meets an empty store or its own credentials, unless a fence-less save came after the claim |
| `CredentialProtocol.SaveReplacesExactly` | internal/auth/service.go:256-279 | a save of an issued session, fenced or not, costs another session its place if and only if the store holds a live one of another device, and orphans it if and only if no process carries it |
| `CredentialProtocol.UnfencedOnlyGrows` | internal/auth/service.go:256-279 | the epoch that a login remembers moves exactly when someone made a fence-less save |
| `CredentialProtocol.UnconfirmedDeletionOrphans` | internal/auth/service.go:331-337 | a run in which the deletion that `StatusLocked` makes on `refresh_invalid` leaves a live, irrevocable session |
| `CredentialProtocol.DeletionOrphansExactly` | internal/auth/service.go:331-337 | an unconfirmed deletion orphans the stored session if and only if it is live and no process carries it |
| `CredentialProtocol.UnfencedSaveOrphans` | internal/auth/service.go:256-279 | a run in which such a save, made without a fence, leaves another login's session irrevocable |
| `CredentialService.Machine.Revocation` | internal/auth/service.go:560-598 | a nil or confirming answer means a dead session, whatever others do meanwhile |
| `CredentialService.CodesExactly` | internal/auth/service.go:596-639 | which codes confirm a revocation, and which are definitive |
| `CredentialService.Machine.RevokeSessionStable` | internal/auth/service.go:571-598 | true only for a dead session; store and fence untouched |
| `CredentialService.Machine.RevokeIssuedSession` | internal/auth/service.go:560-569 | true only for a dead session; false after both ways were tried |
| `CredentialService.Machine.RefreshCredentialsLocked` | internal/auth/service.go:443-475 | credentials of the same device and key stay stored, or the store is empty and the session dead, even when rotation is not reported; success stores and returns the server's current tokens; an unconfirmed `session_revoked` or `refresh_invalid` was followed by a device proof; it fails only after a fault |
| `CredentialService.Machine.StoreRotated` | internal/auth/service.go:467-474 | success stores and returns exactly the tokens of the answer, expiring its lifetime from now; a rotated session that cannot be stored is never lost |
| `CredentialService.Machine.CleanupRotatedSession` | internal/auth/service.go:546-558 | asks for revocation first; then the key is kept, with the old or the new tokens, or the session is dead |
| `CredentialService.Machine.CredentialsLocked` | internal/auth/service.go:432-441 | more than thirty seconds before expiry what is stored is returned and nothing is asked; otherwise the server's current tokens; "not found" means empty store and dead session |
| `CredentialService.Machine.CancelLogin` | internal/auth/lock.go:107-114 | success leaves no fence; store and own login unchanged |
| `CredentialService.Machine.ClaimLogin` | internal/auth/lock.go:57-80 | a live unexpired fence is never removed; success means an own fresh fence over an empty store |
| `CredentialService.Machine.VerifyLogin` | internal/auth/lock.go:82-91 | accepts exactly a readable, unexpired fence of this process and login |
| `CredentialService.Machine.ReleaseLogin` | internal/auth/lock.go:93-105 | removes at most the process's own fence |
| `CredentialService.Machine.WithAccessRetryLocked` | internal/auth/service.go:412-430 | kept-or-dead over call, refresh and second call; no error exactly if the last answer was good; `access_expired` is returned only after a second refusal |
| `CredentialService.Machine.LogoutLocked` | internal/auth/service.go:349-382 | nil means empty store, dead session, and no pending login if nothing was stored; any other end keeps the key or the session is dead; an error only after a fault |
| `CredentialService.Machine.DevicesLocked` | internal/auth/service.go:384-395 | never loses a session; fails only after a fault or without a login |
| `CredentialService.Machine.RevokeDeviceLocked` | internal/auth/service.go:397-410 | nil means the device is dead, and the store is emptied exactly if it was the stored one; fails only after a fault or without a login |
| `CredentialService.Machine.StatusLocked` | internal/auth/service.go:307-347 | authenticated if and only if the last answer was good, and never on an empty store; however it ends, it loses a live session only on `refresh_invalid`; then the deletion is the unconfirmed one, and a live session is always lost |
| `CredentialService.Machine.BeginLogin` | internal/auth/service.go:158-209 | success means a fence claimed for fifteen minutes over an empty store; failure, no login, only after a fault, with credentials stored or another login pending; no session is lost |
| `CredentialService.Machine.Exchange` | internal/auth/service.go:251-253 | an answered exchange puts the session into the process's hands; only a lost answer or a death loses it |
| `CredentialService.Machine.AwaitSession` | internal/auth/service.go:251-304 | polling ends with a session in the process's hands or with its login unchanged |
| `CredentialService.Machine.CleanupIssuedSession` | internal/auth/service.go:528-544 | asks for revocation first; then stored with its own tokens, dead, or both revocations and the retaining save failed; blamed for a replaced session only if the store held a live one, which then is in the ledger |
| `CredentialService.Machine.Retain` | internal/auth/service.go:539-543 | the retaining save: exactly the session's tokens and expiry, or given up after a fault; what it replaced is in the ledger |
| `CredentialService.Machine.FinishLogin` | internal/auth/service.go:517-526 | success means that exactly this session's tokens and expiry are stored and that it was used once; otherwise the three endings, after a fault |
| `CredentialService.Machine.VerifyStored` | internal/auth/service.go:521-525 | a stored session that cannot be used is revoked or stays stored |
| `CredentialService.Machine.FinalizeLocked` | internal/auth/service.go:256-266 | with an unbroken fence and no fence-less save since, replaces no other session |
| `CredentialService.Machine.CleanupWithoutLock` | internal/auth/service.go:267-281 | the three endings when the lock could not be had; another session is replaced exactly if the store held a live one at the moment of the save |
| `CredentialService.Machine.SettleIssued` | internal/auth/service.go:253-305 | after an exchange, under every failure pattern: stored with its tokens, dead, or retention and revocation both failed; success means stored, and failure a fault |
| `CredentialService.Machine.CompleteLogin` | internal/auth/service.go:220-305 | the whole command over every interleaving: which losses it can be blamed for, nil only if stored and the fence released, an error only after a fault, abandoned only after everything was tried for the session that was issued |
| `CredentialService.Machine.AnyCommands` | internal/auth/service.go:158-410 | over every sequence of login, logout, devices, revoke and status: a live session's key is stored, carried, or the loss is another process's or has a cause of the sequence; without login and status there is none |
| `CredentialFiles.OriginsSeparate` | internal/auth/store.go:304-307 | staging files of two origins never meet, nor cover a credential file |
| `CredentialFiles.NamesSpelled` | internal/auth/store.go:304-307 | the names of an origin's credential file and staging files |
| `CredentialFiles.FreeNamesCollide` | internal/auth/store.go:452-454 | for names of different length the staging prefixes can overlap |
| `CredentialFiles.FileStore.Reconcile` | internal/auth/store.go:456-490 | nothing staged is left, every other name keeps its entry |
| `CredentialFiles.FileStore.Get` | internal/auth/store.go:358-383 | the whole stored value, nothing for a missing or empty file; fails only after a fault |
| `CredentialFiles.FileStore.Put` | internal/auth/store.go:385-434 | wherever it stops, disk and memory hold the old or the new value whole; nil, exactly if nothing failed and the size is right, means durable and nothing left staged |
| `CredentialFiles.FileStore.Replace` | internal/auth/store.go:395-433 | the rename exposes only flushed bytes |
| `CredentialFiles.FileStore.WriteAndFlush` | internal/auth/store.go:412-420 | whole only after the flush; touches nothing but the staging file |
| `CredentialFiles.FileStore.Delete` | internal/auth/store.go:436-450 | nil, exactly if nothing failed, means gone; durable exactly if there was a file, its absence already was, or staged files were cleared |
| `CredentialFiles.FileStore.PutThenRecover` | internal/auth/store.go:358-490 | a write stopped anywhere, even by power loss, and the next read: whole old or whole new value, no staging file left |
| `CredentialFiles.FileStore.AnyOperations` | internal/auth/store.go:358-490 | over every sequence of writes, reads, deletions, crashes and power losses: reads give nothing or a value written whole, and after a successful write that value until the next write or deletion |
| `CredentialBackends.Selector.SelectBackend` | internal/auth/store.go:165-234 | succeeds exactly on unambiguous states without faults, never changes a recorded choice, never hands out a backend while the other visibly holds credentials |
| `CredentialBackends.Selector.SelectableExactly` | internal/auth/store.go:165-234 | unambiguous means that what can be seen to hold credentials is at most the recorded, usable backend, or without a record at most one |
| `CredentialBackends.Selector.Recorded` | internal/auth/store.go:179-207 | refuses to switch: an unavailable Secret Service or a second holder is an error |
| `CredentialBackends.Selector.First` | internal/auth/store.go:209-233 | the holder wins, otherwise availability decides; the choice is recorded first |
| `CredentialBackends.Selector.Store` | internal/auth/store.go:563-590 | a write through a selected backend keeps the other one empty |
| `CredentialBackends.Selector.Run` | internal/auth/store.go:165-234 | over every sequence of selections, writes and deletions: one backend for ever, at most one holder, the last successful write is seen |
| `SessionLock.InvStep` | internal/cli/development_session.go:175-278 | every step of every process but a harmful failed write keeps the fifteen-part invariant |
| `SessionLock.InvRun` | internal/cli/development_session.go:175-278 | the invariant holds after every run without a harmful failed write |
| `SessionLock.HolderKeepsRecord` | internal/cli/development_session.go:175-278 | a live holder's record is in exactly one directory, the lock or a fenced claim |
| `SessionLock.ExclusiveWithoutClaims` | internal/cli/development_session.go:175-245 | with no fenced directory there is at most one holder |
| `SessionLock.HoldersBounded` | internal/cli/development_session.go:175-245 | never two holders in one directory |
| `SessionLock.ReleaseFrees` | internal/cli/development_session.go:270-278 | a release frees the name and removes the record exactly if the holder still has the name |
| `SessionLock.FreeLockIsTaken` | internal/cli/development_session.go:193-207 | a free lock is taken with the own record under its name |
| `SessionLock.StaleLockIsRemoved` | internal/cli/development_session.go:211-243 | a lock of a dead owner can be fenced and removed, and nothing else with it |
| `SessionLock.ChangedLockIsRestored` | internal/cli/development_session.go:223-239 | a lock that changed hands while it was judged can be put back as it was |
| `SessionLock.OnlyDeadRecordsGo` | internal/cli/development_session.go:211-242 | a record disappears only by its owner's release, by recovery after its owner's death, or by a failed write when nobody holds it any more |
| `SessionLock.TwoHolders` | internal/cli/development_session.go:223-239 | a run of four processes with two holders at once |
| `SessionLock.ExclusiveUnlessDisplaced` | internal/cli/development_session.go:175-278 | mutual exclusion for any number of processes, deaths and recoveries, unless a live lock was renamed away |
| `SessionLock.DisplacedAdmitsTwo` | internal/cli/development_session.go:222-239 | from every state, renaming a live lock away can go on to two holders |
| `SessionLock.FailedWriteExactly` | internal/cli/development_session.go:200-206 | a failed record write keeps the invariant if and only if no other process holds, or is writing its record, in the directory under the lock's name |
| `SessionLock.FailedWriteRobs` | internal/cli/development_session.go:200-206 | in every state of the invariant, each such process ends up holding with its record nowhere |
| `SessionLock.HolderExposed` | internal/cli/development_session.go:195-206 | a run that ends with a holder about to be robbed |
| `SessionLock.WriterRobbed` | internal/cli/development_session.go:195-206 | a run in which a process that was still writing ends up holding with no record and the lock's name free |
| `DevelopmentSession.ReceiptsMoveForward` | internal/cli/development_session.go:308-342 | phases never go back, request and recorded sandbox never change |
| `DevelopmentSession.IdExactlyAfterCreating` | internal/cli/development_session.go:308-342 | the sandbox ID is empty exactly in `creating` |
| `DevelopmentSession.NoStopWithoutApproval` | internal/cli/development_session.go:681-749 | once ready, Stop and Delete are sent only after a recorded approval, for a patch after its capture |
| `DevelopmentSession.ReadyNeedsApproval` | internal/cli/development_session.go:681-697 | no receipt past ready without an approval in between |
| `DevelopmentSession.DeleteAfterStopped` | internal/cli/development_session.go:718-749 | Delete is sent only after that sandbox was seen stopped, however many processes are at work |
| `DevelopmentSession.CreatesAreIdentical` | internal/cli/development_session.go:420-458 | every create request of a session is the same |
| `SessionSteps.InvStep` | internal/cli/development_session.go:377-768 | every step keeps what each process knows, and every recorded sandbox is the server's |
| `SessionSteps.AloneStep` | internal/cli/development_session.go:377-768 | every step of a process that runs alone keeps its receipt in step with the one on disk |
| `SessionSteps.EveryRunIsGrounded` | internal/cli/development_session.go:377-768 | over all runs of any number of processes at once: every write and request follows what its process must have seen |
| `SessionSteps.LockedRunIsGood` | internal/cli/development_session.go:377-768 | over all runs of commands that do not overlap, with deaths anywhere: the log is a good one and the server has one sandbox at most |
| `SessionSteps.StartGoesThrough` | internal/cli/development_session.go:434-488 | a first start: receipt, one create, sandbox recorded, seen running, baseline, ready: a run with exactly these events |
| `SessionSteps.PatchGoesThrough` | internal/cli/development_session.go:682-697 | `--patch` captures, then records it, before anything else |
| `SessionSteps.DiscardGoesThrough` | internal/cli/development_session.go:690-702 | `--discard` is recorded first, from ready and from starting |
| `SessionSteps.DismantlingGoesThrough` | internal/cli/development_session.go:706-768 | look, `stopping`, Stop, seen stopped, `deleting`, Delete, seen deleted, `deleted`: a run with exactly these events |
| `SessionSteps.UnreadyNeedsNoApproval` | internal/cli/development_session.go:698-725 | a run of one start, interrupted, and one `finish` without options that sends Stop although nothing was approved |
| `SessionSteps.TwoStartsTwoSandboxes` | internal/cli/development_session.go:420-458 | with two holders, a run of two first starts that creates two sandboxes |
| `SessionOverlaps.OneSandboxUnlessDoubled` | internal/cli/development_session.go:435-458 | over all other runs, however commands overlap, there is one sandbox at most |
| `SessionOverlaps.DoubledMakesTwo` | internal/cli/development_session.go:435-458 | from every state, a first start that begins while another has not recorded its session can go on to two sandboxes |
| `SessionSteps.ReadyStoppedUnapproved` | internal/cli/development_session.go:681-749 | with two holders, a run that stops a session recorded ready without approval |
| `SessionOverlaps.NoUnapprovedStopWithoutRace` | internal/cli/development_session.go:681-749 | however commands overlap, a session that was ready is stopped or deleted only after an approval, unless a finish from `starting` raced with `ready` |
| `SessionOverlaps.RaceEndsBadly` | internal/cli/development_session.go:681-725 | from every state, every such race can go on to an unapproved stop |
| `SessionUnderLock.LockProtectsSession` | internal/cli/development_session.go:61-137 | lock and commands together, any number of processes: unless a live lock is renamed away or a failed write does harm, the log is good and there is one sandbox at most |
| `SessionSteps.OneSandbox` | internal/cli/development_session.go:420-458 | the server has at most one sandbox for a session |
| `SessionCommands.Session.WriteReceipt` | internal/cli/development_session.go:344-375 | one step of the run, or nothing changes |
| `SessionCommands.Session.Start` | internal/cli/development_session.go:377-489 | sends only the receipt's own request whatever the flags; refuses later phases without any effect; success means ready; fails only after a setback, in a later phase or without attempts |
| `SessionCommands.Session.CreateSandbox` | internal/cli/development_session.go:446-458 | records the answered sandbox and nothing else of the request changes |
| `SessionCommands.Session.Poll` | internal/cli/development_session.go:461-479 | success means that the last look showed the right sandbox in the wanted state |
| `SessionCommands.Session.Approve` | internal/cli/development_session.go:681-705 | a ready session needs exactly one explicit decision, recorded first |
| `SessionCommands.Session.StopSandbox` | internal/cli/development_session.go:718-746 | reaches `deleting` only after the sandbox was seen stopped |
| `SessionCommands.Session.DeleteSandbox` | internal/cli/development_session.go:747-768 | reaches `deleted` only after state and desired state were seen deleted |
| `SessionCommands.Session.Finish` | internal/cli/development_session.go:681-768 | success means that this command saw the sandbox deleted; fails only after a setback, on refused options or without attempts |
| `SessionCommands.AnyCommands` | internal/cli/development_session.go:377-768 | every sequence of commands and deaths is a run of the steps: its log is good and at most one sandbox exists |
| `CanonicalJson.CanonUnique` | internal/agentharness/quickstart.go:331-407 | canonical text is self-delimiting: equal text before a delimiter means equal documents and equal rests |
| `CanonicalJson.CanonInjective` | internal/agentharness/quickstart.go:331-407 | equal canonical text means equal documents |
| `CanonicalJson.QuotedUnique` | internal/agentharness/quickstart.go:380-407 | quoted strings are self-delimiting under all escapes |
| `CanonicalJson.ItemsUnique` | internal/agentharness/quickstart.go:348-356 | the same for array contents |
| `CanonicalJson.MembersUnique` | internal/agentharness/quickstart.go:359-374 | the same for object members |
| `CanonicalJson.WriteCanonicalString` | internal/agentharness/quickstart.go:380-407 | appends exactly the quoted string |
| `CanonicalJson.WriteCanonical` | internal/agentharness/quickstart.go:331-378 | appends exactly the canonical text, whatever order the map is visited in |
| `Decimals.DigitsSpelling` | internal/agentharness/quickstart.go:337-345 | numerals digit by digit |
| `CanonicalJson.ReadsBack` | internal/agentharness/quickstart.go:331-407 | a reader written from RFC 8259 reads the text of every value back, and leaves what follows it |
| `CanonicalJson.EscapeSpelling` | internal/agentharness/quickstart.go:383-404 | characters from 0x20 on stand for themselves but for quotation mark and backslash, the short escapes are used where they exist, other control characters are `\u00` and two lower-case hexadecimal digits |
| `CanonicalJson.KeysAscend` | internal/agentharness/quickstart.go:359-374 | members are read in ascending order of their names, each once |
| `CanonicalJson.DocumentDigest` | internal/agentharness/quickstart.go:313-327 | hashes the domain line and the canonical text without the excluded keys |
| `CanonicalJson.DigestTextReads` | internal/agentharness/quickstart.go:321-326 | what is hashed is the domain line and a text that reads as the document without the excluded keys |
| `CanonicalJson.DigestTextDetermines` | internal/agentharness/quickstart.go:313-327 | equal hashed text if and only if the documents agree outside the excluded keys |
| `CanonicalJson.ExcludedKeyIsFree` | internal/agentharness/quickstart.go:313-327 | adding, changing or removing an excluded key changes nothing |
| `CanonicalJson.DomainsSeparate` | internal/agentharness/quickstart.go:322-325 | texts of two domains never coincide |
| `KeyOrder.SortedUnique` | internal/agentharness/quickstart.go:360-364 | a set of keys has one sorted order |
| `KeyOrder.PrecedesExactly` | internal/agentharness/quickstart.go:364-364 | the order of keys: a proper prefix first, otherwise the first difference decides |
| `KeyOrder.SortStrings` | internal/agentharness/quickstart.go:360-364 | sorted, with the same elements |
| `Quickstart.LastMatchMeaning` | internal/agentharness/quickstart.go:93-100 | the scanning loops keep the last match, and miss none |
| `Quickstart.InsertedIsFound` | internal/agentharness/quickstart.go:93-109 | an object created for want of a match is found again wherever it is listed |
| `Quickstart.ScanDefinitions` | internal/agentharness/quickstart.go:93-100 | any unapproved reference definition refuses, otherwise the last match |
| `Quickstart.ScanAgentVersions` | internal/agentharness/quickstart.go:178-187 | the least number above every existing version, at least 1, and the last matching version |
| `Quickstart.ReusedExactlyWhen` | internal/agentharness/quickstart.go:299-309 | a published document is reused exactly for the same seven pins |
| `Quickstart.SamePins` | internal/agentharness/quickstart.go:299-309 | for every document: one profile entry, and the seven pins where they belong |
| `Quickstart.Sign` | internal/agentharness/quickstart.go:208-208 | the digest put into the document is the digest of the signed document |
| `Quickstart.SignedDocument` | internal/agentharness/quickstart.go:191-208 | the document that is published is one that the next run reuses; its digest is that of the rest of it; number, route, repository rights and default profile are those asked for |
| `Quickstart.ProfileNameExactly` | internal/agentharness/quickstart.go:130-130 | two routes share a profile name if and only if eight characters and the version agree |
| `Quickstart.TemplateDigestNormal` | internal/agentharness/quickstart.go:179-179 | a content digest is pinned in one form |
| `Quickstart.AcceptedNames` | internal/agentharness/quickstart.go:61-61 | names are accepted up to 96 characters |
| `Quickstart.RefusedOptions` | internal/agentharness/quickstart.go:218-238 | what the options' check refuses |
| `Quickstart.RouteTailIsIgnored` | internal/agentharness/quickstart.go:130-140 | options that differ in the rest of the route, purpose or template name find the same objects |
| `Quickstart.EveryRouteIsShared` | internal/agentharness/quickstart.go:130-140 | every route has a different one that is served by its objects |
| `Quickstart.Workspace.FindTemplateVersion` | internal/agentharness/quickstart.go:240-275 | the first wanted version among all templates of the name on all pages; unpublished and missing told apart |
| `Quickstart.ResolveMeans` | internal/agentharness/quickstart.go:240-275 | what a template reference resolves to: a published version of that number under that name, an unpublished one, or none offered |
| `Quickstart.Workspace.EnsureDefinition` | internal/agentharness/quickstart.go:89-109 | afterwards the lookup finds it; created only if there was none; also when the answer is lost |
| `Quickstart.Workspace.EnsureHarnessVersion` | internal/agentharness/quickstart.go:111-128 | the same for the harness version |
| `Quickstart.Workspace.EnsureProfile` | internal/agentharness/quickstart.go:130-155 | the same for the profile |
| `Quickstart.Workspace.EnsureAgent` | internal/agentharness/quickstart.go:157-172 | the same for the Agent |
| `Quickstart.Workspace.EnsureAgentVersion` | internal/agentharness/quickstart.go:174-214 | the same for the Agent version, with a number above all existing ones and the right, signed document |
| `Quickstart.Workspace.Quickstart` | internal/agentharness/quickstart.go:70-216 | succeeds exactly if nothing failed or refused; reports what the lookups find; reuse reported exactly if nothing was created |
| `Quickstart.ReportMeans` | internal/agentharness/quickstart.go:93-187 | what the reported identifiers belong to: kind, version, profile name and status, Agent name and status |
| `Quickstart.Workspace.RunTwice` | internal/agentharness/quickstart.go:67-70 | the state after a successful run is the state after the next one, which returns the same identifiers, reports reuse and fails only if a call does |
| `Quickstart.HistoryCreatesAtMostFive` | internal/agentharness/quickstart.go:67-216 | any number of runs, failed or not, create at most five objects in all, and nothing after completion |
| `Quickstart.Workspace.RunMany` | internal/agentharness/quickstart.go:67-216 | any number of runs: at most five creations in all, and no change after the first success |
| `JsonPointer.UnescapeIsDecode` | cmd/generate-node-client/main.go:289-289 | the two replacements are one left-to-right decoding |
| `JsonPointer.DecodeEncode` | cmd/generate-node-client/main.go:289-289 | decoding undoes the escaping of section 4 of RFC 6901 |
| `JsonPointer.EscapesSpelled` | cmd/generate-node-client/main.go:289-289 | `~1` is a slash and `~0` a tilde |
| `JsonPointer.SplitJoin` | cmd/generate-node-client/main.go:288-288 | splitting undoes joining of slash-free tokens |
| `JsonPointer.AtoiDecimal` | cmd/generate-node-client/main.go:298-298 | every decimal index is read back |
| `JsonPointer.AtoiExactly` | cmd/generate-node-client/main.go:298-298 | every index of RFC 6901 is read as its number; a token read as an index is one of RFC 6901 if and only if it is the decimal numeral |
| `JsonPointer.AtoiIsLenient` | cmd/generate-node-client/main.go:298-298 | a plus sign, a leading zero, and a minus sign are read, too; the last is an index only before zero |
| `JsonPointer.PointerReaches` | cmd/generate-node-client/main.go:280-308 | the pointer written for a path resolves to what is there; where nothing is, it resolves if and only if a step can be misread as a key or an index |
| `JsonPointer.ResolveJSONPointer` | cmd/generate-node-client/main.go:280-308 | the loop is the recursive walk |
| `JsonPointer.ChildMeaning` | cmd/generate-node-client/main.go:290-305 | what a token selects in an object, an array and a scalar |
| `JsonPointer.FragmentMeaning` | cmd/generate-node-client/main.go:281-286 | empty and `#` are the whole document, other fragments without `#/` nothing |
| `JsonPointer.TokenMeaning` | cmd/generate-node-client/main.go:288-307 | one token leads to a child |
| `JsonPointer.PathMeaning` | cmd/generate-node-client/main.go:288-307 | further tokens lead on from the child |
| `SchemaRefs.ValidateRecursiveRefs` | cmd/generate-node-client/main.go:236-278 | terminates on cyclic documents; success explores all it remembers, failure has a dangling reference |
| `SchemaRefs.TargetOf` | cmd/generate-node-client/main.go:240-248 | a file part is joined to the referring document's path, and the fragment is looked up there |
| `SchemaRefs.RefsAreThere` | cmd/generate-node-client/main.go:237-277 | and every string there is counted |
| `SchemaRefs.RefsHavePaths` | cmd/generate-node-client/main.go:237-277 | every reference counted is at the end of a path to a `$ref` |
| `SchemaRefs.FollowRef` | cmd/generate-node-client/main.go:239-264 | one reference: remembered, resolved and explored |
| `SchemaRefs.CoveredResolves` | cmd/generate-node-client/main.go:253-263 | what is remembered and explored covers every chain of references |
| `SchemaRefs.LoadedPathsArePlain` | cmd/generate-node-client/main.go:97-105 | the five documents that are loaded have such paths |
| `SchemaRefs.PlainPathsTellApart` | cmd/generate-node-client/main.go:253-255 | with document paths free of `#`, a remembered name stands for one address |
| `SchemaRefs.ValidateDocument` | cmd/generate-node-client/main.go:236-278 | accepts a document if and only if every reference met through any chain resolves, when names stand for one address |
| `SchemaRefs.ValidateSources` | cmd/generate-node-client/main.go:124-132 | accepts the loaded documents if and only if every reference in every one resolves; any documents, if no dangling address shares its name with a resolving one |
| `ProcessTree.DescendantSet` | internal/harnessworker/descendants_linux.go:138-154 | exactly the processes whose parent chain reaches the parent, for cyclic maps and every order |
| `ProcessTree.ClosedContainsChains` | internal/harnessworker/descendants_linux.go:138-154 | a set nothing can be added to contains every chain |
| `ProcessTree.Tracker.DescendantsNow` | internal/harnessworker/descendants_linux.go:64-67 | the descendants that were not there before |
| `ProcessTree.Tracker.Cleanup` | internal/harnessworker/descendants_linux.go:56-98 | signals exactly new descendants and the group leader in every round; clean exactly at the first two quiet rounds in a row; otherwise it goes on until the deadline and reports the last round's group, or stops at an unreadable inventory |
| `ProcessTree.Tracker.SparesBaseline` | internal/harnessworker/descendants_linux.go:64-74 | a baseline process is signalled only if it is the group leader |
| `RunWatch.PositionSplits` | internal/cli/run.go:385-387 | a cursor splits an ordered log in two |
| `RunWatch.SliceMeaning` | internal/cli/run.go:385-407 | a slice from the cursor's position is exactly the later events |
| `RunWatch.SliceOrdered` | internal/cli/run.go:385-407 | and strictly increasing |
| `RunWatch.StreakCounts` | internal/cli/run.go:301-305 | the failure counter reaches three exactly after three failed rounds in a row |
| `RunWatch.NextRound` | internal/cli/run.go:283-306 | one more round: the counter follows it and no earlier give-up was missed |
| `RunWatch.Watcher.PrintPage` | internal/cli/run.go:391-402 | prints in order and keeps the cursor behind the last printed event, even when stopped |
| `RunWatch.Watcher.DrainRunEvents` | internal/cli/run.go:385-407 | success means that everything existing was printed |
| `RunWatch.Watcher.Watch` | internal/cli/run.go:273-308 | no gap or duplicate across retries; success printed all that existed when the status turned terminal; it succeeds and fails exactly where a reference automaton over what it heard does; gives up only after three failures in a row or a failed last drain |
| `VerifiedReader.Reader.Read` | internal/client/sandbox.gen.go:637-660 | each call delivers the next bytes or none; the error is the one that the whole body must lead to |
| `VerifiedReader.Reader.Consume` | internal/client/sandbox.gen.go:637-679 | for every chunking: end of file if and only if size and digest match; never more than the declared size |
| `VerifiedReader.Reader.ReadOn` | internal/client/sandbox.gen.go:637-640 | a read after an error returns an unverified end of file if and only if the error was a mismatch |
| `Uninstall.Directory.AcquireLock` | internal/cli/uninstall.go:67-91 | takes the lock only if nobody has it; without faults a refusal leaves no trace |
| `Uninstall.Directory.RemoveInstallation` | internal/cli/uninstall.go:117-186 | an error restores everything; a failed restore is reported with the staged receipt |
| `Uninstall.Directory.CleanUp` | internal/cli/uninstall.go:93-116 | adds exactly the journal and lock that stayed |
| `Uninstall.Directory.UnderLock` | internal/cli/uninstall.go:92-187 | residues are exactly the lifecycle files left |
| `Uninstall.Directory.RunUninstall` | internal/cli/uninstall.go:47-187 | an error leaves binary, receipt and a foreign lock as they were, and new files exactly where a removal failed; `removed` if and only if all was ready and nothing failed, and then nothing is left; otherwise every leftover is listed; binary and receipts are touched only under lock and journal |

## Left out

- HTTP clients, request plumbing and response validation: only the outcomes of calls are modelled.
- SHA-256, Ed25519 and base64: uninterpreted; distinct origins are taken to have distinct account digests, and stored keys to be decodable.
- Keychain and `secret-tool`, permission bits, `flock`, prctl and signals: only that they work or fail.
- The macOS backend choice, node plan and receipt validators, the other generators' marker checks, output formats and help: easy members or user interface.
- Acquiring the credential lock: a command that cannot get it does nothing, and the `Locked` methods model the rest.
- Session commands other than `start` and `finish`: they do not write the receipt; patch capture is one step that succeeds or fails.
- Power loss during receipt writes of a development session, whose directory is not synced: only process deaths are modelled there.
- The interval between reading and deleting in the release of the session lock: release is one step, and a process is identified by its ID and start time, which are not reused.
- Backend selections are one step each; two first selections racing on one machine are not modelled.
- Floating-point and arbitrary-precision numbers in canonical JSON, and text that is not valid UTF-8: documents have integers and Unicode scalar values.
- Quickstart listings of several pages: the code reads the first page of each registry listing, which is taken to be all of it; templates are paged.
- Idempotency keys of Quickstart's creations: a failed creation may or may not have taken place.
- Documents of the harness definition, harness version and profile: only the fields that later lookups compare.
- The installer's own recovery of a stale lock or journal, concurrent installers, and failing calls that nevertheless take effect, in the uninstall model; receipt parsing and hashing are one test that the receipt vouches for the binary.
- SchemaRefs.ValidateDocument: for documents other than the loaded ones acceptance is shown right only when names stand for one address, a sufficient condition.
- SessionCommands.Session.WriteReceipt: temporary file, sync and rename are one step, so that a receipt is never half-written is assumed here; `CredentialFiles` proves it for the same sequence of calls.
- RunWatch.Watcher.Watch: says nothing about a watch that polls a Run which never ends.
