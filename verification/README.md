# Verified model of go-claude-swap's credential handling

go-claude-swap moves one-time-use OAuth credentials between a live store,
per-account backups, session profiles and a stash, while a loop decides when to
switch accounts. This project models those parts in Dafny, one module group per
source file, and proves what they promise.

- **The consume gate** (`OAuth.dfy`, `Ids.dfy`, `ConsumeGate.dfy`,
  `GatePass.dfy`, `GateProtocol.dfy`, `GateWitness.dfy`). A class performs one
  pass step by step and refines a value specification; any number of passes,
  writers, crashes and failures then interleave in a transition system.
- **The switch transaction and its stores** (`Switcher.dfy`, `SwitchLaws.dfy`,
  `SwitchHistory.dfy`, `SelfSwitch.dfy`, `BackupStore.dfy`, `Session.dfy`).
- **The auto-switch loop** (`AutoSwitch.dfy`, `Readings.dfy`,
  `SwitchRuns.dfy`, `Burn.dfy`, `Cooldown.dfy`, `Quiet.dfy`).
- **The poll planner and backoff** (`Usage.dfy`).
- **Locks** (`Locks.dfy`).

Code that updates state is a class whose methods are proved equal to a function
on values; the theorems are lemmas about that function, over every input or
every run. Outcomes of foreign calls (locks, Keychain, files, the token
endpoint, the clock, randomness) are parameters, so a theorem holds for every
way they can fail, but for those that "Left out" names. Floating-point numbers are reals.

`dafny verify dfyconfig.toml` checks everything.

## Where the code and its comments differ

Each has a lemma; the model follows the code.

- The live Keychain item can outlive a switch: when its set and its delete fail
  and the file is written, the switch reports success and readers still see the
  account left, and the next switch can misfile it (`LiveLaws.SuccessShowsIff`,
  `SwitchHistory.ShadowMisfilesIff`, `SwitchWitness.ShadowedSwitch`,
  `SwitchWitness.ShadowMisfilesNext`).
- A process that gave up on the Keychain, or cannot read it, takes the file's
  answer for the login; the comment at internal/credentials/credentials.go:53-56
  says such bytes are never captured. The newest login can be lost
  (`LiveLaws.ReadsSeenIff`, `SwitchLaws.DegradedCapturedIff`,
  `SwitchLaws.UnreadLoginLostIff`,
  `SwitchWitness.PinnedSwitchDestroysLogin`,
  `SwitchWitness.DegradedReadIsCaptured`).
- A login whose account is in no slot is said to be stashed
  (internal/switcher/switcher.go:414-416), but goes over the active slot's backup
  while there is one (`SwitchLaws.MisfilesIff`, `SwitchLaws.MisownedIff`).
- An unforced switch to the account that is already live, after it rotated,
  re-installs its older generation (`SelfSwitch.SelfSwitchRegressesIff`).
- Rollback cannot restore an empty live store or a missing config
  (`SwitchLaws.RollbackRestoresIff`).
- A parked reply that did not rotate the refresh token can lead to a second
  POST of a spent token (`GateWitness.UnrotatedRowIsRespent`); so can a session
  profile that still shows one (`GateProtocol.RespendsIff`,
  `GateWitness.StaleProfileIsRespent`).
- A pass can report success while its slot still holds the spent generation; the
  comment at internal/switcher/consume.go:151-154 says it then defers
  (`GatePass.SuccessLeavesSpentIff`, `GateWitness.SuccessLeavesSpent`).
- A deleted backup can come back from a Keychain item an earlier write failed
  to delete, and a .prev file left from file mode shadows the Keychain's
  (`BackupHistory.DeleteResurrects`, `BackupHistory.PrevIsDisplacedIff`).
- `Invalidate` ignores a failed Keychain delete and clears the stale flag all the
  same, so an old session can undo a re-login (`SessionRuns.ExposesIff`,
  `SessionRuns.SilentDeleteFailureUndoesRelogin`,
  `SessionRuns.LaunchUndoesRelogin`).
- Least-bad's hysteresis is the sum of two margins, not twice one
  (`SwitchRuns.UnderTwiceTheMarginIff`).
- The Retry-After of a 401 that the same collection retries, or that ends in a
  strike, is never recorded (`UsageLaws.BreakableIff`,
  `UsageLaws.RetriedBeforeDeadline`).
- A limiting reset more than a minute past makes an exhausted active account due
  at once, without bound (`UsageLaws.DueAtOnceIff`,
  `UsageLaws.NoBudgetPastReset`).

## Model

| member | source | states |
|---|---|---|
| `OAuth.Successor` | internal/oauth/oauth.go:173-223 | A refreshed blob keeps every field it does not set (scopes only when the reply has a scope), and is a new generation exactly when the reply carries a different refresh token (section 6 of RFC 6749). |
| `OAuth.SuccessorExpiresIff` | internal/oauth/oauth.go:173-223 | A refreshed credential is expired from five minutes before the lifetime its reply gives it has passed, or exactly when the old one is if the reply gives none; it carries the reply's access token and scope, and its refresh token when there is one. |
| `OAuth.SameGenerationIff` | internal/oauth/oauth.go:159-169 | Two documents have one fingerprint exactly when they share a refresh token, or have none and are the same. |
| `GateProtocol.OneTimeUse` | internal/switcher/consume.go:115-205 | After any run of any number of gates, writers, profiles, crashes, timeouts and failing reads, writes and stashes, no gate POSTs a generation whose refresh already succeeded, unless its record was lost (tainted), a session profile brings a spent one back in this very pass, or a row on disk parks the generation itself. |
| `GateProtocol.NeverRespends` | internal/switcher/consume.go:115-205 | In a run none of whose steps loses a record, parks a generation under itself or brings back a spent one (each such step spelled out), whatever else fails, never. |
| `GateProtocol.RespendsIff` | internal/switcher/consume.go:165-205 | In every reachable state with nothing tainted, a pass POSTs a spent generation if and only if a session profile shows one that is ahead by its expiry and its adoption is stored and read back, or the row adopted parks the slot's own, since spent generation; and the early-out for a fresh token does not apply. |
| `GateProtocol.LosslessIsClean` | internal/switcher/consume.go:60-77 | Nothing but those steps taints, or leaves a row that parks its own generation. |
| `GateProtocol.StepKeepsInv` | internal/switcher/consume.go:161-245 | Every step keeps: a spent generation in a slot has a live stash row keyed by its fingerprint (or its reply still in hand), rows hold exactly the successor they were issued, and each consume lock has one holder. |
| `GateProtocol.RunKeepsInv` | internal/switcher/consume.go:100-245 | The invariant holds after every run from any clean start. |
| `GateProtocol.SuccessorIsFinal` | internal/switcher/consume.go:135-158 | A generation is spent once: no later step changes the successor recorded for it. |
| `GateProtocol.PendingPersistRecovery` | internal/switcher/consume.go:161-205 | From every reachable state with a spent, recorded generation in the slot, one pass whose backup, stash and roster I/O succeeds retires the earliest live row and installs what it parks, or a session profile's copy that is ahead of that; unless a row parks the generation itself, what is parked is exactly its successor, unspent, and it is what is POSTed when no profile is handed on. |
| `GateProtocol.InputIsUnspent` | internal/switcher/consume.go:165-205 | What the locked re-read hands to the POST is a spent, untainted generation only by way of a spent profile or of a row that parks it itself. |
| `GateProtocol.EnterRereads` | internal/switcher/consume.go:165-205 | A re-read leaves the spent history alone, removes only dead rows, and leaves in its slot the old generation or an unspent one, unless a spent one came back and is tainted. |
| `GateWitness.UnrotatedRowIsRespent` | internal/switcher/consume.go:211-245 | Counterexample: parking a reply that kept the refresh token, then a failed retire, then a rotating reply and a failed persist lead to a second POST of the spent token, because the older row sorts first. |
| `GateWitness.StaleProfileIsRespent` | internal/switcher/consume.go:190-204 | Counterexample: after a pass in which nothing fails, an unflagged profile that still shows the spent generation with a later expiry is adopted and POSTed. |
| `GatePass.OwnGenerationIff` | internal/switcher/consume.go:165-349 | With working backup, stash and roster I/O a pass hands on the slot's own generation if and only if no profile is handed on and no live row of it is left or the earliest one still carries the same refresh token, or the profile handed on carries it. |
| `GatePass.LiveRowIsAdopted` | internal/switcher/consume.go:266-285 | A slot with a live row is never handed on as it stands, whatever fails: a row of that generation is adopted or the pass defers. |
| `GatePass.UnhinderedAdopts` | internal/switcher/consume.go:165-297 | With such I/O the earliest live row is gone, and its bytes, or those of a profile ahead of them, are the slot's value and handed on (the profile's only when its write succeeded and was read back). |
| `GatePass.UnhinderedKeeps` | internal/switcher/consume.go:165-205 | Without a live row the same holds of the slot's own value. |
| `GatePass.RetiresOnlyDead` | internal/switcher/consume.go:287-349 | Whatever fails, a pass removes only rows that were adopted, have no bytes, or record a conflict with a generation the slot left; no other slot is touched. |
| `GatePass.RetireAllOnlyRemoves` | internal/switcher/consume.go:291-297 | Retiring changes no backup and no row outside its list, even when it stops half-way. |
| `GatePass.RetireAllPurges` | internal/switcher/consume.go:291-297 | When every purge succeeds, every listed row is gone. |
| `GatePass.InputCurrent` | internal/switcher/consume.go:165-205 | A successful re-read returns the slot's value (or leaves a newer profile copy there that it could not read back). |
| `GatePass.SuccessorNeverSilentlyLost` | internal/switcher/consume.go:60-77 | After a successful POST: no error means the successor is the slot's value or in a row keyed by (slot, consumed fingerprint); transient and stashed means the row exists; with neither copy the outcome says so, and says so only then for a new successor. |
| `GatePass.CompareAndSwap` | internal/switcher/consume.go:211-245 | A lineage installed during the POST is never overwritten, an emptied slot is never recreated, and otherwise the persist stores exactly the successor and nothing else changes. |
| `GatePass.SuccessLeavesSpentIff` | internal/switcher/consume.go:144-158 | Exactly when a pass reports success although the slot still holds the generation it spent: by the time of the persist the process has given up on the Keychain and finds no backup in the file, and the stash works. |
| `GateWitness.SuccessLeavesSpent` | internal/switcher/consume.go:144-158 | A concrete such pass. |
| `GatePass.SecondPassReturns` | internal/switcher/consume.go:115-135 | After a pass that stored its successor, a later caller that still has an older access token is given that successor and POSTs nothing until five minutes before its lifetime has passed; from then on it POSTs it. |
| `GatePass.InputKindIff` | internal/switcher/consume.go:165-205 | Why a locked re-read defers, exactly: the stash cannot be read, or the lock, the backup, the write of an adopted row or the roster fails. |
| `GatePass.UnpostedIff` | internal/switcher/consume.go:115-135 | Exactly when a pass reaches the token endpoint, and what it reports, with the disk of the re-read, when it does not. |
| `GatePass.RefusedIff` | internal/oauth/oauth.go:263-283 | What a pass reports of a reply without a credential: a dead lineage or client exactly for the two errors of section 5.2 of RFC 6749 under status 400, 401 or 403, and a transient failure otherwise; the disk is as the writers left it. |
| `GatePass.PersistOutcomeIff` | internal/switcher/consume.go:211-245 | After a refresh, by what became of the slot during the POST: whether the pass succeeds, which credential it returns, whether it reports a stashed one, and the row with its reason that it leaves. |
| `GatePass.UnhinderedRetires` | internal/switcher/consume.go:266-297 | A pass that can write removes every row of its slot that nobody could adopt and that sorts before the row it adopts. |
| `GatePass.RetireStops` | internal/switcher/consume.go:291-297 | Retiring stops where a file cannot go or the manifest is locked; no later row is touched. |
| `ConsumeGate.GateStore.ConsumeLocked` | internal/switcher/consume.go:115-159 | The step-by-step pass, with writers in the middle, computes the specified disk and outcome. |
| `ConsumeGate.GateStore.GateInput` | internal/switcher/consume.go:165-205 | The locked re-read: adoption first, then the profile, every failure deferring. |
| `ConsumeGate.GateStore.PersistSuccessor` | internal/switcher/consume.go:211-245 | Persist or park, with the reason of each branch. |
| `ConsumeGate.GateStore.AdoptStashedSuccessor` | internal/switcher/consume.go:266-285 | Write the found row back, then retire; a failed write retires nothing. |
| `ConsumeGate.GateStore.ScanStash` | internal/switcher/consume.go:313-349 | The scan finds the least readable matching row and exactly the retirable rows before it; it fails when only unreadable matches exist, or the manifest cannot be read or is corrupt with entry files about. |
| `ConsumeGate.GateStore.ScanRows` | internal/switcher/consume.go:327-348 | The loop of the scan over the slot's rows in id order. |
| `GateSpec.ScanStash` | internal/switcher/consume.go:299-349 | What a scan means, by quantifiers over the rows and not by a loop: the least adoptable row, and the rows no pass could adopt that sort before it. |
| `GateSpec.ScanUnique` | internal/switcher/consume.go:299-349 | That meaning determines the result. |
| `ConsumeGate.GateStore.RetireStashRows` | internal/switcher/consume.go:291-297 | Purges in order and stops at the first failure. |
| `ConsumeGate.GateStore.PurgeUnclaimed` | internal/switcher/unclaimed.go:68-102 | File first, then the manifest row; each partial outcome and its return value. |
| `ConsumeGate.GateStore.StashCredential` | internal/switcher/switcher.go:906-957 | Entry file first, then the row; an unreadable manifest is replaced. |
| `LiveLaws.SuccessShowsIff` | internal/credentials/credentials.go:144-175 | A live write that reports success is what readers see if and only if no old Keychain item stays in front of the file; otherwise they see what they saw. |
| `LiveLaws.FailureShowsIff` | internal/credentials/credentials.go:144-175 | Exactly when a live write that reports failure changes what readers see. |
| `LiveLaws.ReadsSeenIff` | internal/credentials/credentials.go:72-109 | Exactly when a switch reads the login that Claude Code reads: the item is readable to an unpinned process, or says no more than the file. |
| `SwitchLaws.AllOrNothing` | internal/switcher/switcher.go:431-460 | With a login read, a parseable config and rollback writes that report success, success names the target in config and pointer and any other outcome leaves both as they were; readers see the credential that goes with it if and only if no item is left in front (or, for a failed write, slipped through). |
| `SwitchLaws.RollbackRestoresIff` | internal/switcher/switcher.go:431-443 | What a rollback cannot restore, exactly: a live store that read as empty, a login put back behind an item, and a config file that did not exist and was written. |
| `SwitchLaws.NothingDestroyed` | internal/switcher/switcher.go:373-446 | When an unforced switch got as far as the live store, the bytes it read are in the outgoing backup or the stash, or were the target's own or a wiped blob; no other backup moved. |
| `SwitchLaws.UnreadLoginLostIff` | internal/switcher/switcher.go:373-460 | A login readers see and the switch did not read is gone after a switch, whatever the switch reports, exactly when it gets as far as writing the live store and the forward write, or the rollback's, does not leave the Keychain item alone. |
| `SwitchLaws.OutcomeIff` | internal/switcher/switcher.go:272-471 | Which of success, rollback and failed write a switch ends in, by what is there and which calls succeed. |
| `SwitchLaws.StoredIff` | internal/switcher/switcher.go:398-430 | Exactly when a switch stores the bytes it read as the login, and where: under the slot of the config's identity, under the active one when it has none, or in the stash. |
| `SwitchLaws.DegradedCapturedIff` | internal/credentials/credentials.go:53-56 | Exactly when bytes that are not the login readers see, which the comment says are never captured, are stored. |
| `SwitchLaws.MisownedIff` | internal/switcher/switcher.go:398-430 | For any owner of the login read: exactly when a switch stores it under a slot that is not its owner's. |
| `SwitchLaws.MisfilesIff` | internal/switcher/switcher.go:378-430 | Exactly when a switch overwrites the backup of a slot whose account the config does not name, and that the login is then not stashed: the config names an account of no slot while some slot is active. |
| `SwitchLaws.PreserveShape` | internal/switcher/switcher.go:403-430 | Before the first overwrite only the outgoing slot's two backups, or the stash, change. |
| `SwitchLaws.SwitchKeepsCopies` | internal/switcher/switcher.go:431-471 | The transaction itself touches no backup, no stash and no roster. |
| `SwitchLaws.KeyLeftIff` | internal/credentials/credentials.go:144-175 | Exactly when a managed API key is in the config after a switch, for each outcome and for a readable, a missing and a torn config: after a success it is still there exactly when clearing it failed; after a rollback also when the old text was put back and the rollback did not clear it; otherwise the config is as it was. |
| `SwitchLaws.MissingMaterialDeclines` | internal/switcher/switcher.go:345-371 | Without the target's config backup or credential nothing is changed. |
| `SwitchLaws.RenewedWins` | internal/switcher/switcher.go:345-352 | A credential the gate has just renewed is activated, not the stored one. |
| `SwitchLaws.UnreadableConfigDeclines` | internal/switcher/switcher.go:378-381 | A config that cannot be read stops the switch with nothing changed. |
| `SwitchLaws.UnidentifiedIsStashed` | internal/switcher/switcher.go:398-430 | A login whose config names nobody is stashed, with no backup changed, before an unforced switch overwrites it. |
| `SwitchLaws.OwnBytesNeedNoWrite` | internal/switcher/switcher.go:398-430 | Live bytes that are already the backup need no write for the switch to go on. |
| `SwitchLaws.OutgoingConfigKept` | internal/switcher/switcher.go:398-430 | An unforced switch away that gets to the live store has kept the live config as the outgoing slot's. |
| `SwitchLaws.NoFileIsMade` | internal/credentials/credentials.go:144-175 | Where the Keychain takes the credential no file is made, and one that is there is brought up to date. |
| `SwitchLaws.MergedFields` | internal/credentials/credentials.go:264-288 | A merge takes exactly the machine's five named fields from the live login, absence included. |
| `SwitchHistory.MachineStateSurvives` | internal/credentials/credentials.go:264-288 | Over any run of switches that see the login, renewals and rotations, failed, forced and shadowed ones included, the shared blob fields readers see and every config key but two never change. |
| `SwitchHistory.SharedChangesIff` | internal/credentials/credentials.go:264-288 | Exactly when one switch changes the shared fields readers see, over every outcome: the login it read and put back, or the target's with that login's shared fields, is what they then see and has others. |
| `SwitchHistory.GoneShows` | internal/switcher/switcher.go:431-471 | What readers see after a switch that gets to the live store: the login read, the target's credential, or what they saw. |
| `SwitchHistory.MergedShares` | internal/credentials/credentials.go:269-288 | A merge keeps the target's account fields and takes every shared field from the live blob, absence included. |
| `SwitchHistory.ActivateShows` | internal/switcher/switcher.go:431-460 | Whatever happens in the transaction, readers see the login it started from or the target's merged credential. |
| `SwitchHistory.SwitchedIsScoped` | internal/switcher/switcher.go:431-450 | After a switch that leaves no shadow the account fields readers see are exactly the target's stored ones and the shared fields the machine's. |
| `SwitchHistory.ShadowNamesTarget` | internal/switcher/switcher.go:431-460 | After a success that leaves a shadow the config and the outgoing slot are the target's while readers see the login left. |
| `SwitchHistory.ShadowMisfilesIff` | internal/switcher/switcher.go:398-413 | From such a state, exactly when the next switch stores that login as the target's backup. |
| `SwitchHistory.NewestGenerationKept` | internal/switcher/switcher.go:272-471 | Over any run of unforced switches between different slots that see the login and leave no shadow, of gate renewals and of in-place rotations, the newest generation of every account is what readers see or its backup. |
| `SwitchHistory.SwitchKeepsBalance` | internal/switcher/switcher.go:373-460 | One such switch, whatever else fails in it, keeps that ledger. |
| `SelfSwitch.SelfSwitchIff` | internal/switcher/switcher.go:280-297 | Exactly which reads, copies and writes let a switch to the live slot go through, forced or not. |
| `SelfSwitch.SelfSwitchRegressesIff` | internal/switcher/switcher.go:280-297 | Such a switch makes another generation live if and only if the login rotated past the stored one and it goes through; it is then the stored, older one, and otherwise readers see what they saw. |
| `SwitchWitness.SelfSwitchHappens` | internal/switcher/switcher.go:280-297 | A concrete unforced self-switch that regresses. |
| `SwitchWitness.ShadowedSwitch` | internal/credentials/credentials.go:153-174 | A concrete switch that reports success while readers still see the account left: the set and the delete fail, the file is written. |
| `SwitchWitness.ShadowMisfilesNext` | internal/switcher/switcher.go:399-413 | The next switch then stores that account's login as the other's backup, and the other's own is gone. |
| `SwitchWitness.PinnedSwitchDestroysLogin` | internal/credentials/credentials.go:62-68 | A process pinned to file mode reads no login, keeps nothing and drops the item: the newest generation is lost. |
| `SwitchWitness.DegradedReadIsCaptured` | internal/credentials/credentials.go:53-56 | An unreadable item makes a switch back up the file's older bytes, which the comment there rules out. |
| `SwitchWitness.UnknownLoginOverwritesActive` | internal/switcher/switcher.go:414-428 | A login of no slot goes over the active slot's backup and is not stashed. |
| `Switcher.MergeInPlace` | internal/credentials/credentials.go:269-288 | The loop that edits the target object equals the map law of the merge. |
| `Switcher.Stores.FindByIdentity` | internal/account/account.go:206-217 | The loop returns the first slot with the identity that it meets, or none when there is none. |
| `Switcher.Stores.FindLogin` | internal/switcher/switcher.go:384-388 | The slot of the account the live config names. |
| `Switcher.Stores.ReadActive` | internal/credentials/credentials.go:72-109 | Item over file for an unpinned process; a failed item read falls to the file. |
| `Switcher.Stores.WriteActive` | internal/credentials/credentials.go:144-175 | Item set with the file refreshed; or, pinned or after a failed set, the file written and the item deleted best-effort; then the other auth axis cleared. |
| `Switcher.Stores.BackupConfig` | internal/switcher/switcher.go:526-531 | The live config text, when there is one, becomes the slot's. |
| `Switcher.Stores.BackupOutgoing` | internal/switcher/switcher.go:518-550 | Wiped or unchanged credentials are not rewritten; the config backup follows. |
| `Switcher.Stores.Preserve` | internal/switcher/switcher.go:398-430 | An identified login goes into the backup of its slot, or of the active one when it has none; without an identity or an active slot it is stashed. |
| `Switcher.Stores.Prepare` | internal/switcher/switcher.go:373-430 | Everything up to the first overwrite of the live store, and whether it may go on. |
| `Switcher.Stores.Rollback` | internal/switcher/switcher.go:431-443 | Config first, then the live credential, both best-effort. |
| `Switcher.Stores.Transact` | internal/switcher/switcher.go:431-471 | The writes with their rollback. |
| `Switcher.Stores.IsActive` | internal/switcher/switcher.go:282-297 | The guard before the locks; an unreadable live store counts as already active. |
| `Switcher.Stores.PerformSwitch` | internal/switcher/switcher.go:272-471 | The whole switch computes the specified machine and outcome. |
| `BackupHistory.ReadsNeverOlder` | internal/credentials/credentials.go:296-378 | Over any history of writes by any processes, Keychain sets, deletes and file removals failing at will, no read by anyone is older than the last write that reported success. |
| `BackupHistory.SuccessIsReadBack` | internal/credentials/credentials.go:352-378 | Right after a reported success, an unpinned reader reads that write. |
| `BackupHistory.FileBackendIsMap` | internal/credentials/credentials.go:296-404 | Over every fault-free history of writes and deletes on the file backend the store is exactly a map: a read answers with the last operation on its own key, and the previous generation is the value that one displaced. |
| `BackupHistory.PrevIsDisplacedIff` | internal/credentials/credentials.go:380-392 | On the Keychain backend the previous value is the displaced one exactly when no stale .prev file shadows it. |
| `BackupHistory.DeleteExposesOlderIff` | internal/credentials/credentials.go:396-404 | Exactly when a delete brings an older value back. |
| `BackupHistory.DeleteResurrects` | internal/credentials/credentials.go:396-404 | A concrete history that reaches it. |
| `BackupHistory.ReadIff` | internal/credentials/credentials.go:308-334 | A backup is called absent only when every place was read, and unreadable only when what is missing may be there. |
| `BackupHistory.DisplacedIsKept` | internal/credentials/credentials.go:380-392 | A displaced value is kept somewhere whenever its file can be written, whatever the Keychain does. |
| `BackupHistory.PinnedWritesFile` | internal/credentials/credentials.go:356-377 | A process whose set failed has given up on the Keychain, no other has, and what it stores from then on is in the file. |
| `BackupHistory.ItemLeftIff` | internal/credentials/credentials.go:366-377 | A write to the file leaves an item behind it exactly when the delete fails and there was one or one had landed. |
| `BackupHistory.KeychainWriteIff` | internal/credentials/credentials.go:356-365 | A value the Keychain took is reported stored exactly when no older file is left to win over it. |
| `BackupStore.Process.ReadStore` | internal/credentials/credentials.go:306-330 | File over Keychain; a pinned process never asks the Keychain. |
| `BackupStore.Process.RetainPrev` | internal/credentials/credentials.go:380-392 | Keeps the displaced value on the tier in use. |
| `BackupStore.Process.WriteBackupKeepSession` | internal/credentials/credentials.go:352-378 | Keychain with the file removed or rewritten, else the file with the Keychain item deleted, and pinning. |
| `BackupStore.Process.DeleteBackup` | internal/credentials/credentials.go:396-404 | Best-effort removal of both copies on both tiers. |
| `SessionRuns.ReloginNeverUndone` | internal/switcher/session.go:246-317 | After any run of backup writes, launches, in-profile rotations and logins, removals and adoptions in which no step exposes an old session, an unflagged profile shows only lineages that began no earlier than the last non-adopting backup write, and an adoption never goes back before it and only moves to a later expiry, from an idle, unflagged, undrifted profile. |
| `SessionRuns.ExposesIff` | internal/session/session.go:322-404 | For every step, exactly when it leaves an unflagged profile showing a credential from before the last backup write; all other steps keep the invariant. |
| `SessionRuns.WriteExposesIff` | internal/session/session.go:336-344 | The condition for a backup write, over flagged and unflagged, busy and idle profiles. |
| `SessionRuns.LaunchExposesIff` | internal/switcher/session.go:128-176 | The condition for a launch: it clears the flag over an old item the delete missed and then reuses or wrongly seeds the profile, or re-creates one where an old item was left. |
| `SessionRuns.AdoptUndoesIff` | internal/switcher/session.go:255-317 | Exactly when an adoption puts the backup back before its last write. |
| `SessionRuns.ExposedIff` | internal/session/session.go:241-261 | Exposure is about what some reader of the profile sees. |
| `SessionRuns.RunKeepsInv` | internal/session/session.go:322-344 | The coherence invariant over those runs. |
| `SessionRuns.SilentDeleteFailureUndoesRelogin` | internal/session/session.go:322-329 | Counterexample: Invalidate ignores a failed Keychain delete, and the old lineage is adopted over a re-login. |
| `SessionRuns.LaunchUndoesRelogin` | internal/session/session.go:322-329 | Counterexample in which the re-login did set the flag: a later launch clears it over the item its delete missed. |
| `SessionRuns.DriftHealsIff` | internal/session/session.go:360-404 | A profile re-pointed at another account is the slot's own again exactly when a launch seeds it to the end. |
| `SessionRuns.SeedingIff` | internal/session/session.go:360-404 | What a seeding leaves, by how far it got. |
| `SessionProfile.ProfileDir.Invalidate` | internal/session/session.go:322-329 | Seed unlinked, Keychain item deleted best-effort, flag cleared. |
| `SessionProfile.ProfileDir.AfterBackupWrite` | internal/session/session.go:336-344 | Flag a busy profile; drop an idle one, flagging it when that fails. |
| `SessionProfile.ProfileDir.Bootstrap` | internal/session/session.go:364-404 | Seeds a profile from the backup, with each point at which it can stop. |
| `SwitchRuns.FrozenReadingsSettle` | internal/autoswitch/engine.go:304-486 | With frozen readings and clock, any strategy and any ranked candidate taken each time, a run of any length commits at most 2n - 1 switches over n accounts. |
| `SwitchRuns.SettledRunSwitches` | internal/autoswitch/engine.go:404-486 | Once the burn tracker knows only frozen readings, at most as many switches as accounts above the live one. |
| `SwitchRuns.SwitchClimbs` | internal/autoswitch/engine.go:404-486 | Every switch no projection asked for climbs one order: unhealthy by headroom, then healthy by reset or pace. |
| `SwitchRuns.SettledNeverProjects` | internal/autoswitch/burn.go:85-116 | A tracker with one frozen measurement never projects a crossing. |
| `SwitchRuns.LeastBadReturnBurnsBothMargins` | internal/autoswitch/engine.go:457-486 | A least-bad move is undone only after the new account burned both margins. |
| `SwitchRuns.ReturnsIff` | internal/autoswitch/engine.go:457-486 | A least-bad move and its return, exactly, in terms of the three headrooms. |
| `SwitchRuns.UnderTwiceTheMarginIff` | internal/autoswitch/engine.go:465-467 | For a given headroom of the account left and of the one entered at the end, a return after burning less than twice the entry margin, which the comment rules out, is possible if and only if the gap between them lies between the two margins. |
| `SwitchRuns.LeastBadReturnBelowTwiceTheMargin` | internal/autoswitch/engine.go:465-467 | Concrete readings that meet the condition. |
| `SwitchRuns.FailoverIff` | internal/autoswitch/engine.go:332-342 | Over any readings, a failover is asked for exactly when the last unhealthyTicks ticks in a row had no measurement. |
| `SwitchRuns.TargetsAreSafe` | internal/autoswitch/engine.go:304-486 | A target is measured with headroom left, or an API key when nothing measured ranked and the tick was not merely discretionary; leaving a usable account leads to a healthy one or, as a least-bad move, to strictly more headroom. |
| `SwitchRuns.StrandedIff` | internal/autoswitch/engine.go:304-455 | Past the limit or unmeasurable, there is no target exactly when no candidate has measured headroom and there is no API key. |
| `SwitchRuns.BlockedIff` | internal/autoswitch/engine.go:304-486 | Past the threshold under the best strategy, exactly when a tick has nowhere to go. |
| `SwitchRuns.DecisionByUse` | internal/autoswitch/engine.go:332-364 | What a tick on a measured account asks for, by the percentage used, both ways for every trigger: nothing exactly below the threshold, unprojected, under best. |
| `SwitchRuns.PastThresholdMoves` | internal/autoswitch/engine.go:304-486 | The loop leaves a full account: a tick past the threshold acts; at the limit it has a target whenever any candidate has headroom, and the first has the most; short of it whenever one is clearly better, or under best healthy and ahead by the hysteresis. |
| `SwitchRuns.TargetsInOrder` | internal/autoswitch/engine.go:404-495 | Measured targets come by headroom for forced and least-bad moves and under best, by the soonest weekly reset under consume-first, by the highest weekly pace under balance; equals by slot. |
| `SwitchRuns.RankedIff` | internal/autoswitch/engine.go:404-455 | Who ranks, exactly, by strategy and trigger, in terms of headrooms, resets and paces. |
| `SwitchRules.RankMeaning` | internal/autoswitch/engine.go:404-495 | A ranking holds exactly the admitted candidates, with no one before a strictly better one; TargetsInOrder says what better is. |
| `Readings.HeadroomIsTightest` | internal/usage/usage.go:262-280 | Headroom is what the fullest window leaves, and unknown only without a window. |
| `Readings.SevenDayMeaning` | internal/autoswitch/engine.go:497-503 | The weekly reset is that of the seven-day window, 0 when there is none. |
| `Readings.PaceMeaning` | internal/autoswitch/balance.go:38-63 | The weekly pace spends exactly what the fullest weekly window has left by its reset, that taken as an hour to a week away. |
| `Readings.ProjectsIff` | internal/autoswitch/burn.go:85-116 | A crossing is projected exactly when the account is measured, below the threshold and burning, and reaches it no later than the engine can act on its next measurement. |
| `Readings.PickMeaning` | internal/autoswitch/engine.go:366-399 | The candidates are exactly the other, enabled, switchable, unquarantined slots with a usable credential. |
| `Readings.PickKeepsOrder` | internal/autoswitch/engine.go:366-399 | They keep the order in which they were collected. |
| `AutoSwitch.Engine.DecideTrigger` | internal/autoswitch/engine.go:332-364 | The trigger, the unhealthy counter and the outcome of every branch. |
| `AutoSwitch.Engine.Rank` | internal/autoswitch/engine.go:404-455 | The append loop and sort compute the specified ranking. |
| `AutoSwitch.Engine.RankBalance` | internal/autoswitch/balance.go:65-114 | The balance strategy's admission and order. |
| `AutoSwitch.Engine.LeastBad` | internal/autoswitch/engine.go:468-486 | Admission by half-headroom or hysteresis, best first. |
| `AutoSwitch.Engine.SelectTargets` | internal/autoswitch/engine.go:304-319 | Ranked targets, else least-bad ones, else API keys, by trigger. |
| `AutoSwitch.Engine.Candidates` | internal/autoswitch/engine.go:366-399 | The OAuth candidates in the order collected, and the API keys, when included, by slot. |
| `AutoSwitch.Engine.ProjectCrossing` | internal/autoswitch/burn.go:89-116 | Feeds the tracker and projects the rate over the lookahead. |
| `AutoSwitch.WeeklyPace` | internal/autoswitch/balance.go:38-59 | The loop computes the pace of the binding weekly window. |
| `AutoSwitch.BindingIsFullest` | internal/autoswitch/balance.go:38-59 | That window is weekly and the fullest, and is missing only when there is none. |
| `Cooldown.CooldownHolds` | internal/autoswitch/engine.go:620-663 | In any interleaving of engines over one state file, each load, check, switch and save a step, every proactive-like commit comes at least its engine's cooldown after every recorded commit before it. |
| `Cooldown.MutationKeepsSwitchFields` | internal/autoswitch/state.go:76-89 | A quarantine update between them never moves the record's switch fields. |
| `Cooldown.RecordTells` | internal/autoswitch/engine.go:620-663 | Over every interleaving the shared record is that of the last recorded commit: when, from and to which account, and what was left behind. |
| `SwitchState.AllowedIff` | internal/autoswitch/engine.go:697-708 | Forced switches never wait; the others until the cooldown since the last recorded switch has passed. |
| `SwitchState.StateFile.CommitSwitch` | internal/autoswitch/engine.go:620-663 | Re-check, switch, stamp with what was left behind, and save, under the lock. |
| `SwitchState.StateFile.MutateQuarantine` | internal/autoswitch/engine.go:712-726 | Read-modify-write of the record. |
| `Burn.RateMeaning` | internal/autoswitch/burn.go:62-83 | Over every history the rate exists exactly when two samples span 60 s in all, is never negative, and is the greater of the candidate slopes. |
| `Burn.HistoryWellformed` | internal/autoswitch/burn.go:36-60 | Samples rise strictly in time, never fall in utilization, and lie within 20 minutes of the last. |
| `Burn.ObservedWellformed` | internal/autoswitch/burn.go:40-60 | One call keeps that, restarts on another account and ignores an old measurement. |
| `Burn.BurnTracker.Observe` | internal/autoswitch/burn.go:40-60 | The trimming loop computes the specified samples. |
| `QuietLaws.QuietIsStutterEquivalent` | internal/autoswitch/quiet.go:46-83 | The quiet log is an ordered subsequence with every other-kind event, and the same succession of poll summaries and of no-switch decisions, for every event sequence. |
| `QuietLaws.HeartbeatIff` | internal/autoswitch/quiet.go:46-74 | A poll is printed at once if and only if its summary changed or a heartbeat has passed since the last printed one; otherwise it is held. |
| `Quiet.QuietSink.Emit` | internal/autoswitch/quiet.go:46-74 | The new sink state and output. |
| `Quiet.QuietSink.Flush` | internal/autoswitch/quiet.go:76-83 | A held poll is printed once. |
| `UsageLaws.GapAfterUnclamped` | internal/usage/poll.go:62-108 | In any run, the next success after a saved one whose plan no reset pulled in below a floor of up to 135 s comes at least the floor later. |
| `UsageLaws.StretchSpaced` | internal/usage/poll.go:62-108 | Over any stretch of any run whose successes are saved with plans that keep the floor, they are spaced by it. |
| `UsageLaws.AtMost27PerHour` | internal/usage/poll.go:58-108 | In any run of collections with their 401 retries, lost records, strikes and heals, at most 27 successful fetches of a row fall in an hour whose successes were saved with plans no reset pulled in below 135 s, whatever came before or after. |
| `UsageLaws.AtMost61PerHour` | internal/usage/poll.go:100-108 | With every success of the stretch saved and its resets ahead, clamps included, at most 61 fall in an hour. |
| `UsageLaws.NoBudgetPastReset` | internal/usage/poll.go:92-106 | Counterexample for every n: a run with n successful fetches of one exhausted active row in one instant, its limiting reset past. |
| `UsageLaws.PlanNeverOverslept` | internal/usage/poll.go:130-152 | Over any run the stored interval stays in [150, 1800] and no plan the planner wrote is taken for an obsolete one. |
| `UsageLaws.PlanBounds` | internal/usage/poll.go:62-108 | A plan is at most a tenth past its cadence, and earlier than 135 s exactly when a reset pulls it in. |
| `UsageLaws.InactiveKeepsTtl` | internal/switcher/collect.go:224-233 | An inactive row is not collected within the serve TTL of a saved success, whatever the resets. |
| `UsageLaws.NextFetchIff` | internal/switcher/collect.go:154-162 | After a success the next fetch may start exactly from the planned instant on, and for an inactive row not within the serve TTL. |
| `UsageLaws.DueAtOnceIff` | internal/usage/poll.go:92-106 | The exception to the spacing, exactly: the active row is due the moment it is planned if and only if it is exhausted and its limiting reset is a minute past. |
| `UsageLaws.DeadlinesHonoured` | internal/usage/store.go:225-254 | No collection of a row ever starts before min(r, 4500) s after a recorded 429 with Retry-After r, or min(r, 3600) s after another recorded failure, whatever happens to the row in between. |
| `UsageLaws.BreakableIff` | internal/switcher/collect.go:185-212 | Exactly when a failed reply's deadline does not hold: a 401 retried in the same collection after the gate returned a usable credential, one after which the gate found the lineage dead, or a failure whose record was not saved. |
| `UsageLaws.RetriedBeforeDeadline` | internal/switcher/collect.go:191-202 | A concrete 401 that asks for a minute and is retried at once, its deadline never recorded. |
| `UsageLaws.UnsavedBeforeDeadline` | internal/switcher/collect.go:291-301 | A concrete rate limit whose lost record lets the same request out again at once. |
| `UsageLaws.BackoffGrows` | internal/usage/store.go:231-254 | Without Retry-After the backoff stays in [30, 600] and never falls as failures go on. |
| `UsageLaws.BackoffMeaning` | internal/usage/store.go:231-254 | How long a failure parks a row: the longer of the exponential of the failures in a row and what the server asks, each with its bounds. |
| `UsageLaws.FailuresAreStreak` | internal/usage/store.go:186-210 | Over any run the row counts exactly the failures recorded since its last saved success. |
| `UsageLaws.StruckIsLeft` | internal/switcher/collect.go:154-183 | Over any run a struck credential is not collected until it is healed, measured anew or another one is struck. |
| `UsageLaws.GateIsSpared` | internal/switcher/collect.go:185-212 | A 401 leads to a second request, or to a strike, exactly on an inactive account that no session owns, by the gate's answer. |
| `UsageLaws.PacedAfter429` | internal/usage/poll.go:62-98 | Within the window of a 429 the interval is at least six minutes, and at least half as long again as before, up to the cap. |
| `UsageLaws.GapAfter429` | internal/usage/poll.go:62-108 | In any run, after a saved success in that window, no collection starts for 324 s unless a reset pulls the plan in. |
| `UsageLaws.RecentIff` | internal/usage/poll.go:110-123 | That window: an hour past the end of the park until a success, then an hour past the 429 itself. |
| `UsageLaws.RecentFor` | internal/usage/poll.go:110-123 | Over any run, whatever happens to the row, it lasts at least an hour from a recorded 429. |
| `UsageLaws.ShrinksIff` | internal/usage/poll.go:62-98 | When the interval shrinks, exactly: on movement, to no less than three minutes or, when urgent, two and a half; on unknown movement to the default; when idle to the ceiling. |
| `UsageLaws.FloorIff` | internal/usage/poll.go:62-98 | It is below three minutes exactly when urgent and not exhausted, and then two and a half; at least ten when exhausted. |
| `UsageLaws.MovingHalves` | internal/usage/poll.go:62-98 | Movement without urgency halves it, down to three minutes. |
| `UsageLaws.IdleReachesCeiling` | internal/usage/poll.go:62-98 | After at most four idle plans in a row it is at its ceiling. |
| `UsageLaws.ResetPullsIn` | internal/usage/poll.go:92-108 | A plan is never later than a minute after the reset it waits for, and is only moved there. |
| `UsageLaws.PlanHoldsIff` | internal/usage/poll.go:130-152 | A plan ahead holds a row back exactly as far as the planner itself could have put it. |
| `UsageLaws.PlansFromItsRow` | internal/switcher/collect.go:246-289 | A success plans from the row's own interval and the account's own pace. |
| `Usage.PlanAfterFetch` | internal/usage/poll.go:62-108 | The step-by-step planner equals the specified plan and cadence. |
| `Usage.Entry.RecordSuccess` | internal/usage/store.go:186-196 | Clears failure state and strikes. |
| `Usage.Entry.RecordFailure` | internal/usage/store.go:199-210 | Counts, remembers a 429 and sets the backoff. |
| `Usage.Entry.RecordAuthDead` | internal/usage/store.go:214-218 | Strikes the fingerprint. |
| `Usage.Entry.ClearDeadToken` | internal/usage/store.go:221-224 | Lifts the strike. |
| `Usage.Entry.PersistSuccess` | internal/switcher/collect.go:246-289 | The planner is fed with what the row was before the success was recorded. |
| `Usage.Entry.Collect` | internal/switcher/collect.go:144-222 | One collection: no request unless the row is due, at most one retry and only of a 401 the gate may heal, and only the last reply or the strike recorded. |
| `Locks.AcquireAll` | internal/locks/locks.go:162-174 | Success holds all; failure, by deadline or by another mkdir error, holds none and leaves the lock directories exactly as the other processes alone would have, for every schedule of theirs. |
| `Locks.ReleaseAll` | internal/locks/locks.go:176-181 | A caller that holds them all gives up exactly these. |
| `Locks.DirLock.Acquire` | internal/locks/locks.go:93-116 | Mkdir succeeds at the first attempt that finds the directory absent, before the deadline and before any other error. |
| `Locks.TakesIff` | internal/locks/locks.go:93-116 | The lock is taken exactly when some attempt finds the directory gone before any is broken. |
| `Locks.DirLock.Release` | internal/locks/locks.go:134-141 | Removes the directory whoever made it, so it must be called by holders only. |
| `LockOrder.PathsRanked` | internal/switcher/switcher.go:317-335 | Each locking path takes its locks in one strict order: engine state, slot consume, cswap, refresh, legacy, config, manifest, usage. |
| `LockOrder.CommitHoldsState` | internal/autoswitch/engine.go:620-663 | A switch holds cswap's lock and all three of Claude Code's together, and an engine's commit holds the state lock as well. |
| `LockRuns.NoWaitCycle` | internal/locks/locks.go:143-160 | With any number of processes running any sequences of these paths, no chain of waiting processes closes on itself. |
| `LockRuns.OneHolder` | internal/locks/locks.go:18-24 | A lock has at most one holder in every reachable state. |
| `LockRuns.RunsFinish` | internal/locks/locks.go:36-57 | Every run is bounded by its code's size, and one that could go on only by timeouts is over: all processes done, all locks free. |

## Left out

- Refresh, ParseBlob, MarshalBlob: the HTTP exchange, JSON text, base64 and SHA-256 are foreign; a credential is its modelled fields with the rest carried along, and a fingerprint is injective on refresh tokens. Scopes are carried as the reply's text.
- A reply lost on the way (the endpoint rotated but the answer never arrived) counts as not succeeded, here as in the program.
- GateProtocol.OneTimeUse: says nothing about tainted generations. The taints, each a step of the model, are a pass that ends neither stored nor stashed, a crash between reply and persist, a row removed by hand, a stash that replaces a manifest it cannot read, a session profile or a writer that brings a spent generation back into its slot, and a generation POSTed again by way of a row that parks it itself.
- GateProtocol.StepKeepsInv: no two slots share a refresh token, in backups, profiles or what writers bring. Writers that do not take cswap's lock act while a POST is in flight but not between a locked read and its write; a locked section is one step.
- ConsumeGrant: the missing-directory and busy-lock outcomes, which touch nothing.
- recoverFromPrev: it POSTs the previous generation outside the gate, so one-time use is about gate passes only.
- Move: stash rows are keyed by slot and do not follow it.
- SwitchLaws.AllOrNothing: the OAuth axis only; a managed API key is neither read as a login nor activated (writeActiveAPIKey), and of the other axis the config's key is modelled (KeyLeftIff) but not the Keychain's managed-key item.
- SwitchHistory.NewestGenerationKept: unforced switches between different slots using the stored credential. Renewals happen before a switch's locks and rotations between switches, out of which Claude Code's own locks keep them.
- SwitchLaws.OutcomeIff, and the conditions built on it, are for switches that got past the early returns of internal/switcher/switcher.go:273-341: a session shell, a session profile that cannot be reconciled, a target the gate could not freshen, a lock that timed out, a roster that cannot be loaded. None of them touches a login, a config or a backup, but for what the gate and the profile adoption do.
- Switcher.Stores.PerformSwitch: the lookups before and under the locks meet the roster in one order, which matters only when two slots carry one identity.
- SwitchRuns.FrozenReadingsSettle: API-key accounts have no headroom and are not candidates in it, since failover may alternate between two of them.
- SessionRuns.ReloginNeverUndone: for runs without an exposing step, of which ExposesIff gives the exact condition. A backup write and the profile's reaction are one step.
- SessionProfile.ProfileDir.Invalidate: a symlinked profile's second Keychain item, and the legacy stale marker inside a profile.
- BackupStore.Process.DeleteBackup: the legacy account-None item, which is deleted but never read.
- UsageLaws.AtMost27PerHour: for hours without a reset clamp below 135 s, whose successes are saved; PlanBounds gives the exact condition for one plan, AtMost61PerHour and NoBudgetPastReset what is left beyond it. Rows are updated by one process at a time, and times are whole seconds.
- UsageLaws.DeadlinesHonoured: what was saved is read back. A store file that cannot be read, or has another version, loads as empty, and every row is due then.
- DecisionValue: which stored measurement still counts; readings arrive here as decision-grade or not.
- History files, log rotation, settings parsing, alias validation, directory mappings and the MCP mirror's content: they take no part in the properties above.
- pollKey: the text of the key; a key is whatever the event carries.
- Locks.DirLock.Acquire: stealing a stale lock (the check and the removal are separate steps) and the heartbeat; a holder's heartbeat never lapses here.
- LockOrder.PathsRanked: Claude Code's own process takes its refresh and legacy locks only, as the locking package documents; the engine's presence marker is a probe that never waits.
- Crashes in the middle of one file write, disk errors that tear a file, and user edits under a lock.
- TUI, gRPC, service managers, notifications, Windows and macOS specifics of the stores.
