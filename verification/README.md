# Weavelo: proofs about its installers, local service and checkers

This project models the parts of Weavelo that must stay right when something goes wrong, and
proves what they promise:

* the journaled, crash-recoverable transactions: the macOS upgrade (`MacUpgrade.dfy`), the Linux
  same-profile updater (`LinuxUpdate.dfy`), the Linux desktop files (`Desktop.dfy`), the
  first-identity migration (`Migration.dfy`), the Linux lifecycle executor (`Lifecycle.dfy`) and the
  CI journal (`CiRun.dfy`);
* the concurrent local service: the server's shutdown gate (`ServiceGate.dfy`), what its callers are
  told (`ServiceReplies.dfy`) and the client's generation and contract cache (`ClientCache.dfy`);
* transformations and checkers: the systemd unit rewrite (`UnitRewrite.dfy` over `UnitText.dfy`), the
  Windows ACL derivation (`Acl.dfy`), release package validation (`ArchiveTree.dfy` over
  `ArchivePath.dfy`) and the compiled Android manifest reader (`ManifestParser.dfy`).

`dafny verify dfyconfig.toml` checks everything.

## How the models read

**Transactions.** A transaction is a class. Its fields are the durable state (journal, files, service)
and the document in memory; both are kept, because the code changes the document before it writes the
journal. An effect (rename, exchange, file write, service command, journal write) is a method that
draws a fate from `Faults.dfy`: it succeeds, raises, or the process dies, and in the bad cases it may
have happened or not. `Raised` goes to the handler the code has, `Died` to nobody. Since a method can
end at each of its effects, an `ensures Inv()` holds at every crash point inside it, and since `Inv` is
all a later invocation requires, it holds over every history; the `AnyHistory` methods say what that
gives. Effects carry the durable intent they need as a `requires`, so that an effect without its
intent on disk does not verify. `disturbed` tells whether effects may fail in the current invocation;
statements about undisturbed invocations are the convergence results. A `doom` is an otherwise
undisturbed invocation in which one named thing goes wrong: one step raises, or the process dies at
one place. It fixes what the failure handlers must achieve, and it exhibits a run into a bad state
rather than describing it. Ghost fields such as `confirmed`, `unproven` and `observed` say that
something was really seen; the records that rest on it require them.

**Concurrency.** `ServiceGate`, `ClientCache` and `CiRun` are state machines: a thread or process is a
place in its program, an action is one step of one of them, and a run is any sequence of enabled
actions. Locks are explicit, timeouts, panics and deaths are actions, and the theorems are about all runs.

**Checkers.** Loops stay loops; each method is proved against a declarative definition that does not
mention the loop.

### Where a promise is false

* Recovery of a macOS upgrade does not always converge: removing the staging copy is recursive, not
  atomic, and a recovery that dies inside it leaves a half-deleted app that every later run refuses.
  `MacUpgrade.HalfDeletedStaging` is the run, `MacUpgrade.Installer.TornForever` shows that nothing
  leaves its end; `MacUpgrade.Installer.RecoverUndisturbed` proves that recovery works if and only if
  no service command is of unknown outcome and the staging copy is not half deleted.
* A Linux update that dies cannot always be recovered: the journal is replaced through the fixed file
  `journal.pending`, created exclusively and never cleaned up, so a death between creating it and
  replacing the journal makes every later write of that journal fail.
  `LinuxUpdate.InterruptedJournalWrite` is a run after which the candidate is live and nothing runs,
  and `LinuxUpdate.Updater.StrandedForever` shows that no request changes that.
  `LinuxUpdate.Updater.Recover`, `Apply`, `Reconcile` and `Prepare` are proved with the exact
  conditions, which include that file, the bound on update directories and, for `Recover` and `Apply`,
  the state of the predecessor's journal.
* The bound of 256 update directories is checked before a new one is made, so `prepare` can make a
  257th, and from then on every request is refused: `LinuxUpdate.LastDirectoryBlocks`.
* The lifecycle executor writes the same journal in the same way. `Lifecycle.InterruptedRecord` is a run
  that stops the old owner and can never record anything again (`Lifecycle.Executor.StuckForever`);
  `Lifecycle.Executor.Execute` proves that an undisturbed first apply commits if and only if the file
  is not there.
* Migration rollback does not work from every crash point: the new agent and release-state files are
  created and then written, and a death in between leaves a file that rollback does not recognise.
  `Migration.InterruptedAgentWrite` is a run after which neither app is at its path and neither service
  is loaded, and `Migration.Migrator.TornForever` shows that no request brings the legacy product
  back; `Migration.Migrator.RecoverOrUndo` proves that rollback works if and only if neither file is
  half written.
* A completed host shutdown does not always end the service: the comment in the handler promises it
  even for a lost reply, but a handler that is timed out while writing its reply never notifies.
  `ServiceGate.StalledReply` is the run; `ServiceGate.ExitAfterStop` proves that the notice is given if
  and only if the handler was not timed out there.

## Model

| member | source | states |
|---|---|---|
| MacUpgrade.Installer.Checkpoint | scripts/install_macos_unified.py:272-274 | memory has the new phase whatever happens; the journal is the whole new document or the whole old one; an outcome is recorded only once a started service was seen running well |
| MacUpgrade.Installer.DurableRename | scripts/install_macos_unified.py:372-377 | an app moves only under its durable intent, with the service unloaded and the profile lock held, never onto another app |
| MacUpgrade.Installer.CleanStaging | scripts/install_macos_unified.py:640-646 | removes only the staging copy; an interrupted removal may leave it torn |
| MacUpgrade.Installer.Diagnose | scripts/install_macos_unified.py:649-672 | on any disk, reachable or tampered with, it passes exactly a known release state, no unknown service command and two whole apps where some step leaves them |
| MacUpgrade.DiagnosisDecides | scripts/install_macos_unified.py:649-672 | from every reachable state those refusals amount to an uncertain service command, a torn staging copy, or one already cleaned |
| MacUpgrade.Installer.ConfirmTerminal | scripts/install_macos_unified.py:743-747 | a finished journal is confirmed exactly if the app at the target is the one it names |
| MacUpgrade.Installer.RestoreTuple | scripts/install_macos_unified.py:684-689 | ends with the before-plist, before-marker and before-release-state, from any mixture |
| MacUpgrade.Installer.RollbackLocked | scripts/install_macos_unified.py:649-723 | keeps the invariant at every crash point; undisturbed it restores everything or refuses before touching anything, and says which; if one of its steps raises, only a service command leaves an unknown outcome |
| MacUpgrade.Installer.RecoveryFailure | scripts/install_macos_unified.py:726-730 | an unknown service command leaves a mark that is never lost |
| MacUpgrade.Installer.RecoverInterrupted | scripts/install_macos_unified.py:733-752 | decides every undisturbed run: restored, only the journal phase repaired, or refused for good; terminal journals are confirmed and never touched; after one failed step recovery stays possible unless it was a service command |
| MacUpgrade.Installer.RecoverAgain | scripts/install_macos_unified.py:733-752 | a recovery with one failed step, repeated undisturbed, restores everything unless the step was a service command |
| MacUpgrade.Installer.RecoverUndisturbed | scripts/install_macos_unified.py:649-752 | recovery reaches `rolled_back` with the previous app, agent, marker, release state and service if and only if the state is recoverable; two runs suffice and two are needed exactly when staging was already cleaned |
| MacUpgrade.Installer.Install | scripts/install_macos_unified.py:755-922 | undisturbed it succeeds if and only if no journal is unfinished, the service is loaded and the build is newer or exactly the installed one; success means candidate app, release state, agent, marker and service; what is not installable, already installed or refused beforehand changes nothing; if any one step raises, the previous app, agent, marker, release state and service are back, or, for a service command, the journal carries the uncertain mark |
| MacUpgrade.Installer.AnyHistory | scripts/install_macos_unified.py:733-922 | over any history the previous app is in exactly one of target and backup, the candidate in at most one of target and staging, and a terminal phase never carries a mixed tuple |
| MacUpgrade.HalfDeletedStaging | scripts/install_macos_unified.py:640-646 | a run of install and recovery, for every pair of apps, that ends with a half-deleted staging copy recovery refuses |
| MacUpgrade.Installer.TornForever | scripts/install_macos_unified.py:657-663 | from there no request, disturbed or not, finishes the transaction or moves an app |
| LinuxUpdate.RecordKeepsChain | scripts/linux_current_update.py:205-210 | writing one record extends or shortens the chain of committed updates by at most its last link |
| LinuxUpdate.RecordKeepsRest | scripts/linux_current_update.py:205-210 | a record disturbs no other transaction's trees |
| LinuxUpdate.RecordKeepsPending | scripts/linux_current_update.py:205-210 | after a record at most one transaction is pending and the live app is explained |
| LinuxUpdate.InterruptionKeeps | scripts/install_native_first_identity.py:57-64 | a leftover scratch file changes no record and no tree |
| LinuxUpdate.LastDirectoryBlocks | scripts/linux_current_update.py:133-134 | once one directory more than the bound exists, every request is refused |
| LinuxUpdate.Reopens | scripts/linux_current_update.py:432-435 | a transaction whose trees include the live one may be reopened; if it is committed it is the newest commit |
| LinuxUpdate.SingleLocation | scripts/linux_current_update.py:444-447 | while a candidate is live the tree it replaced is in exactly one of stage and previous, so the location test cannot fail |
| LinuxUpdate.PredecessorIsTip | scripts/linux_current_update.py:164-182 | the installed inode resolves to the end of the chain, and to nothing else |
| LinuxUpdate.Updater.Save | scripts/linux_current_update.py:205-210 | the journal is wholly old or wholly new; an interrupted write may leave its scratch file, and beside one every write fails and changes nothing |
| LinuxUpdate.Updater.Exchange | scripts/linux_current_update.py:362-371 | under a durable intent with no owner running, live and the private tree swap; live is never empty |
| LinuxUpdate.Updater.RestoreOld | scripts/linux_current_update.py:440-449 | undisturbed it brings the old tree back if the journal can be written, and beside a leftover scratch file changes nothing |
| LinuxUpdate.Updater.Rollback | scripts/linux_current_update.py:432-457 | undisturbed it restores the old tree if and only if the live tree is one of the plan's two, the predecessor's journal is untouched and no scratch file is left; otherwise it changes nothing, and it moves no tree when the old one is already live |
| LinuxUpdate.Updater.Recover | scripts/linux_current_update.py:508-516 | undisturbed it succeeds if and only if nothing else is unfinished, the history is within its bound, the plan is sealed and recognised and no scratch file is left; otherwise nothing changes |
| LinuxUpdate.Updater.WhatCanBeUnwound | scripts/linux_current_update.py:432-447 | with those writable, a sealed pending update can always be unwound and a commit exactly when it is the newest, each if its predecessor's journal is untouched |
| LinuxUpdate.Updater.Apply | scripts/linux_current_update.py:389-430 | undisturbed it commits if and only if nothing else is unfinished, the plan is prepared, live and staged trees are the planned ones, the old owner runs, the predecessor's journal is untouched and no scratch file is left; the commit is the new end of the chain and its owner was observed; a plan that does not hold changes nothing; if any one step raises, the old app is back and runs |
| LinuxUpdate.Updater.WaitOwner | scripts/linux_current_update.py:373-387 | only this observation of the running candidate counts as verification |
| LinuxUpdate.Updater.HandleFailure | scripts/linux_current_update.py:421-429 | after one failed step it restores the old app and its owner, or, if the rollback is refused, asks for recovery and moves nothing; it never reports success |
| LinuxUpdate.Updater.Reconcile | scripts/linux_current_update.py:459-493 | undisturbed it commits if and only if the update awaits recovery with its verified candidate live, the old tree kept, an owner running and a writable journal; a candidate that is committed was observed running; it moves no tree |
| LinuxUpdate.Updater.Prepare | scripts/linux_current_update.py:291-339 | undisturbed it seals a plan if and only if nothing is unfinished, the transaction is new, the binary differs, the owner runs and the live app has exactly one predecessor; the recorded predecessor is the end of the chain in its present state |
| LinuxUpdate.Updater.FindPredecessor | scripts/linux_current_update.py:158-185 | a predecessor is found if and only if it is unique, and then it is the newest commit, or the first installation if there is none |
| LinuxUpdate.Updater.AnyHistory | scripts/linux_current_update.py:126-203 | over any history at most one transaction is pending, the commits form one chain from the first app, and with none pending the live app is the last candidate |
| LinuxUpdate.InterruptedJournalWrite | scripts/install_native_first_identity.py:57-64 | a run of prepare and apply, for every pair of binaries, that ends with the candidate live, nothing running and a journal that cannot be written |
| LinuxUpdate.Updater.StrandedForever | scripts/linux_current_update.py:146-156 | from there no request, disturbed or not, changes a tree, a journal or the owner |
| Desktop.MoveKeepsFiles | scripts/install_linux_desktop.py:73-85 | an exclusive rename destroys no file |
| Desktop.PublishKeepsTidy | scripts/install_linux_desktop.py:195-200 | publishing an entry that has a receipt keeps the public files explained by the plan and the receipts |
| Desktop.RetireKeepsTidy | scripts/install_linux_desktop.py:229-232 | retiring an entry keeps them explained |
| Desktop.StageKeepsTidy | scripts/install_linux_desktop.py:187-192 | staging a new inode keeps them explained |
| Desktop.Transaction.Publish | scripts/install_linux_desktop.py:195-200 | an entry is published only under its durable inode receipt and the durable phase, and only onto an empty path |
| Desktop.Transaction.Retire | scripts/install_linux_desktop.py:229-232 | whatever is at the path, even a file that just arrived, is moved and kept |
| Desktop.Transaction.Visit | scripts/install_linux_desktop.py:216-237 | one entry of rollback: a foreign file stays captured only if its path is taken; alone, the conflict is decided, a captured file returns to its free path, the transaction's own file is retired, and nothing else moves |
| Desktop.Transaction.HandBack | scripts/install_linux_desktop.py:233-237 | a foreign file captured in the same visit goes back unless its path is taken by then |
| Desktop.TurnKeeps | scripts/install_linux_desktop.py:216-237 | one turn of the rollback loop leaves the entries still to come untouched and those done as they are |
| Desktop.Transaction.Rollback | scripts/install_linux_desktop.py:214-242 | `rolled_back` is recorded if and only if no conflict was seen, and then every retired file is the transaction's own; alone, it succeeds if and only if nothing foreign is in the way, every captured file whose path is free goes back, and no file is lost; if nobody ever interfered the public files are the original ones |
| Desktop.Transaction.Plan | scripts/install_linux_desktop.py:118-134 | the plan describes the public files exactly, and is refused only if a target differs |
| Desktop.Transaction.Prepare | scripts/install_linux_desktop.py:178-192 | every created entry is staged with a durable receipt before any is published; alone, it succeeds if and only if every destination is as the plan saw it |
| Desktop.Transaction.PublishEntry | scripts/install_linux_desktop.py:195-200 | success means the path holds the staged inode; alone, it succeeds if and only if the path was free |
| Desktop.Transaction.VerifyAll | scripts/install_linux_desktop.py:201-204 | alone, it succeeds if and only if every created path holds its own inode and every preserved one its former file; then every target is in place and nothing else changed |
| Desktop.Transaction.Apply | scripts/install_linux_desktop.py:168-212 | undisturbed and alone it succeeds if and only if no transaction exists and the reviewed plan is the current one, and then exactly the planned files are installed; with one step failing it ends rolled back with the public files as they were |
| Desktop.Transaction.Recover | scripts/install_linux_desktop.py:214-242 | from every crash point an undisturbed recovery without an actor returns the public files to their value before apply; whatever actors did before, every captured file whose path is free is given back, and it succeeds if and only if nothing foreign was in the way |
| Desktop.Transaction.AnyHistory | scripts/install_linux_desktop.py:168-242 | any history of applies and rollbacks, closed by one undisturbed recovery, leaves the public files as they were |
| Migration.Migrator.RetireInstall | scripts/migrate_macos_identity.py:411-420 | retires the new app, agent and state, losing nothing; undisturbed it succeeds if and only if neither metadata file is half written |
| Migration.Migrator.RetireUserData | scripts/migrate_macos_identity.py:421-429 | retires only the transaction's own profile inode and the new preferences |
| Migration.Migrator.RestoreLegacy | scripts/migrate_macos_identity.py:430-442 | the legacy app and agent are back, or already were and nothing moved |
| Migration.Migrator.Rollback | scripts/migrate_macos_identity.py:395-453 | reads no phase; undisturbed it restores the legacy product if and only if no metadata write was interrupted, keeps every file and the candidate, and repeated it changes nothing; otherwise it takes the new app away and leaves the legacy files aside |
| Migration.Migrator.Stage | scripts/migrate_macos_identity.py:319-350 | everything is built and every legacy file copied in private places before the journal speaks of stopping the old service |
| Migration.Migrator.InstallNew | scripts/migrate_macos_identity.py:359-380 | legacy files go aside and new ones in, each under its durable intent, with neither service loaded; the new preferences are there exactly if the import was asked for and there was something to import |
| Migration.Migrator.Begin | scripts/migrate_macos_identity.py:259-317 | a migration begins if and only if none was ever begun, the legacy product is installed and running, and nothing new exists |
| Migration.Migrator.Apply | scripts/migrate_macos_identity.py:310-393 | undisturbed it succeeds if and only if it can begin, and then the new product is installed, its service alone loaded, and the preferences imported exactly if asked for; if any one step raises, the legacy product is back and running; an existing journal is never replayed |
| Migration.Migrator.RecoverOrUndo | scripts/migrate_macos_identity.py:476-485 | recovery and explicit rollback refuse each other's case; otherwise success if and only if no metadata write was interrupted |
| Migration.Migrator.RecoverUntilCalm | scripts/migrate_macos_identity.py:395-453 | after any number of failed or dead recoveries one undisturbed recovery restores the legacy product, if and only if no metadata write was interrupted |
| Migration.Migrator.AnyHistory | scripts/migrate_macos_identity.py:310-453 | over any history the two services are never both loaded, both products are kept, and terminal phases are never mixed |
| Migration.InterruptedAgentWrite | scripts/migrate_macos_identity.py:99-103 | a run of apply and an undisturbed recovery, for every machine that can migrate, after which neither app is at its path and neither service is loaded |
| Migration.Migrator.TornForever | scripts/migrate_macos_identity.py:414-420 | from there no request, disturbed or not, moves the legacy app or agent |
| ServiceGate.ClosingIsFinal | app/src/background_service.rs:182-184 | the sequential gate answers and admits nothing after its first closing event |
| ServiceGate.StopIsEarned | app/src/background_service.rs:133-141 | a confirmed stop follows an admission and a host stop of the same handler, and is the only one |
| ServiceGate.StepKeeps | app/src/background_service.rs:117-185 | every step of every handler, timeout, panic and drop keeps the lock and gate invariant |
| ServiceGate.Linearizable | app/src/background_service.rs:112-185 | every interleaving is, in log order, a run of the sequential gate |
| ServiceGate.NothingAnsweredAfterClosing | app/src/background_service.rs:149-165 | after an admitted shutdown or a drop no request reaches or is inside `answer`, and no shutdown is admitted |
| ServiceGate.OneConfirmedStop | app/src/background_service.rs:133-185 | at most one `StopPrepared` per generation, only for a request naming exactly this background service's generation and executable, only after the host stopped |
| ServiceGate.RefusalIsTrue | app/src/background_service.rs:161-183 | a request is refused as stopped or already requested only after an admission or a drop |
| ServiceReplies.StepTells | app/src/background_service.rs:117-185 | every step keeps what each handler's place and each event say about the past |
| ServiceReplies.CallersAreToldTheTruth | app/src/background_service.rs:133-166 | in every interleaving every response sent is true: the owner stopped or a stop was requested, the sender's own verification failed, its own request was answered, or the stop was rejected for the reason given |
| ServiceReplies.OnlyVerifiedRequestsAreAnswered | app/src/background_service.rs:149-185 | only plain requests and registrations whose own verification succeeded reach `answer`, only exact requests are admitted, and nothing passes after a panic |
| ServiceGate.ExitAfterStop | app/src/background_service.rs:142-147 | after a confirmed stop the exit was notified if and only if the handler was not timed out while replying |
| ServiceGate.StalledReply | app/src/background_service.rs:143-147 | a run in which the host is stopped and the service never told to exit |
| ClientCache.StepKeeps | app/src/background_service.rs:246-281 | every step of every thread keeps the lock, cache and order invariant, and never shows an older sample |
| ClientCache.EffectSettles | app/src/background_service.rs:266-281 | contract and cache differ only between the two writes under the cache lock |
| ClientCache.ObserversSeeCoherentPairs | app/src/background_service.rs:290-308 | in every interleaving an observer sees no contract with no generation, or a contract negotiated with exactly the cached generation and executable; a wanted stop is asked if and only if that generation is a background service whose own contract offers it |
| ClientCache.NewerResultsWin | app/src/background_service.rs:266-281 | results take effect in the order their exchanges began, without overlap, so a late older success or failure never replaces a newer result, and the cache shows the last one |
| UnitText.ConcatLines | scripts/linux_background_lifecycle_plan.py:113-113 | the lines of a text make up the text |
| UnitText.LinesConcat | scripts/linux_background_lifecycle_plan.py:155-155 | splitting undoes joining whole lines |
| UnitRewrite.EntryOfQuoted | scripts/linux_background_lifecycle_plan.py:128-133 | an environment entry in the accepted form reads back as its name and value |
| UnitRewrite.KindOfAssignment | scripts/linux_background_lifecycle_plan.py:114-126 | a written assignment line reads back as its key and value |
| UnitRewrite.DirectiveMeaning | scripts/linux_background_lifecycle_plan.py:137-140 | a directive has a value if and only if some line under its section's last header sets it |
| UnitRewrite.EnvironmentMeaning | scripts/linux_background_lifecycle_plan.py:128-133 | a variable has a value if and only if some environment line sets it |
| UnitRewrite.ReadNewLine | scripts/linux_background_lifecycle_plan.py:134-143 | rewriting a line and then reading it is reading it and then changing the two values |
| UnitRewrite.AtMostOnce | scripts/linux_background_lifecycle_plan.py:132-139 | a readable unit has one start command and one headless flag at most |
| UnitRewrite.PolicyMeaning | scripts/linux_background_lifecycle_plan.py:145-154 | a readable unit follows the policy if and only if its lines have the three sections and set exactly the literal values |
| UnitRewrite.RewriteLine | scripts/linux_background_lifecycle_plan.py:113-144 | one turn of the loop accepts exactly the readable lines that could still be unmigrated |
| UnitRewrite.RewriteUnit | scripts/linux_background_lifecycle_plan.py:105-155 | accepted if and only if readable and following the original policy; then exactly two lines differ, the directive and environment maps differ in exactly those two values, and a second rewrite is refused for every executable and profile |
| Acl.DerivePrivateRows | scripts/windows_private_profile.py:29-44 | refuses exactly the lists with an unknown entry, an explicit foreign grant or a missing full grant; otherwise returns the kept and removed rows |
| Acl.PlacesMeaning | scripts/windows_private_profile.py:33-40 | the places of the foreign grants, and of all other rows, each in order and complete |
| Acl.RowsConserved | scripts/windows_private_profile.py:33-40 | the kept rows are exactly the rows at the places that are no foreign grant, in order and no longer inherited; the removed rows exactly the others, in order |
| Acl.OnlyTrustedGrantsRemain | scripts/windows_private_profile.py:32-40 | every kept grant, inherit-only ones included, names the owner, SYSTEM or Administrators, and every removed row is an inherited grant to somebody else |
| Acl.FullSurvives | scripts/windows_private_profile.py:41-43 | a trusted full grant is among the kept rows if and only if it was among the rows |
| Acl.Idempotent | scripts/windows_private_profile.py:29-44 | deriving again is accepted, removes nothing and changes nothing |
| Acl.ExactAccess | scripts/windows_private_profile.py:29-44 | for every list, caller and rights, the ordered access check afterwards is the check before with every SID but owner, SYSTEM and Administrators counting only for denials |
| Acl.NoNewAccess | scripts/windows_private_profile.py:29-44 | what is granted afterwards was granted before |
| Acl.TrustedAccessKept | scripts/windows_private_profile.py:29-44 | a caller made only of owner, SYSTEM and Administrators keeps exactly its access |
| ArchivePath.PrefixIsAbove | scripts/build_identity_gate.py:952-953 | each joined prefix of the parts is the path itself or a directory above it |
| ArchivePath.AboveIsPrefix | scripts/build_identity_gate.py:952-953 | every directory above a path is one of its joined prefixes |
| ArchivePath.AncestorsAreRelative | scripts/build_identity_gate.py:91-101 | every directory above an accepted path is itself an accepted path |
| ArchiveTree.IndexEntry | scripts/build_identity_gate.py:952-956 | the ancestors of an entry are indexed unless two different paths fold to one |
| ArchiveTree.ScanEntries | scripts/build_identity_gate.py:945-956 | accepts exactly safe, fold-unique names whose paths and ancestors are distinct under folding |
| ArchiveTree.CheckLeaves | scripts/build_identity_gate.py:957-960 | accepts exactly the lists in which no file lies above another entry |
| ArchiveTree.VerifyTree | scripts/build_identity_gate.py:945-960 | accepted if and only if the entries form a well-formed tree, for every folding |
| ArchiveTree.CheckInventory | scripts/build_identity_gate.py:884-895 | accepted if and only if the records are safe, fold-unique, within limits and include the executable |
| ArchiveTree.CheckPayload | scripts/build_identity_gate.py:965-976 | accepted if and only if directories lie under the root, every file is recorded with its size and digest, and every record delivered |
| ArchiveTree.FindManifest | scripts/build_identity_gate.py:961-962 | finds the one manifest member if there is one |
| ArchiveTree.VerifyPackage | scripts/build_identity_gate.py:940-980 | returns the inventory read from the pinned contents of the one manifest member if and only if limits, tree, inventory and payload all hold |
| ArchiveTree.PayloadIsInventory | scripts/build_identity_gate.py:965-976 | the files of an accepted package and its inventory correspond one to one with equal sizes and digests |
| ArchiveTree.EverythingUnderRoot | scripts/build_identity_gate.py:967-972 | everything but the manifest lies under the artifact root, and no entry is the bare current directory |
| ManifestParser.PopTo | scripts/verify_release_apk.py:50-52 | after the pops the stack is the chain of the nearest earlier element with smaller indentation |
| ManifestParser.PushOne | scripts/verify_release_apk.py:53-54 | after the push the stack is the element's own chain |
| ManifestParser.InPlaceMeans | scripts/verify_release_apk.py:55-60 | the stack test holds if and only if the path from the root is that of a section |
| ManifestParser.ReadElement | scripts/verify_release_apk.py:48-61 | an element line keeps the stack and the count of each section right |
| ManifestParser.ReadAttribute | scripts/verify_release_apk.py:62-71 | an attribute goes to the section its last preceding element is, and is refused only if given twice |
| ManifestParser.SectionAttributes | scripts/verify_release_apk.py:42-73 | accepted if and only if each section is one unique element without a repeated attribute; each map then holds exactly its attributes |
| Lifecycle.Executor.Save | scripts/execute_linux_lifecycle.py:184-188 | the durable phase brackets how many effects have begun and carries the receipts it claims; beside a leftover scratch file nothing is written |
| Lifecycle.Executor.Perform | scripts/execute_linux_lifecycle.py:62-73 | an effect begins only as the next of the script and under its durable intent |
| Lifecycle.Executor.Execute | scripts/execute_linux_lifecycle.py:33-86 | forward effects begin only without a journal; recovery and repeated apply begin none, and a repeated apply of an unfinished request is refused; terminal and foreign transactions are untouched; undisturbed a first apply commits after all five effects if and only if no scratch file is left; if an effect raises, the backend's rollback or the need for recovery is recorded; beside a leftover nothing is recorded or begun |
| Lifecycle.Executor.AnyHistory | scripts/execute_linux_lifecycle.py:33-86 | over any history each forward effect begins at most once, in order, and committed means all ran |
| Lifecycle.InterruptedRecord | scripts/install_native_first_identity.py:57-64 | a run that stops the old owner and leaves a journal that cannot be written |
| Lifecycle.Executor.StuckForever | scripts/execute_linux_lifecycle.py:184-188 | from there no request records or begins anything |
| CiRun.StepKeeps | scripts/weavelo_ci.py:128-178 | every step of every process keeps the journal honest and loses no record |
| CiRun.LaunchedAtMostOnce | scripts/weavelo_ci.py:144-178 | in every interleaving with deaths and cleared locks no stage key is launched twice, a launched key is on record, every recorded outcome is what was seen of the command, and a reported completion is recorded and was a success |
| CiRun.OutcomesAreFinal | scripts/weavelo_ci.py:154-178 | no record is lost and no outcome rewritten |

## Left out

- Upgrades without a release identity and the isolated fixture mode of the macOS installer: production apply admits only identity-bound transactions.
- Earlier backups of the macOS installer: each upgrade has its own backup folder, and the model follows the one the journal names.
- Files that services create while running, sockets, process identity, codesign, `ps`, `launchctl` and `systemctl` output, deadlines and retry loops: an observation that may succeed or fail.
- SHA-256, JSON, plist, ZIP and TAR encodings: documents are values, digests identities; a file's digest format is not checked.
- `flock` and `fsync`: locks of a transaction are held by the one running invocation, and a completed effect is durable.
- `check` of the Linux updater: its evidence about installer hashes, configuration, profile and manifest is an observation; the predecessor's journal is modelled.
- LinuxUpdate.Updater.Prepare: a death inside it leaves a transaction the code never recovers; the model keeps that, and proves only that nothing else is disturbed.
- Migration.Migrator.Stage: the private copies of legacy files are one value, absent, partial or full; the legacy profile and preferences themselves are never written.
- Lifecycle.Executor.Rollback: `Native.rollback` refuses some crash states on purpose; whether it refuses is the environment's choice, and no recovery is claimed.
- ClientCache.ObserversSeeCoherentPairs: the network diagnostics field is not modelled; it is replaced before the cache and is not part of the promise.
- ServiceGate.Linearizable: what `answer` computes, directed delivery and the host's own shutdown are outside the model.
- UnitRewrite.RewriteUnit: lines are the code's (Python line boundaries); systemd itself breaks lines at newlines only. UTF-8 decoding is left out, its length bound is kept.
- `validate_drop_ins`, `plan` and `rollback_preview` of the unit planner: they compare recorded metadata (paths, owners, modes, inodes, digests, plan hashes) with observed values field by field and change nothing.
- Acl.ExactAccess: object and conditional entries are refused by the code, and the owner's implicit rights do not come from the list.
- ArchiveTree.VerifyPackage: parsing the manifest and the identity, product and signing checks of `manifest_document` are the function `read` from contents to inventory; case folding is any function.
- ManifestParser.SectionAttributes: the regular expressions that classify a line and the literal readers after line 73 are left out.
- CiRun.LaunchedAtMostOnce: the command line of a stage and its checks are left out; the stage key stands for specification and step.
- ELF, PE and native process observers, first-install scripts without rollback, GPU and HEVC probes, GPUI views, and the host, discovery and delivery crates.
