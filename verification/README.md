# Verification of the deployment manager

A model, in Dafny, of the parts of the deployment manager where state changes in steps, every step can fail, and
something must survive every run. The files verify together with `dafny verify dfyconfig.toml`.

**Release activation** (`Trees`, `ReleaseTheory`, `ReleasePlan`, `ReleaseVolume`, `ReleasePlanning`, `ReleaseSteps`,
`DirectoryTheory`, `DirectoryRecords`, `DirectoryDoubts`, `DeploymentReleases`, `ReleaseRuns`, `RetainedPaths`).
Directory trees are finite maps from paths to entries; a volume holds the live root, the candidate, the previous
release and the set-aside local data. Renames, directory creations and journal writes are atomic, each may fail
without effect, and other processes may write retained data between any two of them. What they write is a script,
`others`, fixed but arbitrary, and `now` counts how much of it has been written, so the retained data always has one
known value, `Retained()`. Every rename of the contents mode moves one relative path between two trees, so the whole
state is described by two sets of paths, displaced and installed, and by where each path of each tree came from. A
ghost history keeps the journal and the trees after every step: what a crash at that moment would leave. The program
leaves recovery to a person who inspects the record (`lib/deployment-release.ts:236`); `Settled` and `Recovered` say
what can be read off it in place, `HomeOf` by directories. `ReleaseRuns` puts the parts together: activation,
application, and rollback interrupted any number of times.

**Secret redactor** (`SecretRedactor`). Output is a sequence of emitted code units and markers, each marker
remembering what it replaced. No secret leaks for any set of secrets; independence of the splitting holds exactly
when no secret begins another.

**Audit gate** (`AuditGate`). The recursive walk over a possibly cyclic graph with missing nodes is compared with
reachability.

**Remote jobs** (`RemoteJobRows`, `RemoteJobOutcomes`, `RemoteJobSafety`, `RemoteJobReports`, `ManagedServers`). Each
operation is a function on the rows of servers, applications and jobs, the class performs it statement by statement, and
runs are sequences of operations in any order. `RemoteJobOutcomes` says of each operation what it means for the
rows. The race between choosing a job and updating it is part of the claim.

**Two-database rename** (`DatabaseRename`). Statements fail, answers to commits get lost, a commit can take
effect after it was given up on, on either side, and the manager can crash between any two statements. The record of
renames and of other transactions' links is replayed for each side; the two replays differ only by the pending row. When the
answer to the insertion of a row is lost, the row stays pending and blocks further renames, although nothing was
renamed.

**Deployment run** (`DeployRun`, `DeployRunHistory`). From the preflight to the end of the recovery, as a step machine
over the flags. `DeployRunHistory` reads off the events of a run what its end looks like.

**Scheduled jobs** (`CronExclusion`). Two kinds of locked transaction, several steps each, in any interleaving.

**Processes** (`OwnedProcesses`), **environment files** (`EnvironmentText`, `EnvironmentLines`, `JsonStrings`),
**Git commands** (`GitCommand`, `BuildChanges`). `Collections` and `CodeUnits` are shared.

Where the code and what it says of itself differ, the model follows the code:

- The environment printer promises an exact round trip (`lib/environment-text.ts:1`); the parser's line pattern does
  not match U+2028 and U+2029, which JSON leaves unescaped.
- The redactor "retains partial secrets" (`lib/exec.ts:24`), but not of a longer secret that a complete shorter one
  begins.
- The handoff keeps a preview the domains depend on, but the proxy's file is written before the reload that can fail
  (`lib/caddy.ts:268-272`), and then names a preview that the cleanup deletes.
- An interrupted activation is to be recovered from its record (`lib/deployment-release.ts:236`). By directories that
  is not always possible: a default persistent path need not be live, and when the candidate supplies it all the same,
  the record and the trees are those of live data about to be recorded as carried over.
- A claim marks a deployment as running even when the agent lacks the capability to receive it
  (`lib/managed-servers.ts:244-250`); it is then neither handed out nor cancellable.

## Model

| member | source | states |
|---|---|---|
| RetainedPaths.RetainsTheHighest | lib/deployment-release.ts:16-26 | The retained paths are exactly the admissible inputs that lie inside no other admissible input, each once, whatever the order of the inputs and the breaking of ties; an absolute, dotted or otherwise irregular input makes the whole selection fail, and nothing else does |
| RetainedPaths.RetainedIsAntichain | lib/deployment-release.ts:16-26 | No retained path contains another one, and every admissible input is at or below a retained path |
| RetainedPaths.InsideIsBelow | lib/deployment-release.ts:25 | The prefix test on strings with a trailing slash decides containment of paths, component by component |
| RetainedPaths.ComponentsDetermine | lib/deployment-release.ts:17-19 | A path is determined by its components, so comparing paths and comparing texts is the same |
| RetainedPaths.NormalizedMeans | lib/deployment-release.ts:17 | Every backslash is read as a slash and one slash at the end is dropped, as Git writes one after a directory; nothing else changes |
| RetainedPaths.RetainedInFull | lib/deployment-release.ts:16-26 | The same said of the texts: refused is exactly a list with an input that has a colon or an empty, current or parent directory in it; otherwise only inputs are selected, none of them a file of Git or the manager or build output, and every other input is selected or lies below one that is |
| DeploymentReleases.PersistentAreIndependent | lib/deployment-release.ts:261-262 | The paths a release keeps in place are distinct and never contain one another, also after generated Laravel paths are dropped |
| Trees.RenameMovesSubtree | lib/deployment-release.ts:168 | A rename moves the entries at and below the path and no others, and both trees keep their shape |
| ReleaseVolume.Volume.Rename | lib/deployment-release.ts:168 | A rename is atomic: it happens completely or not at all, and never when its destination exists or its source is missing; other processes may write retained data around it |
| ReleaseVolume.Volume.WriteJournal | lib/deployment-release.ts:90-102 | The journal is replaced atomically: afterwards it is the new record or the old one |
| ReleaseVolume.Volume.MakeDirectories | lib/deployment-release.ts:165 | Recursive creation adds directories on the way to the path one at a time, and changes nothing else, also when it fails part way |
| ReleaseVolume.Volume.RemoveDirectory | lib/deployment-release.ts:189-191 | A directory is removed only when empty; a missing or occupied one is left alone without an error |
| ReleaseVolume.RenameKeepsInside | lib/deployment-release.ts:159-168 | A rename of a path that neither holds nor belongs to retained data leaves all retained data as it is |
| ReleaseTheory.FrontierIsAntichain | lib/deployment-release.ts:111-131 | No planned path contains another planned path |
| ReleaseTheory.FrontierAvoidsRetained | lib/deployment-release.ts:113-131 | No planned path is at, above or below a retained one |
| ReleaseTheory.FrontierCovers | lib/deployment-release.ts:111-131 | Every path that is neither retained data nor a container of it lies at or below a planned path |
| ReleaseTheory.Displace | lib/deployment-release.ts:159-168 | Moving live content aside finds its source and a free destination, and afterwards every path of all trees is where the two sets of moves say |
| ReleaseTheory.Install | lib/deployment-release.ts:159-168 | Moving new content in finds its source and a free place, and afterwards every path of all trees is where the two sets of moves say |
| ReleaseTheory.Uninstall | lib/deployment-release.ts:176-182 | Taking installed content back to the candidate is the inverse of installing it, for every path of all trees |
| ReleaseTheory.Reinstate | lib/deployment-release.ts:176-182 | Putting displaced content back is the inverse of displacing it, for every path of all trees |
| ReleaseTheory.RetainedDataIsFree | lib/deployment-release.ts:106-113 | Retained data may be written by other processes at any moment: the account of all other paths stays right |
| ReleaseTheory.CompleteActivationOverlays | lib/deployment-release.ts:153-173 | When all planned moves are done, the root is the retained data at and below every retained path, live on the way to them and the candidate everywhere else, and the previous release is exactly what was displaced |
| ReleaseTheory.NothingMovedIsOriginal | lib/deployment-release.ts:175-195 | When nothing is displaced and nothing installed, every path outside the retained data is as it was before, in root and candidate |
| ReleaseTheory.OriginalIsRecoverable | lib/deployment-release.ts:153-185 | At any point between, the original root and candidate can be read off the trees |
| ReleaseTheory.ApplicationMayWrite | lib/deployment-release.ts:175-185 | An application may write anywhere in the activated root but over the containers of retained data, and the original of every displaced path is still known |
| ReleasePlan.UntouchedMovesAreUnblocked | lib/deployment-release.ts:175-182 | As long as nobody has touched what was moved, nothing stands in the way of undoing it, however far the activation came |
| ReleasePlan.EverythingMoved | lib/deployment-release.ts:104-134 | A complete activation has displaced exactly the highest live paths that neither hold nor belong to retained data, and installed exactly those of the candidate |
| ReleasePlan.MovesNeverCollide | lib/deployment-release.ts:158-168 | At its turn every planned move finds its source in place and its destination free, and a path is installed only after it was displaced |
| ReleasePlan.AtMostOneInDoubt | lib/deployment-release.ts:158-185 | The journal and the trees disagree about at most one move: the pending one while activating, the last done one while restoring |
| ReleasePlan.EndsDecide | lib/deployment-release.ts:166-183 | Exactly one of the two ends of the move in doubt exists, and that end tells whether the move has happened |
| ReleasePlan.SettledIsActual | lib/deployment-release.ts:90-102 | Resolving the move in doubt by looking at its ends gives the moves that were really performed |
| ReleasePlan.ExactJournalIsSafe | lib/deployment-release.ts:169-170 | A journal that records the moves as they are can be recovered from after a crash |
| ReleasePlan.LaggingJournalIsSafe | lib/deployment-release.ts:166-170 | So can a journal that lags behind by the one move it has announced |
| ReleasePlanning.Visit | lib/deployment-release.ts:111-131 | The walk over both trees plans exactly the highest live and candidate paths that neither hold nor belong to retained data, live before candidate, and succeeds whenever the containers of retained data are ordinary directories |
| ReleasePlanning.PlanContentMoves | lib/deployment-release.ts:104-134 | The plan is that walk for the persistent paths that exist live |
| ReleasePlanning.WalkIsPlan | lib/deployment-release.ts:104-134 | What the walk finds is a complete plan: conflict-free, ordered, covering every path that has to move and no other |
| ReleaseSteps.CreatesOnlyTheRoot | lib/deployment-release.ts:136-151 | The only live directory an activation ever creates is the root itself |
| ReleaseSteps.AnnouncedMoveDone | lib/deployment-release.ts:166-170 | After an announced move the trees are explained by the moves with that one done, and by the journal that still calls it pending |
| ReleaseSteps.UndoMove | lib/deployment-release.ts:176-183 | Undoing the last performed move finds its source and a free destination and leaves the trees as if it had never been made |
| ReleaseSteps.UndoOutcome | lib/deployment-release.ts:180-184 | Whether the rename back happened or not, the record can be recovered from after a crash |
| ReleaseSteps.RemovalIsExplained | lib/deployment-release.ts:187-194 | Removing the created root settles it, and so does leaving it because other data appeared in it |
| DeploymentReleases.DeploymentRelease.EnsureLiveDirectory | lib/deployment-release.ts:136-151 | Each missing live directory is recorded before it is created; every intermediate state can be recovered from |
| DeploymentReleases.DeploymentRelease.PerformMove | lib/deployment-release.ts:158-171 | One move, interrupted anywhere: the trees stay explained by the moves performed, every intermediate snapshot can be recovered from, and it succeeds unless a step fails |
| DeploymentReleases.DeploymentRelease.ActivateContents | lib/deployment-release.ts:153-173 | Activation in place, interrupted at any journal, directory or rename step: everything stays explained by the plan, every intermediate record can be recovered from, the retained data is what other processes left last (starting from what was live), and nothing stands in the way of undoing; on success the root is the candidate laid over the retained data; it succeeds when no step fails and the containers are ordinary directories |
| DeploymentReleases.DeploymentRelease.UndoMoves | lib/deployment-release.ts:176-185 | Undoing goes from the last move to the first; without failing steps it succeeds exactly when nothing foreign took the place of what was displaced or away what was installed, and a failure on the way changes nothing about that, so it can be rerun |
| DeploymentReleases.DeploymentRelease.RollbackContents | lib/deployment-release.ts:175-195 | No move is done and no created directory is left to remove, whatever was done before; whether it is blocked stays as it was, also when it is interrupted |
| DeploymentReleases.DeploymentRelease.RemoveCreated | lib/deployment-release.ts:187-194 | A root directory the release created is removed if still empty, and left with what appeared in it otherwise |
| DeploymentReleases.DeploymentRelease.Activate | lib/deployment-release.ts:290-336 | For both modes and a failure at any step. Without a candidate, or with a link in it above the place of a persistent path, it fails with trees, journal and phase as they were. In place: the account holds, the retained data is what other processes left last, every move can be undone, and on success every planned path has moved and the root is the overlay. By directories: nothing is lost, the tree a rollback puts back is the live tree, and on success the root is the candidate with every existing persistent path carried over. Either succeeds when no step fails and nothing is in the way |
| DeploymentReleases.DeploymentRelease.ActivateDirectory | lib/deployment-release.ts:309-335 | The root is the candidate with each persistent path that existed live replaced by its live data; wherever it fails, every carried path is where it now belongs and as it was live, so the live tree can be put back; it succeeds when no step fails, the previous release has room and no link or file is in the way of a persistent path |
| DeploymentReleases.DeploymentRelease.RollbackDirectory | lib/deployment-release.ts:347-361 | Returns the original root with each carried path holding its latest data, with or without the candidate having reached the root; without failing steps it succeeds exactly when the carried paths are still there, and an interruption changes nothing about that |
| DeploymentReleases.DeploymentRelease.Rollback | lib/deployment-release.ts:338-364 | From any point of failure, also of an earlier rollback: on success every path outside the retained data is as before the activation and the candidate is whole again; the retained data is what other processes left last, whether it succeeds or not; whether a rerun can succeed is not changed by an interruption |
| DeploymentReleases.DeploymentRelease.RollbackInContents | lib/deployment-release.ts:338-346 | The same for the contents mode, with every intermediate record recoverable, the retained data kept, and success exactly when nothing blocks an undone move |
| DeploymentReleases.DeploymentRelease.ApplicationRuns | lib/deployment-release.ts:175-185 | Between activation and rollback an application may change the activated root |
| DeploymentReleases.DeploymentRelease.ApplicationRunsInDirectory | lib/deployment-release.ts:347-352 | In directory mode an application may write anything in the activated root; what a rollback will put back is then the live tree with what the application left at and below the carried paths |
| DeploymentReleases.DeploymentRelease.Complete | lib/deployment-release.ts:366 | Completion only changes the phase and stays recoverable when the record cannot be written |
| DeploymentReleases.DeploymentRelease.Prepare | lib/deployment-release.ts:231-262 | Preparing refuses when an earlier release was interrupted, the root is not an ordinary directory or a path is malformed; otherwise the persistent paths are those selected from the default ones and those Git reports, without generated ones, and independent of each other |
| DeploymentReleases.GeneratedMeans | lib/deployment-release.ts:72-76 | Generated are dependencies and build output, and in a Laravel project what it compiles, by the directory they are or lie in, but for the marker file of the cache |
| DeploymentReleases.DeploymentRelease.Preflight | lib/deployment-release.ts:294-302 | No directory above the place of a persistent path in the candidate is a link |
| DeploymentReleases.CrashBlocksNextRelease | lib/deployment-release.ts:231-237 | Every crash leaves a journal that stops the next release, or a completed release, or a root and candidate that are as they were |
| DeploymentReleases.ModesInstallTheSame | lib/deployment-release.ts:309-332 | A root that is the overlay on the live data and one assembled from the same trees agree everywhere but on the containers of retained data |
| ReleaseRuns.ContentsActivationIsUndone | lib/deployment-release.ts:290-346 | A whole run in place: an activation that fails anywhere or succeeds, a rollback interrupted any number of times, then a rollback without faults always completes; root and candidate are as before, and the retained data is what was live, or what other processes wrote last since; every crash on the way leaves a journal and trees from which the old candidate and everything of the old root but the retained data can be put back |
| ReleaseRuns.DirectoryActivationIsUndone | lib/deployment-release.ts:309-363 | The same run by directories always ends with exactly the root that was live before; unless the start is in doubt, after every crash on the way the journal and the trees tell that root |
| ReleaseRuns.ContentsRunIsUndone | lib/deployment-release.ts:175-195 | When an application has written to the activated root in between, the rollback completes exactly when the application left the moved paths in place; then displaced content is back as it was, the candidate has what the application made of the new content, and its other files stay, as does its retained data but for what other processes wrote since |
| ReleaseRuns.DirectoryRunIsUndone | lib/deployment-release.ts:338-363 | When an application has written to the activated root in between, the rollback completes exactly when every carried path is still there; the root is then the old one with what the application left at and below the carried paths; unless the start is in doubt, every crash before and after the writing tells which of the two trees to put back |
| ReleaseRuns.CrashesLookAlike | lib/deployment-release.ts:309-335 | Where the start is in doubt, nobody can tell: another start, of a different live tree, passes through the same journal and the same trees, so no reading of them can be right for both |
| ReleaseRuns.BothModesAgree | lib/deployment-release.ts:290-336 | Activating the same trees in both modes gives the same root up to the containers of retained data whenever both succeed and no other process wrote meanwhile; both do when no step fails and nothing is in the way |
| ReleaseRuns.RetryContents | lib/deployment-release.ts:338-346 | However often a rollback in place is interrupted, it completes once faults stop exactly when nothing blocked it at first, with every record in between recoverable |
| ReleaseRuns.RetryDirectory | lib/deployment-release.ts:347-363 | The same by directories, with the tree that was to be restored at first; a record that told which tree to put back does so after every step |
| DirectoryTheory.CarryOver | lib/deployment-release.ts:314-326 | Carrying one more path into the candidate keeps the tree a rollback will restore |
| DirectoryTheory.CarryBack | lib/deployment-release.ts:348-352 | Carrying a path back puts its latest data where it was and changes nothing a rollback still has to restore |
| DirectoryTheory.ArrivedIsAssembled | lib/deployment-release.ts:329-330 | Once the candidate is the root, it is the assembled tree |
| DirectoryTheory.IntactIsHome | lib/deployment-release.ts:347-361 | While the carried data is as it was live, what a rollback puts back is the live tree |
| DirectoryTheory.CarriedMore | lib/deployment-release.ts:314-326 | A carried path arrives as it was live and disturbs none that arrived before |
| DirectoryTheory.TreesTell | lib/deployment-release.ts:309-363 | Without the journal, the trees tell which tree to put back exactly when no persistent path was supplied by the candidate only |
| DirectoryRecords.TellingSettles | lib/deployment-release.ts:90-102 | A journal that is behind the trees still tells, with them, which tree to put back: while activating it may not know yet what has moved, while restoring it may still know what has moved back |
| DirectoryRecords.CarriedTells | lib/deployment-release.ts:314-326 | It still does when a path has been carried over and that is not recorded yet |
| DirectoryRecords.ReturnedTells | lib/deployment-release.ts:348-353 | And when a path has been carried back and that is not recorded yet |
| DirectoryRecords.RestoringTells | lib/deployment-release.ts:338-340 | The record a rollback begins with makes up for whatever the journal did not say |
| DirectoryDoubts.SameAtTurn | lib/deployment-release.ts:314-326 | Live data that was carried over but not recorded, and data the candidate supplies at a path that was not live, leave the same journal and the same trees when its turn comes |
| DirectoryDoubts.DoubtHasLookAlike | lib/deployment-release.ts:309-326 | A start is in doubt when the candidate supplies a persistent path that was not live although its directory was, or when nothing was live and something stands where the previous release belongs; there is then another, equally ordinary start that looks alike |
| DirectoryDoubts.HadBeenLiveIsReplaceable | lib/deployment-release.ts:309-335 | The activation of that other start can succeed whenever the first can |
| SecretRedactor.ScanLosesNothing | lib/exec.ts:32-38 | Putting each redacted secret back and appending the buffer gives the input exactly |
| SecretRedactor.ScanReplacesOnlySecrets | lib/exec.ts:33-34 | Markers stand for secrets only |
| SecretRedactor.RestIsProperPrefix | lib/exec.ts:35 | What stays in the buffer is the beginning of some secret but not all of it, and waits for more |
| SecretRedactor.ScanNeverLeaks | lib/exec.ts:31-38 | For any set of secrets and any splitting of the input, no secret ever occurs in a run of emitted characters, nor can one still come about |
| SecretRedactor.PrefixFreeSplitsAlike | lib/exec.ts:29-40 | If no secret begins another, writing two pieces is writing them joined: same output, same buffer |
| SecretRedactor.StreamingRefinesWhole | lib/exec.ts:29-40 | The same for any number of pieces |
| SecretRedactor.StreamShowsTheReference | lib/exec.ts:29-40 | A stream shows what redacting the whole text position by position shows, up to what is held back |
| SecretRedactor.SplittingShowsExactlyWithNestedSecrets | lib/exec.ts:33-36 | The splitting can be seen in the output exactly when one secret begins another; then the shorter one is redacted before the rest of the longer one arrives |
| SecretRedactor.Arranged | lib/exec.ts:26 | The secrets in use are the non-empty ones, each once, longest first |
| SecretRedactor.Redactor.Write | lib/exec.ts:29-40 | Writing appends to the output and keeps in the buffer what scanning the buffer with the new text gives, and keeps all of the above |
| SecretRedactor.Redactor.Consume | lib/exec.ts:32-37 | The loop takes exactly what scanning takes |
| SecretRedactor.Redactor.End | lib/exec.ts:41-45 | A truncated secret is redacted; nothing received is lost |
| AuditGate.CoversExactlyTheExempt | lib/deployment-cache.ts:220-235 | The recursive walk answers yes exactly when every package reached through inherited findings is described with a non-empty list, every advisory on one has an unexpired exception for this project, package and advisory, and no cycle is reached |
| AuditGate.CoveredWalksEndWell | lib/deployment-cache.ts:220-235 | If the walk answers yes, every chain of inherited findings ends at a settled package it did not go through before |
| AuditGate.WalksEndingWellCover | lib/deployment-cache.ts:220-235 | If every chain ends so, the walk answers yes; it terminates because the trail uses up the packages |
| AuditGate.NeverExempt | lib/deployment-cache.ts:222 | A finding inherited from a missing package, or from one on a cycle, is never exempt |
| AuditGate.MoreExceptionsKeepExemptions | lib/deployment-cache.ts:229-232 | Adding exceptions never takes an exemption away |
| AuditGate.FirstFrom | lib/deployment-cache.ts:229-230 | The exception used is the first that applies |
| AuditGate.Gate.Covered | lib/deployment-cache.ts:220-235 | The walk answers as stated and has then accepted exactly the exceptions used for the packages it reached |
| AuditGate.CoverBlockers | lib/deployment-cache.ts:236-240 | All high and critical findings are covered exactly when all of them are exempt, in whatever order they are looked at |
| AuditGate.ExemptInFull | lib/deployment-cache.ts:220-235 | A package is exempt exactly when, along every chain of inherited findings from it, each package is listed with a non-empty list of causes and each advisory among them has an exception of this project for that package and advisory that has not run out, and no chain comes back to a package |
| AuditGate.ExcuseIsFirst | lib/deployment-cache.ts:229-232 | The exception used for an advisory is the first of the list that is for it, and there is one exactly when the list holds one |
| AuditGate.AssertAuditPassed | lib/deployment-cache.ts:211-250 | The gate passes with blocking counts exactly if the audit ran, its counts of high and critical match the packages it lists as such, there is one, and each of them is exempt; it then reports exactly the exceptions used for such a package and counts nothing as blocking; without blocking counts it passes; every other report fails with its own reason |
| RemoteJobSafety.StepKeeps | lib/managed-servers.ts:83-306 | Each transaction keeps: one running job a server, one active job an application, none on a revoked server, a payload exactly while queued or running, no credentials for a revoked server |
| RemoteJobSafety.EveryRunIsSafe | lib/managed-servers.ts:83-306 | So does every interleaving of them; between any two moments final states were not left, tokens not changed, payloads not replaced, reports only went forward, and servers were not enabled again |
| RemoteJobSafety.RevokingEvolves | lib/managed-servers.ts:97-101 | Revoking changes a job exactly when it is active on that server |
| RemoteJobSafety.RevokedStaysQuiet | lib/managed-servers.ts:94-103 | After a revocation the server has no credentials and never an active job again |
| RemoteJobSafety.ReclaimGivesTheSame | lib/managed-servers.ts:239-252 | Claiming again at any later moment while the job runs gives the same job, token and payload and changes nothing |
| RemoteJobSafety.ClaimOutcomes | lib/managed-servers.ts:233-253 | A claim fails exactly when the job it starts is cancelled under it, and then only the cancellation remains |
| RemoteJobSafety.NoJobMeansIdleOrWithheld | lib/managed-servers.ts:241-250 | A claim that answers "no job" leaves one running exactly when the agent lacks the capability it needs; that job can not be cancelled any more and blocks the server |
| RemoteJobSafety.EnrollmentIsUsedOnce | lib/managed-servers.ts:114-121 | An agent that lost the answer can enroll again without effect, and no other agent can |
| RemoteJobSafety.SecondDeploymentIsRefused | lib/managed-servers.ts:218 | Of two deployments of an application at most one is queued |
| RemoteJobReports.LastAcceptedIsStored | lib/managed-servers.ts:263-282 | Accepted reports are numbered upwards, and status, log, commit and result stored are those of the one with the highest number |
| RemoteJobReports.RepeatsChangeNothing | lib/managed-servers.ts:265 | A report delivered again, or late, changes nothing |
| RemoteJobReports.LastReportDecides | lib/managed-servers.ts:263-282 | Whatever was lost, repeated or reordered before, a last-numbered report decides the job once delivered |
| RemoteJobReports.OrderDoesNotMatter | lib/managed-servers.ts:263-282 | Two deliveries of the same reports leave the same job |
| RemoteJobReports.ReportTouchesOneJob | lib/managed-servers.ts:263-282 | A report changes no job but the one it names, whose token it must show |
| RemoteJobReports.LiveIsTheLatestDeployment | lib/managed-servers.ts:283 | After any run the live commit is that of the deployment accepted last, or unchanged without one |
| RemoteJobOutcomes.NewsIsStored | lib/managed-servers.ts:256-282 | A report under the token of its running job, within the limits on log, sequence and commit and with a higher sequence, is stored, be it of progress, of success with what its kind must bring, or of failure: status, log, sequence and commit are those of the report and the payload goes with the end of the job; no other row changes |
| RemoteJobOutcomes.NewsReachesTheApplication | lib/managed-servers.ts:283-294 | What it means for the application: a deployment sets the live commit, an inspection fills in what the owner left open, a database job settles the database, a check completes the setup; nothing else touches an application |
| RemoteJobOutcomes.OldNewsIsDropped | lib/managed-servers.ts:265 | A report on a job that has ended, or with a number that is not higher, is answered and changes nothing |
| RemoteJobOutcomes.AnythingElseIsRefused | lib/managed-servers.ts:256-278 | Every report beyond the limits, on a job of another server or under another token, and every success without its result is refused with its code and changes nothing |
| RemoteJobOutcomes.SeesMeans | lib/managed-servers.ts:239-243 | A claim goes by the job the server runs, if there is one, and else by one that waited longest among those the agent can carry out |
| RemoteJobOutcomes.RunningJobIsGivenAgain | lib/managed-servers.ts:239-252 | A running job is handed out again as it is, if the agent is fit for it |
| RemoteJobOutcomes.PickedJobStarts | lib/managed-servers.ts:239-252 | Otherwise the picked job, and no other, starts under the new token and is handed out with its payload |
| RemoteJobOutcomes.DeploymentIsQueued | lib/managed-servers.ts:199-231 | A deployment is refused for the first obstacle in the source's order, and otherwise one row is added |
| RemoteJobOutcomes.AccessIsRevoked | lib/managed-servers.ts:93-106 | A revocation cancels, with a note in the log, exactly the jobs that wait or run on the server, and takes its credentials |
| ManagedServers.Manager.RevokeServer | lib/managed-servers.ts:93-106 | Revoking does what the step does: it cancels every active job of the server, and no other |
| ManagedServers.Manager.EnrollAgent | lib/managed-servers.ts:109-123 | Enrolling does what the step does, with its conditions and the uniqueness of agents |
| ManagedServers.Manager.QueueRemoteDeploy | lib/managed-servers.ts:199-231 | Queueing does what the step does, refusing in the source's order |
| ManagedServers.Manager.ClaimJob | lib/managed-servers.ts:233-254 | Claiming does what the step does for a job that waited longest, and undoes itself when it was cancelled meanwhile |
| ManagedServers.Manager.ReportJob | lib/managed-servers.ts:256-297 | Reporting does what the step does, of which `RemoteJobOutcomes` says in terms of the rows what it stores, drops and refuses; malformed, foreign, stale and unsubstantiated reports change nothing |
| ManagedServers.Manager.CancelQueuedJob | lib/managed-servers.ts:299-306 | Only a queued job is cancelled |
| DatabaseRename.SettledSidesAgree | lib/database-rename.ts:113-151 | While no rename is pending, the server and the manager's links show the same renames: all that are recorded as succeeded and none recorded as failed |
| DatabaseRename.PendingSidesAreWhole | lib/database-rename.ts:113-151 | While one is pending each side shows it completely or not at all |
| DatabaseRename.RenameKeepsLinksAliveExactly | lib/database-rename.ts:55-60 | A rename leaves every link pointing at an existing database exactly when no link to the old name was made between the review and the commit |
| DatabaseRename.ServerCommitKeeps | lib/database-rename.ts:143 | A commit on the server may take effect at any time while its row is pending, also after it was given up on |
| DatabaseRename.ManagerCommitKeeps | lib/database-rename.ts:144 | The manager's commit changes its links and the row together, also when it takes effect after it was given up on |
| DatabaseRename.SettlingKeeps | lib/database-rename.ts:149-150 | The row may be marked failed when nothing committed, and for review at any time |
| DatabaseRename.Storage.Attempt | lib/database-rename.ts:132-144 | The two transactions, with failures and lost answers at every statement: the manager is never renamed without the server, before the server was asked to commit nothing is, and without failures both are, unless somebody changed the links meanwhile |
| DatabaseRename.Storage.RenameDatabase | lib/database-rename.ts:105-161 | Over any failures, crashes and lost answers: the row added names exactly the services linked to the database; renamed means the server shows the new name in place of the old one and every such link follows; a pending row refuses further renames; failed means neither side was renamed, succeeded that both were, and anything uncertain is marked for review unless that is lost; with nobody else at work it is refused only for its names or a pending rename, and without failures it succeeds otherwise |
| DeployRun.AcceptedIsNeverRolledBack | lib/deploy.ts:858-896 | Nothing live changes before the activation starts, and an accepted release stays |
| DeployRun.Outcome | lib/deploy.ts:915-970 | Without acceptance the old release is untouched, or rolled back with its service and its workers asked to restart, or the deployment is flagged; success is recorded only for an accepted release and failure only for one that was not |
| DeployRun.EveryEndIsRecorded | lib/deploy.ts:915-970 | In every run that ends, unless the last statement fails to write it, success is recorded exactly when the release was accepted and failure exactly when it was not |
| DeployRun.NothingFailsMeansSuccess | lib/deploy.ts:776-917 | A deployment in which nothing fails ends as a success: the candidate is live and recorded as the active release, its service and the workers run, the preview is gone and the domains are back |
| DeployRunHistory.EveryDeploymentEnds | lib/deploy.ts:776-970 | However its statements end, a deployment comes to its end, after at most twenty of them |
| DeployRunHistory.AcceptedExactlyWithoutFailure | lib/deploy.ts:776-970 | A deployment that has ended has its release accepted exactly when no statement that was carried out before the acceptance failed, and is recorded as a failure exactly when one did |
| DeployRunHistory.FailureActsOrNot | lib/deploy.ts:776-970 | At every place a run comes to, a statement that fails shows outside its whole effect or none, but for the proxy's file, which may have been written alone |
| DeployRunHistory.PausedWorkersRunAgain | lib/deploy.ts:843-950 | Unless the deployment is flagged, exactly the workers it found online have been asked to run again at its end |
| DeployRunHistory.FailedRollbackKeepsTheCandidate | lib/deploy.ts:922-966 | After a rollback that failed no worker is started, and domains that were handed to the candidate stay with it, which is kept alive |
| DeployRunHistory.PreviewIsKeptForTheDomains | lib/deploy.ts:794-798 | The tried candidate is kept running past its trial only for domains, and never on Windows; without a trial there is none |
| DeployRunHistory.PreviewIsLeftBehindExactly | lib/deploy.ts:963-966 | At the end the preview still runs exactly when the domains are with it, which is flagged, or its start was reported as failed, or its last deletion failed |
| DeployRun.ServedPreviewIsAlive | lib/deploy.ts:853-893 | If reloads of the proxy are reported as they are, domains are served by the preview only while it has not been deleted |
| DeployRun.ServingIsSafeExactlyWithoutHandoff | lib/deploy.ts:853-857 | Whatever the proxy reports, that holds in all runs exactly when there is no handoff: a reload that happened and was reported as failed strands the domains |
| DeployRun.FileIsSafeExactlyWithoutHandoff | lib/caddy.ts:260-273 | The proxy's file is another matter: even with honest reloads it can name a deleted preview, exactly when there is a handoff, because it is written before the reload that can fail |
| DeployRun.FileNamesDeletedPreviewOnlyAfterHalfHandoff | lib/caddy.ts:260-273 | That happens only after a handoff that wrote the file and failed |
| DeployRun.StepKeeps | lib/deploy.ts:776-970 | Each statement, however it ends, keeps the relation of the flags to the preview, the proxy, the live directory and the recorded outcome |
| CronExclusion.StepKeeps | lib/cron-jobs.ts:90-109 | Each step of any open transaction keeps the exclusion, the exclusiveness of locks and what each checked transaction relies on |
| CronExclusion.ExclusionHoldsExactlyWhenTidy | lib/cron-jobs.ts:87-109 | In every interleaving no job of a project runs while a deployment of it is being activated, exactly when no job bound to a project has another project's root as its directory |
| CronExclusion.TidyMeansNoOverlap | lib/cron-jobs.ts:87-109 | Said of the rows: in a tidy configuration no job runs while a deployment is in its activation or health phase whose project is the job's own or has the job's directory as its root |
| CronExclusion.NoJobStartsTwice | lib/cron-jobs.ts:96-109 | In every interleaving a claim that goes through starts a job that was not running, and changes nothing else |
| CronExclusion.JobCanStart | lib/cron-jobs.ts:87-109 | With nobody else at work, a job that does not run and that no activation concerns starts |
| CronExclusion.DeploymentCanActivate | lib/deployment-activation.ts:10-21 | And a deployment that waits is activated once no job that concerns its project runs |
| CronExclusion.ClaimCommitKeeps | lib/cron-jobs.ts:92-109 | A job that starts to run cannot have missed an activation, because both hold the same lock |
| CronExclusion.ActivationCommitKeeps | lib/deployment-activation.ts:14-18 | An activation cannot have missed a job, because both hold the same lock |
| CronExclusion.StrayJobClashes | lib/cron-jobs.ts:91-92 | A job of one project in the directory of another starts during the other's activation, since they take different locks |
| OwnedProcesses.OwnedIsLeastClosed | lib/deployment-processes.ts:75-91 | The processes that descend from the seeds are the least set that holds the listed seeds and servers and, with a process, the listed children not older than it |
| OwnedProcesses.OwnedByDescent | lib/deployment-processes.ts:75-91 | Said of the listing: a listed process belongs to the project exactly when it is named or recognised, or the project has a process with its parent's identifier that was not created after it |
| OwnedProcesses.OwnedIsIdempotent | lib/deployment-processes.ts:75-91 | Asking again with the answer as seeds, or of the answer alone, gives the same answer |
| OwnedProcesses.OwnedGrowsWithSeeds | lib/deployment-processes.ts:107 | More seeds never own less |
| OwnedProcesses.OwnedProjectProcesses | lib/deployment-processes.ts:75-91 | The passes end with exactly the descendants of the seeds, whatever the order of the listing |
| OwnedProcesses.CaptureProjectProcesses | lib/deployment-processes.ts:93-99 | Captured is what descends from the processes with the given identifiers; one that is not a positive safe integer, or is the manager's own, is refused |
| OwnedProcesses.CapturedByDescent | lib/deployment-processes.ts:93-99 | What is captured are the listed processes with the given identifiers, in a Laravel project the recognised ones, and their descendants, and no other |
| OwnedProcesses.StopProjectProcesses | lib/deployment-processes.ts:101-113 | Each round stops exactly what then belongs to the known processes; it ends well only after a listing that shows none, gives up on the fourth, and fails otherwise only when the system could not be asked |
| OwnedProcesses.OnlyRelativesAreStopped | lib/deployment-processes.ts:103-110 | Nothing outside a family that holds the captured processes, the project's servers and all their listed children is ever stopped |
| EnvironmentText.RoundTripIsExactWithoutSeparators | lib/environment-text.ts:2-22 | Parsing what was printed gives the same variables in the same order exactly when no value contains U+2028 or U+2029 |
| EnvironmentText.PrintedTextReadsBack | lib/environment-text.ts:2-22 | Otherwise the first such variable is the line that is reported |
| EnvironmentText.PrintingNormalises | lib/environment-text.ts:2-22 | What was read from an accepted text, printed and read again, is the same exactly when no value in it contains U+2028 or U+2029 |
| EnvironmentText.ParseEnvironmentText | lib/environment-text.ts:5-22 | Every accepted text gives valid names, each once; lines are taken in turn up to the first wrong one |
| EnvironmentText.LinesAreBetweenBreaks | lib/environment-text.ts:7 | A text is cut into exactly the lines between its line feeds, each taken with one carriage return before it |
| EnvironmentText.EveryTextIsBroken | lib/environment-text.ts:7 | And every text is broken into lines so |
| EnvironmentText.AssignmentReadsBack | lib/environment-text.ts:10-19 | A printed assignment is read as that variable, also for a name that begins with the keyword |
| EnvironmentText.SeparatorsComeFromEscapes | lib/environment-text.ts:14-19 | Bare and single-quoted values never contain a separator |
| EnvironmentLines.LineMeans | lib/environment-text.ts:8-19 | Every line of the written grammar, with any space around it, is read as what it means: blank lines and comments define nothing, an assignment defines its variable, with or without the keyword and whether single-quoted, bare with a comment or a JSON string; a name used before is reported |
| EnvironmentLines.ReadsExactlyTheLines | lib/environment-text.ts:8-19 | And no other line is read: accepted is exactly what the grammar derives, with any space around it, and defines no name again |
| EnvironmentLines.LineIsSplit | lib/environment-text.ts:10 | An assignment is cut into its name and its value as written, whatever space stands around the keyword and the sign |
| EnvironmentLines.ValueIsRead | lib/environment-text.ts:14-19 | Each form of value is read as the text it stands for |
| JsonStrings.QuotedReadsBack | lib/environment-text.ts:3 | Writing any code units as a JSON string and reading it back gives them again, lone surrogates included |
| JsonStrings.ReadsExactlyTheGrammar | lib/environment-text.ts:14-19 | A quoted text is read exactly when its characters are written as section 7 of RFC 8259 lets them be, escaped in any of its ways, and it is what they mean |
| JsonStrings.WritesUnitByUnit | lib/environment-text.ts:3 | Pairs of surrogates are written as they are, quotes, backslashes and five controls with their letters, other controls and lone surrogates by four digits, and all else as it is |
| JsonStrings.RawUnits | lib/environment-text.ts:3 | A JSON string shows no control characters, but shows line and paragraph separators as they are |
| GitCommand.SplittingGivesMeanings | lib/git-access.ts:69-79 | Splitting a command gives the meaning of its words: quotes go, what is in them stays, and white space outside them separates |
| GitCommand.OpenQuotesAreRefused | lib/git-access.ts:70-78 | And only such commands are split: refused for its quotes is exactly a command that, space at its ends apart, cannot be written as words of bare stretches and closed quotes |
| GitCommand.OnlyGitIsRun | lib/git-access.ts:79-80 | Only a command whose first word is "git" or "git.exe", in any case, is run, with the words after it as its arguments |
| GitCommand.GitArguments | lib/git-access.ts:68-80 | The loop over the characters splits as stated; an open quote and a command that is not Git are refused |
| BuildChanges.CommandNamesTheBatch | lib/deployment-build-changes.ts:138-139 | Whatever the accepted files are called, Git is told to check out exactly the files of the batch |
| BuildChanges.AllFilesAreRestored | lib/deployment-build-changes.ts:127-140 | The commands check out all files in order, at most forty each, none twice and none left out |
| BuildChanges.RestoreGeneratedFiles | lib/deployment-build-changes.ts:126-141 | One unsafe name refuses the whole list before anything runs; otherwise the commands run in order up to the first that fails, and all of them if none does |
| BuildChanges.AcceptedNamesStayInside | lib/deployment-build-changes.ts:15-21 | Accepted are exactly the names that hold no quote, line break or zero, are not empty, absolute or an option, and between their slashes and backslashes have no stretch that is empty or two dots |

## Left out

- Repointing generated links after a move (`lib/deployment-release.ts:197-222`): unlinking and linking again is not atomic, so links below `.next/node_modules` are not covered by the tree results.
- Access control lists and the checks on real paths.
- Case folding of names on Windows: names are compared as they are.
- Renames that replace an existing destination: the code checks before each rename, and `Volume.Rename` fails instead.
- Retries of a rename (`renameReleasePath`): one rename that may fail.
- DeploymentReleases.DeploymentRelease.Activate: in directory mode a persistent path that leads through a link is modelled as a failing rename; other processes write retained data only in contents mode, from the moment the plan is made.
- DeploymentReleases.DeploymentRelease.Prepare: copying the source into the candidate, the checks of the Git checkout and the listing of local files are not part of this model; the list Git gives is a parameter.
- ReleasePlanning.Visit: the names of a directory are visited in any order, which covers the sorted one.
- RetainedPaths.RetainsTheHighest: ties between equal lengths are broken by one fixed order; the result does not depend on it.
- What a restored candidate contains at the places of persistent paths in directory mode: generated data set aside there is not put back by the code.
- SecretRedactor.Redactor.Write: one call of the sink for each write is not modelled, only the text it receives.
- AuditGate.AssertAuditPassed: parsing of the report and of advisory addresses is a parameter, and the clock is read once.
- Redaction of a report's log and the contents of payloads: a log is modelled as it is stored. Audit records, heartbeats and the editing of applications are reduced to what the jobs depend on.
- RemoteJobReports.LiveIsTheLatestDeployment: applications deleted or edited elsewhere are not part of this model, except that an edit waits for active jobs.
- DatabaseRename.Storage.RenameDatabase: other transactions may add and remove links but not move one to another database while a rename runs; databases created or dropped by others and the resolution of rows by an operator are not part of this model; locks held by others show only as a refusal.
- DeployRun.Outcome: the run is a machine on values, one step a statement, so that all ways of failing can be enumerated; it does not show the nesting of the handlers. A crash of the manager is not a step; the release, the services and health checks are steps that succeed or fail; the recorded active release may be written although the answer is lost, so it is implied by acceptance only.
- CronExclusion.ExclusionHoldsExactlyWhenTidy: the transactions are values whose steps interleave, rather than methods that run to their end. Jobs and projects are not edited while a claim is under way (the code reads the job before its transaction). Schedules, database moves and the five-minute limit on waiting are not part of this model.
- OwnedProcesses.OwnedProjectProcesses: recognising a project's PHP server by its command line is a parameter, and creation times are numbers.
- EnvironmentText.ParseEnvironmentText: the text of error messages; the line number and the reason are kept.
- Finding the Git executable and copying files to the backup directory before they are restored.
- `isForeignGitRef`, source fingerprints, cache keys and the installation of dependencies: they would only add easy members, or are claims about hashes.
- Database moves, data migrations and dedicated users: their compensations are incomplete, so clean invariants would need assumptions the code does not establish.
- Replacement of single sites in the proxy's file, user interface, notifications and the clients of other services.
