# Omabit release and installation tooling, verified

A Dafny model of the parts of Omabit's tooling that must not go wrong, with proofs of what they
guarantee. `dafny verify dfyconfig.toml` checks the whole project.

## What is modelled

**The crash-safe panel installer** (`scripts/install-panel.py`). It replaces a live plugin
directory: a new generation is staged in a transaction directory, the installed one is captured
byte for byte, a synced plan is linked as the journal, the two are exchanged atomically, the old
one is put aside as `previous`, and the journal is removed. Recovery looks at directory identities
only.

- `Paths`, `Ownership` and `Packaging`: names, the ownership marker, `snapshot`, and what is staged.
- `Disk`: the file system. Each directory is a history of versions with the last one known to be on
  disk. A power loss keeps a prefix of each history that is no shorter than what was synced; the two
  halves of a rename between directories carry one stamp and survive together or not at all.
  Contents of trees and records that were not synced may be anything afterwards; an unsynced record
  may be torn. A process death keeps everything. This is the one assumption about the file system.
- `Recovery`: the steps installers, editors and power losses may take, and `Good`, the invariant. It
  speaks of every state a power loss could leave *now*, not only of the present one. Steps of any
  number of invocations may interleave in a run.
- `Preservation`: every step keeps `Good`. `Safety` and `Conservation`: what follows for whole runs.
- `Installer`: class `Machine` runs the program text, system call by system call. Every call may fail
  and may be followed by edits by others. A ghost history records every state passed through, and
  the methods are proved to take only the steps of `Recovery`, so the theorems about runs hold at
  every system call: dying there is a run that stops there. `sound` says that the run so far was one
  of these; `calm` says that nobody edits, the desktop is unlocked and nothing fails, and is used for convergence only.
- `Convergence`: what process deaths and power losses leave can always be finished by one retry.
- `Frames`: what each part of the program leaves alone, and when it may take which step.
- `DestinationLock`: the flock protocol between any number of invocations. It is why no other
  installer's steps come between those of one `Machine`.

**The release gate** (`scripts/release_policy.py`, `scripts/check-release-policy.py`,
`scripts/package-release.py`). `Versions` parses versions and compares their order with section 11
of Semantic Versioning 2.0.0. `Promotion` is the gate with its checks in order, and an induction over
histories of accepted promotions. `BackendDigest` relates the two computations of the backend digest.

**Power-cut qualification** (`scripts/qualify-powercut.py`). `Cpio` writes newc records and reads them
back after the kernel's "initramfs buffer format" (cpio_header structure); `Initramfs` is the order
and numbering of the members; `SerialEvents` is the serial loop of `boot`.

**The owned subreaper** (`scripts/test-collection-authority-handoff.py`): `Guardian`.

**The channel updater** (`scripts/omabit-channel.py`): `Channel`.

## Model

| member | source | states |
|---|---|---|
| Paths.PartsOfText | scripts/install-panel.py:105-108 | a path of components written as text is read back as the same components, which is what makes a marker name canonical |
| Paths.CanonicalIff | scripts/install-panel.py:105-107 | a marker may list exactly the texts of paths of components none of which is `..` |
| Paths.AncestorsAreAbove | scripts/install-panel.py:108-108 | the parents of a name are exactly the texts that stand in front of its slashes |
| Paths.AncestorsOfPath | scripts/qualify-powercut.py:194-195 | the parents of a path are exactly the shorter paths it begins with, however deep |
| Ownership.TakeSnapshot | scripts/install-panel.py:62-116 | the walking loop and the marker loop compute the verdict of the specification, refusals included, unless a file changes while it is read, which is always refused |
| Ownership.AcceptedIffOwned | scripts/install-panel.py:94-114 | `snapshot` accepts a tree exactly when its files are the canonical names of the marker plus the marker, its folders are exactly what stands in front of a slash of such a name, nothing is a link and every hash matches |
| Ownership.SnapshotDescribes | scripts/install-panel.py:69-116 | a snapshot carries the identity and metadata of the tree it was taken of, and of every entry its own metadata and, for a file, its hash |
| Ownership.SnapshotIsFaithful | scripts/install-panel.py:62-68 | equal snapshots mean byte-for-byte equal trees |
| Ownership.FoldersCovered | scripts/install-panel.py:103-112 | in a tree without links, the folders are exactly what stands in front of the slashes of the files if and only if no folder is empty |
| Ownership.StagedAcceptedIff | scripts/install-panel.py:280-284 | writer and validator agree: a marked tree is accepted if and only if it had no link, no empty folder and no marker of its own |
| Packaging.StageableIsAccepted | scripts/install-panel.py:273-284 | every copy of installable sources passes the validator whatever inodes, modes and times the copy got |
| Packaging.MarkedCarries | scripts/install-panel.py:273-283 | copying and marking puts the collector at bin/urbit-collector, the desktop at bin/omabit, the runner at bin/urbit-runner, every entry of the plugin under its own name with its own contents, a marker, and nothing else |
| Preservation.StepKeepsGood | scripts/install-panel.py:170-297 | no step of any installer, editor or power loss breaks the invariant over all states a power loss could leave |
| Preservation.KeepsPublish | scripts/install-panel.py:207-208 | the exchange keeps every plan in a legal shape in every pair of surviving directory versions |
| Preservation.KeepsRetireOld | scripts/install-panel.py:225-226 | renaming the retired tree is safe once the parent is synced |
| Preservation.KeepsWritePlan | scripts/install-panel.py:284-292 | a new plan is sound only over a durably staged tree in a durable, otherwise unplanned transaction directory |
| Preservation.KeepsUnlinkJournal | scripts/install-panel.py:235-238 | removing the journal is safe when nothing is published or the retirement is durable |
| Preservation.KeepsLosePower | scripts/install-panel.py:209-213 | a power loss at any moment leaves an invariant state |
| Safety.StartIsGood | scripts/install-panel.py:245-259 | a directory the tool has left nothing in, with any installation or none, starts a run |
| Safety.RunsStayGood | scripts/install-panel.py:170-297 | every state of every run satisfies the invariant |
| Safety.RunsStayTraced | scripts/install-panel.py:207-208 | in every run, whatever can survive at the destination could survive there at the start or is the generation of a durable plan |
| Safety.UntouchedIsOld | scripts/install-panel.py:285-297 | without a journal and without a published generation, the destination is what it was when the run began |
| Safety.PowerLossSafety | scripts/install-panel.py:207-297 | a power loss at any step of any run leaves a wholly synced state that has the destination the run began with and no journal, a recoverable journal, or the completed new installation with the old one under `previous` |
| Safety.JournalShape | scripts/install-panel.py:178-229 | whenever a journal is there its transaction is in exactly one of the five legal shapes, in every pair of surviving directory versions |
| Safety.PresentForever | scripts/install-panel.py:185-208 | once an installation is durably there, the destination names one whole generation ever after, in every crash state of every run with power losses |
| Safety.HereForever | scripts/install-panel.py:207-212 | however many invocations die, while the power is on: from the moment a generation is published, before the parent is synced, the destination names one whole generation in every state |
| Safety.LeftoversStay | scripts/install-panel.py:266-270 | nothing moves into or out of a transaction directory unless the journal names it with the identity it had when planned |
| Safety.StoppedMeansIntent | scripts/install-panel.py:357-364 | a shell stopped by the tool implies a whole, durable restart intent in every crash state |
| Conservation.StepKeepsKept | scripts/install-panel.py:188-238 | no step of anybody makes a generation losable that no power loss could have lost |
| Conservation.KeptForever | scripts/install-panel.py:222-224 | over whole runs: a generation that is durably reachable once stays so, as destination or in a named transaction directory |
| Conservation.StagedIsKept | scripts/install-panel.py:284-293 | a generation is durably reachable from the moment its plan may be written |
| Conservation.InstalledIsKept | scripts/install-panel.py:211-212 | so is an installation whose parent directory is synced |
| Conservation.ContentsAreOthers | scripts/install-panel.py:222-226 | no step of the installer changes a tree other than its own private staging |
| Conservation.PublicForever | scripts/install-panel.py:288-294 | a generation that is installed whatever survives, or that a durable plan speaks of, stays one in every run, so no installer ever takes it for its private staging again |
| Conservation.OnlyOthersChangeIt | scripts/install-panel.py:222-226 | no edit is ever overwritten: over any run such a generation is changed only by its editors, or by a power loss where it was not on disk |
| Convergence.RunsStayUnedited | scripts/install-panel.py:245-297 | in a run without editors, from any owned or empty start, every destination that can survive and every tree a plan replaces stays as it was captured; with power losses, if what was installed was on disk |
| Convergence.RunsRecover | scripts/install-panel.py:245-254 | whatever any number of process deaths and power losses leave of any number of invocations can be finished and then replaced |
| Convergence.Retry | scripts/install-panel.py:245-297 | recovery convergence: after such a run one undisturbed retry succeeds if and only if it may replace, finds a journal or finds no installation; then the requested package is installed, unedited, with no journal, and what it supersedes is under `previous` |
| Convergence.RetryEnabled | scripts/install-panel.py:325-379 | the same around the shell, always: the package installed, unedited, what it supersedes under `previous`, the shell running, no restart owed, nothing published while it ran, one kill at most |
| Frames.AbandonedKeepsOld | scripts/install-panel.py:188-200 | from the state an abandoned recovery leaves: the generation it would have replaced is still the destination |
| Frames.RestoredRecovers | scripts/install-panel.py:195-200 | from that state, putting the old contents back meets every precondition of a fresh replace |
| Installer.Machine.PublishIntent | scripts/install-panel.py:154-167 | the record is whole and synced before it gets its name, the name is synced, and nothing else in the parent has changed; undisturbed, a failure leaves the parent as it was |
| Installer.Machine.StopShell | scripts/install-panel.py:336-364 | refused as locked exactly if the desktop is locked and the shell not stopped yet; success means the shell is stopped with an intent in a synced parent; at most one kill; a second call does nothing |
| Installer.Machine.RestartShell | scripts/install-panel.py:331-334 | success means a running shell and durably no intent |
| Installer.Machine.CheckStaged | scripts/install-panel.py:185-187 | passes only when destination and plan agree and the staged tree is byte for byte what was planned, and refuses without changing anything |
| Installer.Machine.RevalidateOld | scripts/install-panel.py:188-200 | passes only if the installation is byte for byte what was captured; otherwise at most the journal's entry goes |
| Installer.Machine.Abandon | scripts/install-panel.py:195-200 | removes the journal's entry and nothing else, durably |
| Installer.Machine.Swap | scripts/install-panel.py:207-208 | the destination becomes the planned generation in one step; publications with the shell running are counted |
| Installer.Machine.CheckAndSwap | scripts/install-panel.py:205-208 | the old generation was found intact right before the publication: nothing but edits by others comes in between |
| Installer.Machine.PublishStaged | scripts/install-panel.py:185-208 | found intact before the shell is stopped and again after: no publication while the shell runs, one kill at most and never of a locked desktop, refusals undo nothing but the journal |
| Installer.Machine.RetiredChanged | scripts/install-panel.py:214-220 | never calls a retired tree unchanged that is not what was captured; undisturbed, never the other way round |
| Installer.Machine.RetireOldTree | scripts/install-panel.py:214-229 | on success the old generation is under `previous`; the flag says unchanged only if it is what was captured |
| Installer.Machine.NoteCompletion | scripts/install-panel.py:230-234 | the note carries the flag, whole and on disk, unless one was there, which stays; `new` and `previous` stay, the directory is synced |
| Installer.Machine.SyncBoth | scripts/install-panel.py:209-212 | both rename parents are synced before anything else happens |
| Installer.Machine.RemoveJournal | scripts/install-panel.py:235-238 | the journal is removed durably, only after the retirement is durable |
| Installer.Machine.Conclude | scripts/install-panel.py:209-239 | from published to finished: durable destination, durable `previous`, no journal, and a completion note that calls the retired tree unchanged only if it was seen just as captured, and undisturbed exactly if it is |
| Installer.Machine.FinishTransaction | scripts/install-panel.py:170-242 | success finishes the journal's own plan, publishes only what was staged as planned over what was found intact, and leaves a truthful completion note; a journal that is no plan and a replaced directory are refused, exactly those; any refusal changes nothing but, when an installation about to be replaced was edited, the journal's entry; unedited and undisturbed it succeeds |
| Installer.Machine.BeginTransaction | scripts/install-panel.py:266-272 | a fresh transaction directory no plan speaks of, whose name is synced before it is filled |
| Installer.Machine.Fill | scripts/install-panel.py:273-283 | an unedited staged tree carries exactly the package |
| Installer.Machine.CaptureStaged | scripts/install-panel.py:284-284 | the captured snapshot describes the staged tree until somebody edits it |
| Installer.Machine.Settle | scripts/install-panel.py:285-286 | the staged tree and its directory are durable |
| Installer.Machine.Stage | scripts/install-panel.py:269-287 | a new generation, unknown before, whole and durable, carrying the package |
| Installer.Machine.WriteJournal | scripts/install-panel.py:288-296 | the journal names exactly the plan of what was staged, only once plan and directory are durable, and is durable itself on success |
| Installer.Machine.CaptureInstalled | scripts/install-panel.py:255-259 | succeeds only if there is nothing to replace, or replacement was asked for and the installation is unmodified, and then always unless it is disturbed |
| Installer.Machine.InstallFresh | scripts/install-panel.py:255-297 | success installs a generation that did not exist before and carries the package, with the old one under `previous` of a new transaction; any refusal leaves the destination |
| Installer.Machine.InstallLocked | scripts/install-panel.py:245-297 | recovery convergence: whatever the journal was for, an undisturbed call ends with no journal and the requested package installed, each program and file under its own name; one kill at most; what it supersedes, even a generation only its own recovery published, is durably under `previous`; a restart that is owed stays announced however it ends |
| Installer.Machine.SettleIntent | scripts/install-panel.py:367-371 | an earlier intent is honoured with a restart, or refused untouched, exactly if it is not one of the tool |
| Installer.Machine.RestartIfOwed | scripts/install-panel.py:374-378 | whatever became of the installation, a shell that was to be stopped is restarted; only a failure of that restart itself is reported instead, and undisturbed there is none |
| Installer.Machine.ReplaceEnabled | scripts/install-panel.py:325-379 | nothing is published while the shell runs, at most one kill even when recovery and update both publish; a normal end leaves the package installed and what it supersedes under `previous`; however it ends, once the shell was to be stopped it runs again with no intent left, unless the restart itself fails, which leaves the intent; undisturbed, no tree that was there is changed |
| DestinationLock.RunsStayFenced | scripts/install-panel.py:130-143 | in every interleaving, whoever is inside holds the flock of the file the name leads to |
| DestinationLock.MutualExclusion | scripts/install-panel.py:130-143 | at most one invocation is inside, with any number of deaths, if the lock file is not replaced while one is |
| DestinationLock.NextGetsIn | scripts/install-panel.py:138-143 | after the holder dies the next invocation gets in |
| DestinationLock.ReplacedLockAdmitsTwo | scripts/install-panel.py:139-140 | the condition is needed: a concrete run with a replaced lock file and two invocations inside |
| DestinationLock.InsideIsOwned | scripts/install-panel.py:132-137 | in every run, even when the lock file is replaced, whoever has locked or got inside has locked a regular file of our own |
| Versions.FullMatchIff | scripts/release_policy.py:7-7 | the matcher finds exactly the decompositions the pattern describes, so there is at most one |
| Versions.ParseIff | scripts/release_policy.py:13-17 | a text is accepted exactly when it has the documented form and int() converts its numbers, with those numbers |
| Versions.EveryVersionReadsBack | scripts/release_policy.py:13-17 | X.Y.Z, X.Y.Z-edge.N and X.Y.Z-rc.N, with any zeros in front of N, read back as the version written, exactly if no number has more than 4300 digits |
| Versions.SameValueIff | scripts/release_policy.py:17-17 | two iterations are the same number exactly when they differ in leading zeros only |
| Versions.OrderIsPrecedence | scripts/release_policy.py:37-39 | the order agrees with Semantic Versioning's precedence, read independently, on every accepted text |
| Versions.OrderIsTotal | scripts/release_policy.py:37-39 | a strict order, total up to equal meaning |
| Versions.SameMeaningIff | scripts/release_policy.py:13-17 | distinct texts mean the same exactly when only zeros in front of the iteration differ |
| Versions.StableTextIsUnique | scripts/release_policy.py:37-39 | among stable versions the text is determined by the meaning |
| Versions.TextBelowIff | scripts/qualify-powercut.py:198-201 | the order of texts: the first difference decides, or else the length |
| Promotion.OutcomeIsUnique | scripts/check-release-policy.py:42-81 | the order of the checks determines the refusal |
| Promotion.ValidateMasterPromotion | scripts/release_policy.py:60-67 | passes, or refuses with the first check in order that does not hold |
| Promotion.ValidateDistributionChanges | scripts/release_policy.py:77-80 | passes exactly when every changed path may change after the freeze |
| Promotion.CheckVersions | scripts/release_policy.py:94-96 | the loop refuses at the first version that does not parse or is not stable |
| Promotion.CheckEvidence | scripts/release_policy.py:97-112 | order of progress, evidence name, digest, contents, result and source checks |
| Promotion.CheckPath | scripts/release_policy.py:88-112 | one declared path, first failing check decides |
| Promotion.ValidateUpgradePaths | scripts/release_policy.py:83-115 | the loop over all paths, first failing check of the first failing path decides, and the support flag at the end; it passes exactly if nothing in the explicit list of complaints about the fields applies, and refuses only with one that does |
| Promotion.AcceptedPathsAreTested | scripts/release_policy.py:83-115 | acceptance if and only if there are 1 to 64 paths, each of them tested, and one goes through the previous release |
| Promotion.EvidenceStaysInReleases | scripts/release_policy.py:99-102 | accepted evidence names have no component that leads out of docs/releases |
| Promotion.EvidencePathIff | scripts/release_policy.py:101-102 | the accepted evidence names, read off the pattern: docs/releases/, one or more permitted characters, .json, and no part that is empty, `.` or `..` |
| Promotion.Gate | scripts/check-release-policy.py:42-81 | the whole gate refuses with the first failing check of its documented sequence; it passes exactly if no refusal is for this request, and a refusal is always for what is wrong with the fields it is about |
| Promotion.AcceptedIff | scripts/check-release-policy.py:42-81 | acceptance stated on the fields alone, refusal by refusal: commit ids, sizes, versions, branch, channels, UI text, pins, ancestry, changes, qualification version and source, forward evidence, every path and its evidence, backend digests |
| Promotion.AcceptedIsForward | scripts/check-release-policy.py:57-80 | what acceptance gives: a newer stable version, tested paths, allowed changes, the frozen digest |
| Promotion.AnAcceptedRequest | scripts/check-release-policy.py:42-81 | the gate accepts something: a plain promotion that changes any one permitted path |
| Promotion.VersionsRise | scripts/release_policy.py:66-67 | versions strictly increase along every history of accepted promotions |
| Promotion.NoVersionRecurs | scripts/release_policy.py:66-67 | no published version string is ever published again |
| Promotion.ChainOfOne | scripts/release_policy.py:113-115 | one promotion records a rehearsed chain from the version it replaces to its target |
| Promotion.UpgradeChain | scripts/check-release-policy.py:75-76 | from every earlier release there is a strictly increasing chain of stable versions to every later one, each hop rehearsed and recorded by a promotion made in between |
| BackendDigest.ExportSource | scripts/package-release.py:43-84 | succeeds exactly when every entry is a plain blob at a relative path without `..` or `.git`, and writes exactly the entries, with their contents and modes |
| BackendDigest.FrozenBackendDigest | scripts/check-release-policy.py:24-39 | succeeds exactly when every name of the commit is UTF-8 and every backend entry a plain blob, with the digest of exactly the backend entries; the first entry it cannot take decides how it fails |
| BackendDigest.BackendPathIff | scripts/release_policy.py:20-21 | the backend names are exactly those below backend/, internal/ and deploy/ and the eight listed files |
| BackendDigest.SourceDigest | scripts/release_policy.py:24-34 | walking three prefixes and a fixed list finds exactly the backend files |
| BackendDigest.InventoryIsUnique | scripts/check-release-policy.py:24-39 | a listing has one inventory, whatever the order of discovery |
| BackendDigest.ModesSurvive | scripts/package-release.py:79-79 | the executable bit read off the written file is the one of the commit |
| BackendDigest.AnyoneMayExecuteIff | scripts/release_policy.py:33-33 | the executable bit: one of the last three octal digits of the mode is odd |
| BackendDigest.DigestsAgree | scripts/package-release.py:55-79 | whenever a commit can be exported the walk of the tree succeeds with the inventory of the commit; the filter over the commit succeeds if and only if every name is UTF-8 |
| BackendDigest.UndecodableNameHasOneDigest | scripts/check-release-policy.py:30-33 | a concrete commit that can be exported and has no frozen digest |
| BackendDigest.Utf8Iff | scripts/check-release-policy.py:31-31 | a name can be decoded exactly if it is the RFC 3629 encoding of some text without surrogates |
| BackendDigest.DigestIdentifiesBackend | scripts/check-release-policy.py:77-80 | two commits have one digest if and only if their backend entries agree in name, contents and mode |
| BackendDigest.OnlyPolicyMayChange | scripts/release_policy.py:70-80 | of the names that may change after the freeze only the release policy itself is backend source, however git prints them |
| BackendDigest.PromotedBackendIsFrozenIff | scripts/check-release-policy.py:66-80 | a promoted head's backend is the qualified one, but for the release policy file, if and only if no frozen backend file is gone from it |
| BackendDigest.RenamedBackendPasses | scripts/check-release-policy.py:67-68 | a concrete accepted promotion that renames a backend file into docs/ |
| BackendDigest.WholeBackendIsFrozenIff | scripts/check-release-policy.py:66-80 | the whole backend of a promoted head is the qualified one if and only if no frozen backend file is gone and the release policy is unchanged |
| BackendDigest.ChangedPolicyPasses | scripts/release_policy.py:70-80 | a concrete accepted promotion whose head has another release policy, hence another backend digest, than what was qualified |
| BackendDigest.AcceptedDigestIsFrozen | scripts/check-release-policy.py:77-80 | acceptance means that the pinned and qualified digest is the one of the frozen commit and of the tree exported from it |
| BackendDigest.PinsIdentifyBackend | scripts/check-release-policy.py:77-80 | two accepted promotions pin one digest if and only if their frozen commits have the same backend |
| Cpio.WriteEntry | scripts/qualify-powercut.py:145-152 | appends exactly the record of the entry |
| Cpio.FieldReads | scripts/qualify-powercut.py:148-148 | a number takes eight digits if and only if it is below 2^32, is never truncated, reads back, and is written in small letters |
| Cpio.RecordReads | scripts/qualify-powercut.py:145-152 | a record in front of anything is read as the entry, all thirteen fields in place |
| Cpio.ReadFits | scripts/qualify-powercut.py:147-148 | whatever is read is within the format's limits |
| Cpio.HeadersAreAligned | scripts/qualify-powercut.py:149-152 | every header starts at a multiple of four, however large the fields |
| Cpio.RoundTripIff | scripts/qualify-powercut.py:145-152 | reading a written list gives the list back if and only if every number is below 2^32 and no name has a NUL |
| Initramfs.Sort | scripts/qualify-powercut.py:198-198 | each name once, in strict order |
| Initramfs.CollectDirectories | scripts/qualify-powercut.py:193-195 | exactly the six fixed directories and whatever stands in front of a slash of an entry's name |
| Initramfs.WriteInitramfs | scripts/qualify-powercut.py:193-204 | directories by depth, every entry by name, then the trailer, numbered from one without gaps |
| Initramfs.InitramfsReads | scripts/qualify-powercut.py:196-204 | read back by the format, member i has number i + 1 and the name, mode and contents it was given |
| Initramfs.ParentsFirst | scripts/qualify-powercut.py:193-204 | every path that the path of a member begins with is an earlier member, a directory of mode 040755 |
| SerialEvents.LinesAppend | scripts/qualify-powercut.py:257-259 | keeping only the unfinished line loses no line |
| SerialEvents.LinesMakeUp | scripts/qualify-powercut.py:257-259 | the lines and the unfinished rest, each free of newlines, make up the stream |
| SerialEvents.Listen | scripts/qualify-powercut.py:241-273 | records exactly the lines completed by the reads made, and up to the first accepted boundary what the whole stream says; the machine is killed exactly when a crash phase reports the boundary of its case, and any other boundary is the last event and an error |
| SerialEvents.ReadsDoNotMatter | scripts/qualify-powercut.py:241-273 | two ways of cutting a stream into reads agree on everything up to and including the boundary, and on everything if there is none |
| SerialEvents.CutAtBoundary | scripts/qualify-powercut.py:264-273 | the events up to the cut end with the one accepted boundary |
| SerialEvents.EventsAfterBoundaryDiffer | scripts/qualify-powercut.py:258-273 | after the boundary they may differ: two concrete splittings of one stream |
| SerialEvents.ReadsNeverMatterIff | scripts/qualify-powercut.py:241-273 | chunk independence, exactly: all ways of reading a stream record the same if and only if every complete line after its first accepted boundary, should it have one, is ignored |
| Guardian.NoChildMeansNobody | scripts/test-collection-authority-handoff.py:689-693 | ECHILD, no child, if and only if no descendant |
| Guardian.AllDescend | scripts/test-collection-authority-handoff.py:664-667 | every tracked process descends from the guardian, however orphans were reparented |
| Guardian.EventKeepsRooted | scripts/test-collection-authority-handoff.py:664-667 | forks, exits with reparenting to the subreaper and collections keep the tree rooted |
| Guardian.ReapingKeepsAccount | scripts/test-collection-authority-handoff.py:694-695 | nobody is forgotten or reaped twice |
| Guardian.Worker.Drain | scripts/test-collection-authority-handoff.py:688-698 | returns normally only when no descendant is left |
| Guardian.Worker.Close | scripts/test-collection-authority-handoff.py:678-701 | the closed receipt is saved only when no descendant is left and every process ever born is in `reaped` or was collected by its own parent; with a closed receipt the call fails if and only if nobody hears its reply, without one it always fails |
| Guardian.Worker.Serve | scripts/test-collection-authority-handoff.py:702-714 | however it ends, by `stop`, by the end of the input or by an exception: if any saved receipt says closed, no descendant is left; every kill-shell obeyed is in the receipt and in the last one saved; a closed one answers the first stop, or the end of the input |
| Guardian.Worker.Others | scripts/test-collection-authority-handoff.py:699-700 | whatever others do later, a closed receipt stays true |
| Channel.AncestorTransitive | scripts/omabit-channel.py:67-67 | ancestry composes along histories |
| Channel.Checkout.Current | scripts/omabit-channel.py:26-34 | succeeds if and only if the checkout is clean, of the canonical origin and of the plugin; then it names the branch whose tip is checked out, or none |
| Channel.Checkout.Switch | scripts/omabit-channel.py:62-70 | an existing target is checked out only if it fast-forwards; a refusal for divergence, exactly of a target with commits of its own, touches nothing; a switch that fails leaves what its fate says |
| Channel.Checkout.FastForward | scripts/omabit-channel.py:71-71 | refuses exactly a diverged target; otherwise succeeds exactly if git works, and then the target is the fetched commit or was ahead already; a failing or overdue merge moves the target forward or not at all |
| Channel.Checkout.FetchTarget | scripts/omabit-channel.py:50-61 | no branch is touched, and it succeeds if and only if the checkout is clean, canonical and the plugin, a channel is asked for, the desktop is idle, the fetch works and the fetched manifest is the plugin of that channel |
| Channel.Checkout.Follow | scripts/omabit-channel.py:62-73 | from the switch on: a failing call has changed something if and only if the target had not diverged and the commands got far enough; after a switch, the merge failure is reported exactly if the merge fails |
| Channel.Checkout.Update | scripts/omabit-channel.py:49-75 | only the target ref moves and only forward; a diverged target is never checked out; success leaves the branch of the channel asked for checked out (stable master, edge edge, develop develop, none the current one) at the fetched remote, whose manifest names that channel, or already ahead of it; a failing call leaves a trace in branches or checkout exactly if it got to a working switch or merge |
| Channel.Checkout.UpdateAll | scripts/omabit-channel.py:49-75 | over any sequence of calls, remote histories and failing commands each call keeps the promises of `Updated`, and between any two moments every ref has gone forward |
| Channel.MergeFailsAfterSwitch | scripts/omabit-channel.py:62-71 | a concrete failing call that leaves a new branch checked out |
| Channel.RefsOnlyAdvance | scripts/omabit-channel.py:49-75 | in every history of update calls every ref only goes forward |
| Channel.NoRefReturns | scripts/omabit-channel.py:49-75 | in every history of update calls a ref that has left a commit never comes back to it |

## Findings

What the code does not do, with the input and the exact condition.

- `scripts/check-release-policy.py:67` asks git for changed names with rename detection on, which lists
  only the new name of a renamed file. A backend file renamed into `docs/` after the freeze therefore
  passes `validate_distribution_changes` (`BackendDigest.RenamedBackendPasses`). The promoted backend is
  the qualified one, but for `scripts/release_policy.py`, exactly if no frozen backend file is gone from
  the head (`BackendDigest.PromotedBackendIsFrozenIff`).
- `scripts/release_policy.py:73-74` lets the release policy itself change after the freeze although
  `scripts/release_policy.py:9` counts it as backend source (`BackendDigest.ChangedPolicyPasses`); it is
  the only such file (`BackendDigest.OnlyPolicyMayChange`). The promoted head has the digest that was
  qualified exactly if, besides the condition above, the file is unchanged
  (`BackendDigest.WholeBackendIsFrozenIff`).
- `scripts/check-release-policy.py:31` decodes every name of the commit before it looks at the prefix, so
  a name that is not UTF-8, anywhere, fails the gate for a commit that `export_source` accepts
  (`BackendDigest.UndecodableNameHasOneDigest`). Of such a commit both digests exist exactly if every name is UTF-8
  (`BackendDigest.DigestsAgree`).
- `scripts/test-collection-authority-handoff.py:700-701` saves the closed receipt before it replies, so a
  reply that cannot be delivered leaves a closed receipt behind an exception. Given a closed receipt, the
  call fails exactly if nobody hears the reply; the receipt is true all the same (`Guardian.Worker.Close`,
  `Guardian.Worker.Serve`).
- `scripts/qualify-powercut.py:258-274` goes on recording lines of the same read after the boundary, so
  events after it can depend on how the stream was cut into reads (`SerialEvents.EventsAfterBoundaryDiffer`).
  They depend on it exactly if a complete line after the first accepted boundary is not ignored
  (`SerialEvents.ReadsNeverMatterIff`).
- `scripts/omabit-channel.py:62-71` switches branches before it merges and does not switch back. A merge
  that fails or runs out of time after a switch leaves the checkout on the target, newly created or not
  updated (`Channel.MergeFailsAfterSwitch`). A failing call leaves such a trace exactly under
  `Channel.LeavesTrace`, once it may touch branches and the target has not diverged
  (`Channel.Checkout.Update`).

## Left out

- Identities: inode numbers are taken never to be reused while a plan speaks of them.
- SHA-256 is taken to be collision free, and JSON text is modelled as records; a malformed journal is just a record that is no plan.
- Ownership.TakeSnapshot: which file an editor is writing to is a parameter; an edit that falls between the reading of two files is one that came before or after the walk.
- Restart intents and journals placed by other programs are covered only where `sound` is not assumed: such a run is refused or finished, but the run theorems do not speak of it.
- After a power loss the shell is taken to be running again; other programs that start or stop it are not modelled.
- Safety.PowerLossSafety: the captured old tree may be one nobody ever synced, so its contents after a power loss are promised only if it was on disk; its directory entry always is.
- Installer.Machine.Interfere: edits change contents of generations in place; an editor that renames or removes entries of the parent or of a transaction directory is not modelled.
- `installation_path`, `enable_installed`, argument parsing, printing, the environment query of `stop_shell` (one nondeterministic refusal) and time limits; the answer of the lock-screen query is a parameter.
- Installer.Machine.Fill: the modes of copied files, such as 0755 for the programs, are whatever the copy gives.
- `validate_publication`: packaging admission is a chain of direct comparisons.
- BackendDigest.ExportSource: object transfer, the batch protocol of git and the final clean check are trusted.
- Promotion.Gate: a pull request against another branch is let through by the program without any check and is not modelled; documents are modelled by their fields and lengths.
- Initramfs.WriteInitramfs: the encoding of names is a parameter; finding the libraries and modules to include is not modelled.
- SerialEvents.Listen: deadlines, an exited machine and the exit status checks after the loop.
- Guardian.Worker.Serve: the `finally` clause, which kills and collects a shell that is left and records neither.
- Guardian.Worker.Drain: the wall-clock deadline is a number of attempts, for every number; process ids are not reused and there is no nested subreaper.
- Channel.Checkout.UpdateAll: commits and branch changes of the user between two calls are not modelled.
- Channel.Checkout.Fetch: that git refuses a rewritten remote branch is one of the ways a fetch may fail, and nothing is claimed of remote-tracking refs beyond one call.
- Channel.Checkout.Update: what a failing git command may leave in the working tree or index is not modelled, only branches and what is checked out; the validation and the rescan after the merge are one success or failure.
- The collection journal, admission and authority code, the Go backend, desktop drivers and fixtures are not part of this model.
