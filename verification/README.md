# RufusArm64: verified models

RufusArm64 erases USB drives, so most of its code guards a step that cannot be
taken back: a plan is computed, a phrase is typed, a privileged command is
started, evidence is checked, a file is published. This project models those
guards in Dafny and proves what they keep over whole runs: any interleaving of
user events, worker replies, clock readings, other processes and crashes.

Classes and loops stand where the source keeps state and loops; validators that
only check and return are functions over a JSON value type. Every stateful class
is tied to a transition function, and the theorems are about that function's
reachable states: what they never do, and, in the `Runs` modules, what they must
do when the user asks for it.

| files | what they model |
|---|---|
| `FileSystem`, `Kernel`, `Publication`, `AtomicWriters` | crash-safe, no-replace publication on a journalled directory, with an adversary between any two system calls |
| `ReportSaver` | exclusive creation and a loop of partial writes, on one entry without crashes or other processes |
| `RootChain`, `RootUrls`, `ChannelPublication` | the publisher's chain of signed roots and published file names, and the client that follows its URLs |
| `BackupProtocol`, `BackupDialog`, `BackupRuns`, `CaptureProgress` | the three-layer drive-image backup dialog and its progress filters |
| `FormatProtocol`, `FormatDialogs`, `FormatRuns` | the FreeDOS and data-only format dialogs |
| `WindowsOptions`, `WindowsRules`, `WindowsLocale`, `WindowsCommand`, `WindowsToGo` | the re-entrant Windows options dialog, the checks its values must pass, and the Windows To Go layout |
| `PythonJson`, `BoundedCapture` | JSON values as Python converts and compares them; bounded capture of a helper's pipes |
| `FfuKeys`, `FfuReview`, `FfuRestore`, `FfuEscapes`, `FfuBinding`, `FfuSample`, `FfuProtocol`, `FfuDialog`, `FfuRuns` | the FFU evidence chain, the inputs on which its checks raise, what its digests pin down, and the review/restore dialog |
| `FreeDosPlan`, `FreeDosProgress` | the FreeDOS plan and the progress protocol from the uint64 emitter to the reading loop |
| `ElTorito`, `BootCatalogue`, `LinuxIso`, `IsoGate` | the El Torito printer and parser, the fixture writer, and the corpus and GUI decisions |
| `DataOnlyPlan`, `DerSetOrder` | data-only geometry and phrases; the order of DER SET elements |

## What the proofs found

Where an intended property is false of the code, the code is modelled as it is,
a lemma gives an input, and the exact condition is proved where there is one.

- **Two kinds of response freeze the FFU dialog.** `1e999` is legal JSON and parses
  to an infinity, and `int` of it raises `OverflowError`; a review nested deeper
  than `copy.deepcopy` can follow raises `RecursionError`. The worker catches
  neither, so no completion is ever posted. Every accepted response has neighbours
  of both kinds (`InfiniteCountEscapes`, `DeepMemberEscapes`). It happens if and
  only if such a number is converted, or such a review copied, with every check in
  front of it passed (`ReviewEscapesIff`, `RestoreEscapesIff`, `SwallowedIff`); an
  infinity in any other member does nothing (`OnlyConvertedNumbersRaise`). The
  dialog then stays busy for good (`SwallowedForever`). The same conversion escapes
  the image profile, exactly when a numeric field of the plan is reached that holds
  an infinity (`InfinitePlanEscapes`).
- **A URL template can name its file without naming a version.** The token is counted
  and replaced in the raw URL, but the base name is checked on the unescaped path,
  so `{version}/%7Bversion%7D.root.json` is accepted (`EscapedToken`). The
  substituted URL names the version's file if and only if no escaped token follows
  the raw one, and otherwise the same file for every version
  (`TemplateNamesFile`); a client of such a channel stays at its bootstrap root
  (`ClientFollowsPublisher`).
- **A root given twice is published unchecked.** An update that repeats the current
  version with the same digest is accepted without a look at its signatures, and
  the last envelope given for a version is the one that is published. Behind a
  template that names its files, the client ends at the publisher's final root
  exactly when the last copy of every version is properly signed and there are at
  most 32 updates (`ClientFollowsPublisher`);
  that holds whenever no version is given twice (`DistinctVersionsVerify`) and
  fails for the input of `UncheckedCopy`.
- **A refused backup destination keeps the generation.** It clears the path but
  not the generation, so a late reply stores a plan with no path
  (`LateReplyAfterRefusal`). The invariant that holds is guarded by a non-empty
  path.
- **Success is durable exactly when the parent directory's own entry was.** The
  writers sync the parent but never the grandparent in which `MkdirAll` may have
  just linked it (`DurableIffParentIs` and the writers' contracts).
- **Locale normalization is not idempotent exactly on values whose name part ends in
  a line feed and is a tag without it**: `$` also matches before a final line feed,
  so `en_US`, a line feed and `.UTF-8` normalize to a value that keeps it
  (`IdempotentIff`, `LineFeedSurvives`).
- **Two data-only plans share a phrase if and only if they are one layout or one
  stands inside the other** (`PhraseIff`), which takes a blank in a device path
  (`PhraseDetermines`). Two accepted payloads for different devices and filesystems
  do (`AcceptedCollision`).
- **Three names pass the publisher's name check and still cannot be published**: `.`,
  `..` and `SHA256SUMS` fail in the exclusive open. An undisturbed publication
  succeeds exactly without them (`WritePublicationDirectory`).
- **The adjacent-pair scan equals X.690 on parsed encodings only because no
  complete encoding is a proper prefix of another**
  (`PrefixesSeparateScanFromStandard` shows what happens without that).
- **A profile already attached to an inspection can make the corpus and the GUI
  disagree** (`PriorProfileOverrides`).
- **Values of the Windows dialog at rest can still be refused**, exactly for what
  `StillRefuses` lists: the main window's own fields (identity, layout names, label,
  cluster; for Windows To Go also drivers, DBX file, full format and bad-block
  check), BIOS with GPT, boot files that are not proven, and an image without
  complete evidence (`ValuesAreAccepted`). The last cannot happen on an analysis
  that passed its own checks (`AnalysedImagesAreProven`).

## Model

| member | source | states |
|---|---|---|
| FileSystem.UnpublishedIsSafe | cmd/rufus-channel-admin/main.go:641-751 | while nothing of ours can be reached under the name, a reader finds the old entry or nothing short of the complete goal, now and after a crash |
| FileSystem.ActInterferes | cmd/rufus-channel-admin/main.go:749-751 | every single action of another process, creating or removing its own entries, stays inside the interference frame the proofs assume |
| FileSystem.InterferenceTransitive | cmd/rufus-channel-admin/main.go:749-751 | the frame is closed under repetition, so any number of foreign actions fits between two calls |
| FileSystem.OursStable | cmd/rufus-channel-admin/main.go:749-758 | an entry of ours, with all its possible crash states, survives whatever other processes do |
| Kernels.Kernel.Interfere | cmd/rufus-channel-admin/main.go:641-759 | arbitrary foreign actions before any call, each the next one listed, keep the trace invariant; every one of them is run |
| Kernels.Kernel.Commit | cmd/rufus-channel-admin/main.go:641-759 | a step of ours that publishes nothing keeps every foreign entry, and the watched name whoever owns it; the trace records it as ours |
| Kernels.Kernel.Publish | cmd/rufus-channel-admin/main.go:749-751 | the one step that publishes goes straight from a free name, or with replacement from the old entry, to the complete goal, adds only the new target to what a crash can show, and keeps every other foreign entry |
| Kernels.Kernel.Suffer | cmd/rufus-channel-admin/main.go:749-751 | a step put down to another process is that process's next action and no other |
| Kernels.OwnStepReveals | cmd/rufus-channel-admin/main.go:641-759 | no step of ours shows anything new at the watched name but the complete goal, now or after a crash |
| Kernels.OwnStepKeepsView | cmd/rufus-channel-admin/main.go:862-932 | no step of ours takes away what a reader sees, except for the complete goal |
| Kernels.OldOrNew | cmd/rufus-channel-admin/main.go:862-932 | while other processes leave an old entry alone, every moment of a run, now and after a crash, shows that entry or the complete new content and never nothing |
| Kernels.EntriesStay | cmd/rufus-channel-admin/main.go:641-759 | a foreign entry stays for as long as other processes let it, at every name but the watched one and without replacement there too |
| Kernels.PublishedFromFree | cmd/rufus-channel-admin/main.go:749 | without replacement the name was free at the moment before the step of ours that published it |
| Kernels.SecureIsSafe | cmd/rufus-channel-admin/main.go:641-759 | unpublished or completely published states show a reader only the old entry, nothing, or the complete goal, now and after a crash |
| Kernels.DurableIffParentIs | cmd/rufus-channel-admin/main.go:752-758 | once the name itself is settled, a crash can lose the publication if and only if the parent's own entry is not durable |
| Kernels.SyncParent | cmd/rufus-channel-admin/main.go:926-931 | opening and syncing the parent settles the published name, or fails with the publication still complete |
| Kernels.SyncPublished | cmd/rufus-channel-admin/main.go:752-758 | the last step of every writer: success is durable if and only if the parent's own entry is |
| Kernels.CreateParent | cmd/rufus-channel-admin/main.go:656-658 | the parent directory is made if need be, its own entry as durable as before; this fails only in a disturbed run |
| Kernels.ActionsSpare | cmd/rufus-channel-admin/main.go:641-759 | foreign actions that never create a name leave it as it was or free |
| Publication.SortSorts | cmd/rufus-channel-admin/main.go:687 | sorting distinct names yields a strictly ascending listing of the same names |
| Publication.SortedListingIsUnique | cmd/rufus-channel-admin/main.go:680-687 | a set of names has one sorted listing, so map iteration order cannot show in the result |
| Publication.BeforeIsDictionary | cmd/rufus-channel-admin/main.go:687 | the order of the listing is that of a dictionary over characters |
| Publication.JoinedLines | cmd/rufus-channel-admin/main.go:688-714 | joining the digest lines gives one line per file in listing order with a final line feed |
| Publication.CollectNames | cmd/rufus-channel-admin/main.go:680-687 | ranging over the map in any order accepts exactly when every name is plain, and returns the sorted listing of all keys |
| Publication.StageFile | cmd/rufus-channel-admin/main.go:692-710 | on success one more file is staged with its full bytes and mode, synced; on failure the private directory stays ours; nothing is published; in an undisturbed run only a name that is taken, or is no file name, fails |
| Publication.StageAll | cmd/rufus-channel-admin/main.go:688-734 | on success the private directory holds exactly the goal: every file in full plus SHA256SUMS with its sorted lines |
| Publication.RenamePublishes | cmd/rufus-channel-admin/main.go:749 | renaming a whole node of ours onto a free name is one publishing step |
| Publication.MakeTemporary | cmd/rufus-channel-admin/main.go:670-673 | the private directory is new, empty and ours, and the published name is untouched |
| Publication.RemoveAll | cmd/rufus-channel-admin/main.go:675-679 | the deferred clean-up publishes nothing and leaves the temporary name free unless the removal itself failed |
| Publication.PublishStaged | cmd/rufus-channel-admin/main.go:735-751 | syncing and renaming either completes the publication or leaves the name unpublished with the temporary still ours |
| Publication.RenameReady | cmd/rufus-channel-admin/main.go:735-751 | renaming the staged directory completes the publication, or fails with the name unpublished and the private directory still ours |
| Publication.PrepareParent | cmd/rufus-channel-admin/main.go:650-669 | success means that the destination was seen free, that the parent exists, and that its own entry is durable exactly if it was before; a free destination in an undisturbed run means success |
| Publication.FillAndPublish | cmd/rufus-channel-admin/main.go:674-752 | success means complete; failure means unpublished with the temporary directory gone unless its removal failed |
| Publication.PublishUnder | cmd/rufus-channel-admin/main.go:670-759 | from the private directory to the synced parent: success is complete and durable if and only if the parent's entry was, failure is unpublished or complete |
| Publication.WritePublicationDirectory | cmd/rufus-channel-admin/main.go:641-759 | over the whole run, with faults, crashes and other processes at every point: success publishes exactly the goal onto a name that was seen free, durably if and only if the parent's entry was durable, and needs a parent without symbolic links; failure leaves it unpublished or complete; no step of ours removes or replaces a foreign entry; a run in which no call fails and nobody takes the two names, both free, succeeds if and only if the path is not blank, the parent is plain and every name can be published |
| Publication.GoalIsUnique | cmd/rufus-channel-admin/main.go:681-714 | a set of files has at most one publication, byte for byte |
| Publication.GoalExists | cmd/rufus-channel-admin/main.go:681-714 | every set of files has a publication, so the contract can be met |
| RootChain.VerifyRootChainSequence | internal/acquisition/admin.go:365-388 | the loop succeeds exactly for chains in which each envelope verifies against the root before it and the last root has not expired |
| RootChain.ReadsAsRoot | internal/acquisition/trust.go:137-177 | if digests identify metadata, every envelope of a verified chain reads as its root, even a repeated one whose signatures were not checked |
| RootChain.Advances | internal/acquisition/trust.go:158-169 | along a chain versions never fall and advance by at most one, generation times never fall, and a version names one root |
| RootChain.RisingChainIff | internal/acquisition/trust.go:137-177 | a chain whose versions all differ is accepted exactly if every root is signed by the one before it and by itself, one version on and not generated earlier |
| RootChain.Refresh | internal/acquisition/channel.go:96-149 | the client's refresh loop ends and computes its step-by-step definition |
| RootChain.Climbs | internal/acquisition/channel.go:121-149 | a client reaches the last served root exactly if every update succeeds and there are at most 32 of them, and otherwise refuses |
| RootUrls.RootNameDetermines | cmd/rufus-channel-admin/main.go:563 | different versions have different file names |
| RootUrls.BaseIs | cmd/rufus-channel-admin/main.go:619 | the base of a path is what stands between its last inner slash and its trailing slashes |
| RootUrls.TemplateNamesFile | internal/acquisition/channel.go:297-302 | for every template the checks accept, substituting a version yields a URL that names that version's file if and only if no escaped token follows the raw one; otherwise it names one file for all versions |
| RootUrls.EscapedToken | cmd/rufus-channel-admin/main.go:614-621 | an accepted template whose second token is written with escapes |
| ChannelPublication.RootFiles | cmd/rufus-channel-admin/main.go:557-564 | the loop stores exactly one file per version, holding the last envelope given for it |
| ChannelPublication.AddOthers | cmd/rufus-channel-admin/main.go:565-611 | catalog, release, configuration and summary join the root files without displacing any |
| ChannelPublication.Publish | cmd/rufus-channel-admin/main.go:498-612 | exactly the admissible requests are published, with exactly the stated files under their names |
| ChannelPublication.NamesArePlain | cmd/rufus-channel-admin/main.go:681-716 | no published name is refused by the directory writer or collides with its checksum list |
| ChannelPublication.UrlsNamePublished | cmd/rufus-channel-admin/main.go:614-640 | the catalog and release URLs of an admissible request name the published files with their canonical content |
| ChannelPublication.ClientFollowsPublisher | internal/acquisition/channel.go:91-149 | a client that starts from the published bootstrap root and follows the published URLs ends at the publisher's final root exactly if the template names its files, the last copy of every version is properly signed and the update limit holds; with a template that does not it stays at the bootstrap root, and otherwise it refuses |
| ChannelPublication.DistinctVersionsVerify | internal/acquisition/admin.go:365-388 | if no version is given twice, every published copy is properly signed |
| ChannelPublication.UncheckedCopy | internal/acquisition/trust.go:158-163 | with a version given twice, an unsigned second copy can be published and the client then refuses |
| AtomicWriters.RenameReplaces | cmd/rufus-channel-admin/main.go:916-924 | the rename of a full synced temporary is one publishing step: from a free name, or with force from the old file, straight to the complete new content |
| AtomicWriters.WriteTemporary | cmd/rufus-channel-admin/main.go:885-908 | creating, filling and syncing the temporary publishes nothing and on success holds exactly the data with mode 0600 |
| AtomicWriters.RemoveTemporary | cmd/rufus-channel-admin/main.go:891-896 | the temporary name is free afterwards unless the removal itself failed |
| AtomicWriters.WriteAndReplace | cmd/rufus-channel-admin/main.go:885-925 | the shared core: success is the complete new content, failure leaves the name unpublished; in between the old entry is never taken away |
| AtomicWriters.PrepareOutput | cmd/rufus-channel-admin/main.go:871-884 | success means that the parent exists and that the destination was seen free or, with force, a regular file |
| AtomicWriters.WriteAtomicOutput | cmd/rufus-channel-admin/main.go:862-932 | atomic replacement with force, atomic creation without: success is the complete content, from a destination seen free without force, durable if and only if the parent's entry was; every step of ours keeps the old entry until the complete new content stands in its place; an undisturbed run onto a free name, or with force onto a regular file, succeeds exactly for a path that is not blank |
| AtomicWriters.AtomicWriteJson | gui/rufusarm64_logic.py:10-45 | the same atomic replacement: the old entry stays until the complete new content stands in its place; an undisturbed run onto anything but a directory succeeds exactly if the directory is real |
| ReportSaver.WriteAll | gui/rufusarm64_qualification_report.py:58-63 | for any sequence of partial writes the file holds a prefix at all times and the whole document on success; progress on every write means success |
| ReportSaver.SaveNewReport | gui/rufusarm64_qualification_report.py:34-83 | on one entry: success only into a name that was free, with exactly the document, its bytes and its name synced; failure with a working unlink leaves the name as it was; a foreign entry is never touched |
| BackupProtocol.StepKeeps | gui/rufusarm64_drive_backup_formats.py:92-231 | every event, in any state satisfying the invariant and with any change of the file system, keeps the invariant |
| BackupProtocol.EveryReachableState | gui/rufusarm64_drive_backup_iso.py:57-171 | the invariant holds after every interleaving of format changes, destinations, replies, clicks and completions |
| BackupProtocol.PlanMatchesSelection | gui/rufusarm64_device_qualify_dialog.py:500-541 | a stored plan with a non-empty path is for the device, identity, path and format now selected |
| BackupProtocol.LateReplyAfterRefusal | gui/rufusarm64_device_qualify_dialog.py:453-460 | the unguarded invariant is false: a refused destination and a late reply leave a plan with an empty path |
| BackupProtocol.FrozenWhileRunning | gui/rufusarm64_device_qualify_dialog.py:527-541 | while a run lasts no event changes its plan, path, format or launch record |
| BackupProtocol.LaunchesNameTheirPlan | gui/rufusarm64_drive_backup_iso.py:142-171 | every command ever started repeats exactly the plan whose phrase was typed |
| BackupProtocol.ResultIsNeverLost | gui/rufusarm64_device_qualify_dialog.py:656-688 | while running exactly one completion is outstanding, under the current generation, and delivering it ends the run |
| BackupProtocol.StaleReplyIsInert | gui/rufusarm64_device_qualify_dialog.py:500-502 | a planner reply of another generation changes nothing but the queue |
| BackupRuns.PlansAreSound | gui/rufusarm64_device_qualify_dialog.py:460-515 | in every reachable state a command could be built for each plan, made or awaited |
| BackupRuns.ClickLaunchesIff | gui/rufusarm64_drive_backup_formats.py:201-231 | in every reachable open state a click adds exactly one launch, of the stored plan's own command, if and only if no run lasts, the plan's path is free, its phrase was typed and both programs are there; otherwise it changes nothing |
| BackupRuns.EveryPlanCanBeRun | gui/rufusarm64_drive_backup_iso.py:57-171 | from every reachable state at rest, choosing any free destination, any plan of it, its phrase and a click start exactly that plan's command, with the button armed before |
| BackupRuns.SampleRuns | gui/rufusarm64_iso_capture.py:44-70 | two whole runs from the start, a raw image and a filesystem ISO, with their exact commands |
| BackupRuns.RunEnds | gui/rufusarm64_drive_backup_iso.py:282-312 | a completed run clears the phrase and disarms the button, and keeps the plan exactly if there was no report |
| BackupDialog.DriveImageBackupDialog.constructor | gui/rufusarm64_device_qualify_dialog.py:313-328 | a new dialog is in the initial protocol state |
| BackupDialog.DriveImageBackupDialog.BaseConfirmationChanged | gui/rufusarm64_device_qualify_dialog.py:517-525 | the base handler arms the button exactly for the SAVE phrase of the selected device and path |
| BackupDialog.DriveImageBackupDialog.ConfirmationChanged | gui/rufusarm64_drive_backup_iso.py:130-140 | the overriding layer implements the protocol's arming for all four formats |
| BackupDialog.DriveImageBackupDialog.RefreshPlan | gui/rufusarm64_drive_backup_iso.py:57-85 | asking for a plan, through either layer, is the protocol's request under a fresh generation |
| BackupDialog.DriveImageBackupDialog.FormatChanged | gui/rufusarm64_drive_backup_formats.py:92-107 | a format change with the signals it fires is one protocol step |
| BackupDialog.DriveImageBackupDialog.ChooseDestination | gui/rufusarm64_drive_backup_formats.py:108-151 | accepted and refused destinations with the signals they fire are one protocol step |
| BackupDialog.DriveImageBackupDialog.BasePlanReady | gui/rufusarm64_device_qualify_dialog.py:500-515 | the base handler drops stale replies, stores the plan, and is cut short when its phrase cannot be built |
| BackupDialog.DriveImageBackupDialog.PlanReady | gui/rufusarm64_drive_backup_iso.py:104-129 | the ISO layer over the base handler is one protocol step for every outcome |
| BackupDialog.DriveImageBackupDialog.SetRunning | gui/rufusarm64_drive_backup_formats.py:197-199 | entering a run disarms the button, leaving it rearms by the phrase |
| BackupDialog.DriveImageBackupDialog.FormatsStartRun | gui/rufusarm64_drive_backup_formats.py:201-231 | a click outside ISO launches exactly when the protocol allows it, with the protocol's command |
| BackupDialog.DriveImageBackupDialog.StartRun | gui/rufusarm64_drive_backup_iso.py:142-171 | the outer handler dispatches to the right layer and is one protocol step, so what `BackupRuns` says of a click holds of it |
| BackupDialog.DriveImageBackupDialog.IsoStartRun | gui/rufusarm64_drive_backup_iso.py:145-171 | an ISO click launches exactly for the plan's own phrase and repeats its evidence in the command |
| BackupDialog.DriveImageBackupDialog.RunReady | gui/rufusarm64_drive_backup_iso.py:282-312 | a completion ends the run of its generation only, clears the phrase, and drops the plan if a report came |
| BackupDialog.DriveImageBackupDialog.OnDeleteEvent | gui/rufusarm64_device_qualify_dialog.py:711-719 | closing is vetoed while running and otherwise outdates every outstanding message |
| CaptureProgress.ReadLines | gui/rufusarm64_drive_backup_iso.py:173-216 | the reading loop queues the longest sound prefix: within the plan's bounds and no phase ever backwards; it stops exactly at the first malformed or unsound line; kept diagnostics respect both limits, and texts that fit them together are all kept |
| CaptureProgress.TotalsByPhase | gui/rufusarm64_drive_backup_iso.py:194-208 | the totals a record may state, phase by phase, for image and filesystem runs |
| CaptureProgress.ProgressBar.ProgressReady | gui/rufusarm64_drive_backup_iso.py:261-280 | the display ignores other generations, shows the protocol's next view, and for every record shown with a total its fraction is exactly done over total |
| CaptureProgress.ShowsAllIff | gui/rufusarm64_drive_backup_formats.py:296-311 | the display shows every record if and only if no record is below its direct neighbour of the same phase |
| CaptureProgress.NothingIsDropped | gui/rufusarm64_drive_backup_formats.py:252-261 | every record the worker queues is shown: its rule per phase implies the display's rule per neighbour |
| CaptureProgress.DisplayIsWeaker | gui/rufusarm64_drive_backup_formats.py:296-311 | the converse is false: interleaved phases hide a step back from the display |
| FormatProtocol.StepKeeps | gui/rufusarm64_nonbootable_dialog.py:182-314 | every event keeps the invariant of the format dialogs |
| FormatProtocol.EveryReachableState | gui/rufusarm64_freedos_dialog.py:176-315 | the invariant holds after every interleaving of edits, replies, clicks and completions |
| FormatProtocol.PlanMatchesChoices | gui/rufusarm64_nonbootable_dialog.py:190-314 | in every reachable state a stored plan is for the current choices, device and identity, and every launch names its reviewed plan |
| FormatProtocol.StaleMessagesAreInert | gui/rufusarm64_freedos_dialog.py:226-228 | planner and run messages of other generations change nothing but the queue |
| FormatProtocol.ResultIsNeverLost | gui/rufusarm64_freedos_dialog.py:417-451 | while running one completion is outstanding and it ends the run |
| FormatRuns.ClickLaunchesIff | gui/rufusarm64_nonbootable_dialog.py:284-314 | in every reachable open state a click adds exactly one launch, of the stored plan, if and only if its phrase was typed, no run lasts and the command can be built; otherwise it changes nothing |
| FormatRuns.EveryPlanCanBeRun | gui/rufusarm64_freedos_dialog.py:176-345 | from every reachable state at rest, any choice a command accepts, any plan of it, its phrase and a click start that plan |
| FormatRuns.RunEnds | gui/rufusarm64_freedos_dialog.py:417-451 | a completed run clears the phrase and disarms the button, and keeps the plan exactly if there was no report |
| FormatDialogs.FormatDialog.constructor | gui/rufusarm64_nonbootable_dialog.py:30-60 | a new dialog asks for a plan of its initial choices |
| FormatDialogs.FormatDialog.RefreshPlan | gui/rufusarm64_nonbootable_dialog.py:197-212 | a request, or the immediate failure when no command can be built, is the protocol's step |
| FormatDialogs.FormatDialog.PlanReady | gui/rufusarm64_freedos_dialog.py:226-245 | stale replies are dropped; otherwise the plan is stored or cleared and the button rearmed |
| FormatDialogs.FormatDialog.SelectionChanged | gui/rufusarm64_freedos_dialog.py:176-187 | the handler that rewrites its own text fires itself once more, ends, and is one protocol edit of the upper-case label |
| FormatDialogs.FormatDialog.EditChoices | gui/rufusarm64_nonbootable_dialog.py:182-195 | a user edit leads to the choices as the planner sees them, labels of FAT layouts in upper case |
| FormatDialogs.FormatDialog.StartRun | gui/rufusarm64_nonbootable_dialog.py:284-314 | a click launches exactly when the phrase of the stored plan was typed and the command can be built, and the command repeats the plan |
| FormatDialogs.FormatDialog.RunReady | gui/rufusarm64_freedos_dialog.py:417-451 | a completion of the current generation ends the run, clears the phrase and drops the plan if a report came |
| FormatDialogs.FormatDialog.OnDeleteEvent | gui/rufusarm64_nonbootable_dialog.py:443-452 | closing is vetoed while running and otherwise outdates every outstanding message |
| BoundedCapture.WithinLimits | gui/rufusarm64_ffu_json.py:124-135 | for every sequence of chunks both buffers stay within their limits |
| BoundedCapture.FrozenAfterOverflow | gui/rufusarm64_ffu_json.py:125-126 | after the first overflow nothing that arrives changes either buffer or the overflowing channel |
| BoundedCapture.CapturesWhatWasSent | gui/rufusarm64_ffu_json.py:115-135 | without overflow each buffer is the in-order concatenation of its channel's chunks up to end of file; with overflow a prefix of it |
| BoundedCapture.OverflowIsExact | gui/rufusarm64_ffu_json.py:129-134 | overflow is reported if and only if some channel sent more than its limit |
| BoundedCapture.OneGracefulStop | gui/rufusarm64_ffu_json.py:86-93 | an ordered log of stops holds at most one graceful stop, the first |
| BoundedCapture.ReadRound | gui/rufusarm64_ffu_json.py:115-135 | one select round folds its events into the buffers and requests a stop only on the first overflow |
| BoundedCapture.StopIfDue | gui/rufusarm64_ffu_json.py:97-113 | stops stay in order: one graceful, then forced ones to a live process more than the grace period apart; a process found alive is left with a stop no older than that |
| BoundedCapture.CommunicateBounded | gui/rufusarm64_ffu_json.py:54-155 | a capture ends at the first poll that finds the process gone with both pipes at end of file; it is a timeout if and only if some iteration of the run read the clock more than the timeout after its start, else an overflow if and only if a limit was exceeded, else a result if and only if both channels decode, with exactly what was sent; no stop is sent otherwise, one is sent by the iteration that finds a timeout or overflow, and a process found alive longer than the grace period after the last stop is stopped by force |
| BoundedCapture.Conclude | gui/rufusarm64_ffu_json.py:145-155 | timeout wins over overflow, overflow over decoding, and decoding succeeds exactly if both buffers decode |
| PythonJson.RejectDuplicateMembers | gui/rufusarm64_ffu_json.py:20-26 | accepted exactly when no key occurs twice, and the object then holds every pair |
| PythonJson.PositiveInt | gui/rufusarm64_logic.py:1130-1140 | the conversion escapes its caller exactly on an infinity; an accepted value is positive, or zero where allowed, and a large enough integer is accepted as it is |
| PythonJson.Sha | gui/rufusarm64_logic.py:1143-1147 | an accepted digest is the stripped text and 64 lower-case hexadecimal digits |
| PythonJson.Path | gui/rufusarm64_logic.py:1150-1156 | an accepted path is the stripped, non-empty text |
| FfuReview.ReadTarget | gui/rufusarm64_logic.py:1307-1327 | the target plan fixes the geometry, with a positive capacity |
| FfuReview.LinkPlans | gui/rufusarm64_logic.py:1307-1366 | three accepted plans state one geometry and link to each other's digests |
| FfuReview.Mounts | gui/rufusarm64_logic.py:1368-1380 | the unmount flag mirrors whether any target is mounted |
| FfuReview.NormalizeReview | gui/rufusarm64_logic.py:1222-1415 | an accepted review is about the target its three linked plans agree on, states every flag and digest, and its phrase is the one for that path and size |
| FfuReview.AcceptedReviewIsGuarded | gui/rufusarm64_logic.py:1264-1306 | a review is accepted only with plans of version 1 and of their kinds, an authenticated source, a whole removable drive seen again as planned, neither running system nor protected mounts on it, and no claim of execution |
| FfuRestore.Correlate | gui/rufusarm64_ffu_restore_logic.py:116-140 | a response is correlated only with an accepted review equal to it on every stable field |
| FfuRestore.TargetSessionSha | gui/rufusarm64_ffu_restore_logic.py:190-229 | an accepted session names the digest of the source lease |
| FfuRestore.ConfirmationSha | gui/rufusarm64_ffu_restore_logic.py:230-263 | an accepted confirmation names the digest of the session |
| FfuRestore.ReadAuthorization | gui/rufusarm64_ffu_restore_logic.py:264-304 | an accepted authorization names the digests of all six records before it and a positive number of operations |
| FfuRestore.ReadExecution | gui/rufusarm64_ffu_restore_logic.py:305-328 | an accepted execution names the authorization, and its outcome is the verdict on its accounting |
| FfuRestore.Verdict | gui/rufusarm64_ffu_restore_logic.py:329-397 | the outcome is the one that status, flags and byte accounting say, and the counts stay within the plan |
| FfuRestore.NormalizeRestore | gui/rufusarm64_ffu_restore_logic.py:143-416 | an accepted response is a complete chain of digests with a verdict about the reviewed target, and its review marks the execution as attempted |
| FfuRestore.BuildRestoreCommand | gui/rufusarm64_ffu_restore_logic.py:71-113 | a command is built only from an accepted review without mounts and for its exact phrase, and names that review's target and source |
| FfuEscapes.ReviewEscapesIff | gui/rufusarm64_logic.py:1222-1415 | a review raises if and only if a number that is converted is infinite and every check in front of that conversion passes; it is accepted if and only if all checks pass |
| FfuEscapes.OnlyConvertedNumbersRaise | gui/rufusarm64_logic.py:1130-1140 | with the converted numbers finite no review raises, whatever infinities stand elsewhere |
| FfuEscapes.RestoreEscapesIff | gui/rufusarm64_ffu_restore_logic.py:60-416 | a response raises if and only if a converted number of it, or of the confirmed review, is infinite or its review nests deeper than the copy allows, with every check in front of that passed |
| FfuEscapes.DeepMemberEscapes | gui/rufusarm64_ffu_restore_logic.py:62-68 | every accepted response, given a review member nested too deeply, read or not, is neither accepted nor rejected: the error escapes |
| FfuBinding.AuthorizationBindsEvidence | gui/rufusarm64_ffu_restore_logic.py:143-327 | if the digests of two accepted responses do not collide and their executions name one authorization digest, all seven records before the execution agree |
| FfuBinding.AuthorizationBindsTarget | gui/rufusarm64_logic.py:1264-1385 | hence target path, identity, capacity, planned bytes and phrase agree |
| FfuBinding.EvidenceNamesTheCommand | gui/rufusarm64_ffu_restore_logic.py:71-140 | evidence accepted against a review names the device, identity, capacity and binding of the command built from that review |
| FfuBinding.UnchangedMeansUntouched | gui/rufusarm64_ffu_restore_logic.py:329-397 | the unchanged outcome needs zero bytes written, no mutation, no partial flag and no cancellation after mutation |
| FfuBinding.OutcomesExclude | gui/rufusarm64_ffu_restore_logic.py:329-397 | no record says that the target is untouched, or verified, and says anything else as well |
| FfuBinding.StatusDecides | gui/rufusarm64_ffu_restore_logic.py:329-397 | the status of an accepted execution record decides the outcome, and its byte count is the one accounted for |
| FfuBinding.CancellationIsPlaced | gui/rufusarm64_ffu_restore_logic.py:341-348 | an accepted execution was cancelled in exactly one phase if it was cancelled at all, and in none otherwise |
| FfuBinding.RecordsConcernOneRestore | gui/rufusarm64_ffu_restore_logic.py:150-328 | lease, session, confirmation, authorization and execution of an accepted response are about one reviewed source and drive: the lease is held, the drive is open exclusively and unmounted as the preflight saw it, the phrase was matched and used up, and the one permission to write was not |
| FfuBinding.InfiniteCountEscapes | gui/rufusarm64_logic.py:1130-1140 | every accepted response, given an infinite byte count, is neither accepted nor rejected: the error escapes |
| PythonJson.EqualsItself | gui/rufusarm64_ffu_restore_logic.py:127-140 | comparison of JSON values is reflexive at every depth |
| FfuBinding.AcceptedAgainstItsReview | gui/rufusarm64_ffu_restore_logic.py:116-148 | a response accepted alone is accepted, with the same verdict, against the review it reproduces |
| FfuSample.EveryOutcomeIsReachable | gui/rufusarm64_ffu_restore_logic.py:143-416 | for each of the four outcomes there is an accepted response, with and without a confirmed review |
| FfuSample.SealedSampleExists | gui/rufusarm64_ffu_restore_logic.py:143-416 | for any two outcomes there are accepted responses sealed by a hash without collisions between them |
| FfuSample.OneAuthorizationTwoResponses | gui/rufusarm64_ffu_restore_logic.py:305-327 | two distinct accepted responses with different outcomes name one authorization digest under a hash without collisions, so the binding theorem joins different responses |
| FfuProtocol.StepKeeps | gui/rufusarm64_ffu_dialog.py:191-521 | every event keeps the invariant, for any validators and command builder |
| FfuProtocol.EveryReachableState | gui/rufusarm64_ffu_dialog.py:191-521 | the invariant holds after every interleaving of edits, clicks, deliveries, cancellations and closing |
| FfuProtocol.LaunchesAreReviewed | gui/rufusarm64_ffu_dialog.py:340-369 | every launch was built from an accepted review of the inputs then selected, and no two launches share a review |
| FfuProtocol.LaunchesAreDeliberate | gui/rufusarm64_ffu_restore_logic.py:71-113 | every launched command repeats its review: no mounts, exact phrase, same device, identity and capacity |
| FfuProtocol.ResultIsNeverStale | gui/rufusarm64_ffu_dialog.py:441-451 | while an operation runs its completion is outstanding under the current generation and ends it, unless its checks raised an error that is not caught |
| FfuProtocol.SwallowedIff | gui/rufusarm64_ffu_dialog.py:371-424 | a completion is swallowed if and only if the response parses and its checks raise: a converted number is infinite or its review nests too deeply to be copied, with every check in front of that passed |
| FfuProtocol.SwallowedForever | gui/rufusarm64_ffu_dialog.py:508-518 | after that no sequence of events ends the operation, launches anything or closes the dialog |
| FfuProtocol.UntouchedIsProved | gui/rufusarm64_ffu_dialog.py:461-503 | the did-not-write message needs accepted evidence of zero bytes and no mutation; silence, errors and rejection lead to the unknown-state message |
| FfuProtocol.MessageFollowsRecord | gui/rufusarm64_ffu_dialog.py:461-503 | in every reachable state with a restore, its end shows restored-and-verified if and only if an accepted execution record says so by status and success flag, with sync and readback complete, every planned byte written and no partial flag; may-be-modified if and only if that flag is set; did-not-write for status not-started; and unknown for whatever is not accepted |
| FfuProtocol.EvidenceIsAboutTheLaunch | gui/rufusarm64_ffu_dialog.py:395-405 | evidence accepted while a restore runs names the drive of the last command launched |
| FfuDialog.FfuReviewDialog.InvalidateReview | gui/rufusarm64_ffu_dialog.py:191-200 | invalidation clears review, payload, attempt and phrase |
| FfuDialog.FfuReviewDialog.EditInputs | gui/rufusarm64_ffu_dialog.py:202-205 | changing a trust input is the protocol's edit: a stored review is invalidated |
| FfuDialog.FfuReviewDialog.StartReview | gui/rufusarm64_ffu_dialog.py:247-275 | a review starts under a fresh generation with nothing left of the previous one |
| FfuDialog.FfuReviewDialog.FinishReview | gui/rufusarm64_ffu_dialog.py:306-338 | only a current, successful and still valid review is stored; one too deep to be kept leaves the dialog without a payload to restore from |
| FfuDialog.FfuReviewDialog.StartRestore | gui/rufusarm64_ffu_dialog.py:340-369 | a click launches at most once per stored review and only with its phrase; the review is spent before its payload is copied |
| FfuDialog.FfuReviewDialog.CancelRestore | gui/rufusarm64_ffu_dialog.py:426-439 | cancellation only marks a running restore |
| FfuDialog.FfuReviewDialog.FinishRestore | gui/rufusarm64_ffu_dialog.py:441-506 | a current completion ends the restore, shows its verdict and spends the review; `MessageFollowsRecord` says which verdict |
| FfuDialog.FfuReviewDialog.ReviewEnds | gui/rufusarm64_ffu_dialog.py:277-304 | the end of a review worker, posted or swallowed, is one protocol delivery |
| FfuDialog.FfuReviewDialog.RestoreEnds | gui/rufusarm64_ffu_dialog.py:371-424 | the end of a restore worker, posted or swallowed by either error, is one protocol delivery |
| FfuDialog.FfuReviewDialog.OnDeleteEvent | gui/rufusarm64_ffu_dialog.py:514-521 | closing is vetoed while an operation runs and otherwise outdates every message |
| FfuRuns.CommandIff | gui/rufusarm64_ffu_restore_logic.py:71-113 | a command is built if and only if both programs have absolute paths and the review is accepted, unmounted and confirmed by its exact phrase; every operand is the field of the review as it arrived |
| FfuRuns.ClickRestoresIff | gui/rufusarm64_ffu_dialog.py:340-369 | in every reachable open state a click adds exactly one launch if and only if the stored review is unspent, unmounted and confirmed and can be copied; otherwise no restore starts |
| FfuRuns.AcceptedLeadsToRestore | gui/rufusarm64_ffu_dialog.py:247-369 | for any validators: from every reachable state at rest, a review that is accepted and whose command can be built leads to a restore with that command |
| FfuRuns.EveryReviewCanBeRestored | gui/rufusarm64_ffu_dialog.py:247-369 | with the real checks: every unmounted review they accept, and that can be copied, is restored once its phrase is typed |
| FfuRuns.RestoreSpendsReview | gui/rufusarm64_ffu_dialog.py:441-506 | a posted completion of a restore leaves no review behind, and shows a verdict |
| FfuRuns.CancelledWhileRestoring | gui/rufusarm64_ffu_dialog.py:426-447 | cancellation is only ever asked of a restore, and forgotten with it |
| FreeDosPlan.NormalizeLabel | gui/rufusarm64_freedos.py:488-496 | a label is accepted exactly when it has 1 to 11 characters of the allowed set, and is kept as it is |
| FreeDosPlan.SectorsPerCluster | gui/rufusarm64_freedos.py:448-466 | a cluster size exists exactly for partitions of 32 MiB up to, not including, 2 TiB; it is the one of its size range and yields between 65536 and 2^28 clusters |
| FreeDosPlan.NormalizeMedia | gui/rufusarm64_freedos.py:411-446 | start, sector count and tail reserve add up to the whole device, with the cluster size of that partition |
| FreeDosPlan.ReadNumbers | gui/rufusarm64_freedos.py:335-409 | written, verified and untouched bytes add up to the device, and the partition leaves the tail reserve |
| FreeDosPlan.NormalizePlan | gui/rufusarm64_freedos.py:83-109 | an accepted plan is sound in every number and states its own phrase |
| FreeDosPlan.NormalizeTwice | gui/rufusarm64_freedos.py:83-109 | normalizing an accepted plan again accepts it and changes nothing |
| FreeDosPlan.NormalizedIsAccepted | gui/rufusarm64_freedos.py:83-109 | every plan with sound fields is accepted in its normalized form |
| FreeDosPlan.EveryDriveHasPlan | gui/rufusarm64_freedos.py:335-466 | every drive of whole sectors from 34 MiB up to 2 TiB and 2 MiB has an accepted plan, for every label and byte count |
| FreeDosProgress.Emitter.Account | cmd/rufus-freedos-format/main.go:62-93 | with wrapping sums and for any uint64 totals a report is taken exactly when the unbounded accounting accepts it; a wrapped sum is always refused |
| FreeDosProgress.Emitter.ComputePercent | cmd/rufus-freedos-format/main.go:94 | the percentage of the wrapping product is the one the duplicate filter compares |
| FreeDosProgress.Emitter.MakeLine | cmd/rufus-freedos-format/main.go:100-124 | the record of an accepted report, with rate and estimate only while bytes remain |
| FreeDosProgress.EstimateIsFair | cmd/rufus-freedos-format/main.go:100-123 | no rate before the first byte or instant; an estimate exactly while a rate is known and bytes remain, and that many whole seconds at that rate; whole milliseconds |
| FreeDosProgress.Emitter.Emit | cmd/rufus-freedos-format/main.go:62-131 | every call, taken, repeated, refused or broken, keeps the emitter equal to the fold of its history |
| FreeDosProgress.NormalizeProgress | gui/rufusarm64_freedos.py:198-236 | accepted counts are ordered, and a byte total is present exactly in the byte phases |
| FreeDosProgress.Validate | gui/rufusarm64_freedos.py:251-269 | an accepted record is a normalized one whose plan is accepted |
| FreeDosProgress.ReadProgress | gui/rufusarm64_freedos_dialog.py:345-354 | the reading loop queues a non-decreasing prefix and stops only at an invalid record or a step back |
| FreeDosProgress.AcceptedIffZeroCounts | gui/rufusarm64_freedos.py:198-269 | a line the emitter wrote for the reviewed plan is accepted exactly if its counts are zero outside the byte phases, and then read back unchanged |
| FreeDosProgress.RankMonotone | cmd/rufus-freedos-format/main.go:94-99 | later reports never rank lower, and equal rank means the duplicate filter holds them equal |
| FreeDosProgress.EveryRunClimbs | cmd/rufus-freedos-format/main.go:62-131 | over every ordered run the lines sent climb strictly in rank |
| FreeDosProgress.TrafficIsBounded | cmd/rufus-freedos-format/main.go:94-99 | an ordered run sends at most 106 lines, each genuine and none behind an earlier one |
| FreeDosProgress.BoundIsReached | cmd/rufus-freedos-format/main.go:94-99 | some ordered run sends exactly 106 lines |
| FreeDosProgress.AcceptedPlansFit | gui/rufusarm64_freedos.py:335-409 | for every accepted plan no uint64 operation of the emitter wraps, the percentage product included |
| FreeDosProgress.EndToEnd | gui/rufusarm64_freedos_dialog.py:345-354 | for every accepted plan and ordered run each emitted line is accepted against the plan, none moves backwards, and at most 106 are sent |
| FreeDosProgress.NothingIsHidden | cmd/rufus-freedos-format/main.go:95-97 | every accepted report of a run whose writer works is stood for by a line of the same phase and percentage |
| ElTorito.CatalogueValidation | scripts/linux_iso_corpus.py:106-113 | the printer returns a valid entry for its platform byte |
| ElTorito.PrintedIsValid | gui/rufusarm64_linux_compatibility.py:94-97 | for every platform byte the printed entry is valid |
| ElTorito.SingleChangeIsCaught | gui/rufusarm64_linux_compatibility.py:94-97 | changing any single 16-bit word of a valid entry makes it invalid |
| ElTorito.ChecksumIsUnique | gui/rufusarm64_linux_compatibility.py:94-97 | exactly one value of the checksum word makes a framed entry valid, and it is the negated sum of the others |
| BootCatalogue.TakeSection | gui/rufusarm64_linux_compatibility.py:108-144 | the inner loop reads the announced records of a section, never past the end nor past 32 entries |
| BootCatalogue.CatalogueBootEntries | gui/rufusarm64_linux_compatibility.py:108-144 | on arbitrary bytes the nested loops end, stay in bounds and return at most 32 entries |
| BootCatalogue.EntriesAreGrounded | gui/rufusarm64_linux_compatibility.py:108-144 | every returned entry is a bootable record with a non-zero address inside a catalogue whose validation entry is valid |
| BootCatalogue.BootableMeans | gui/rufusarm64_linux_compatibility.py:100-123 | a record stands for an entry exactly if its first octet is 0x88, its platform is 0x00 or 0xEF and its address is not zero |
| BootCatalogue.RoundTrip | gui/rufusarm64_linux_compatibility.py:108-144 | printing a validation entry, a default entry and any sections of at most 32 records and parsing it returns exactly the bootable, known-platform, non-zero entries in order |
| LinuxIso.IsoBootCatalogue | gui/rufusarm64_linux_compatibility.py:75-91 | the descriptor loop finds what the sector-by-sector definition finds, on any image |
| LinuxIso.MaterializeFixture | scripts/linux_iso_corpus.py:116-159 | the in-place stores produce the specified octets, and inspecting the array yields the facts the fixture was made for |
| LinuxIso.FixtureIsRecognized | gui/rufusarm64_linux_compatibility.py:64-144 | every image with those octets is inspected as that fixture: volume, layout and boot entries |
| IsoGate.IntOr0 | gui/rufusarm64_linux_compatibility.py:25-40 | the conversion escapes its handler exactly on an infinity |
| IsoGate.ReadPlan | gui/rufusarm64_linux_compatibility.py:17-55 | an accepted plan's image lies inside a source of the stated size and carries three digests |
| IsoGate.StatedPlanIff | gui/rufusarm64_linux_compatibility.py:17-55 | a version 1 plan for an unemulated UEFI image is read exactly if its image lies inside the source at non-zero addresses |
| IsoGate.ProfileIff | gui/rufusarm64_linux_compatibility.py:201-294 | a profile offers optical UEFI exactly for a plain raw image with an ISO volume and a strict plan that fits it |
| IsoGate.DecisionsAgree | scripts/linux_iso_corpus.py:226-240 | without a prior profile the corpus and the GUI gate agree on every image, and DD is offered exactly when that holds and the image is hybrid |
| IsoGate.PriorProfileOverrides | gui/rufusarm64_linux_compatibility.py:297-308 | with a prior profile they can disagree: an inspection and image are given |
| IsoGate.InfinitePlanEscapes | gui/rufusarm64_linux_compatibility.py:24-40 | the profile raises if and only if the image is writable, facts and a plan are present, and a numeric field of the plan is infinite with every field before it convertible |
| IsoGate.FixtureIsCandidate | gui/rufusarm64_iso_write_mode.py:19-41 | a fixture with a strict plan is an ISO candidate, and DD is offered exactly if it is hybrid |
| WindowsLocale.ResultIsInCase | gui/rufusarm64_logic.py:278-292 | a normalized locale is, up to a final line feed, a language tag with lower-case language and upper-case region |
| WindowsLocale.NormalizeTwice | gui/rufusarm64_logic.py:278-292 | normalizing again only drops that line feed and never empties a value |
| WindowsLocale.IdempotentIff | gui/rufusarm64_logic.py:278-292 | normalization is not idempotent on a value if and only if its part before the first dot or at sign ends in a line feed, it is not an unnamed locale, and that part without the line feed is a tag |
| WindowsLocale.LineFeedSurvives | gui/rufusarm64_logic.py:278-292 | and there is a value whose result does |
| WindowsLocale.RegionalName | gui/rufusarm64_logic.py:278-292 | a language and a region with either mark between them, in any case, and an encoding yield the tag in normal case |
| WindowsLocale.NoLanguage | gui/rufusarm64_logic.py:278-292 | the locales that name no language yield none |
| WindowsOptions.WindowsOptionsDialog.constructor | gui/rufusarm64.py:260-431 | the dialog opens at rest with exactly those remembered boxes that survive every rule |
| WindowsOptions.WindowsOptionsDialog.SetOff | gui/rufusarm64.py:460-463 | switching a box off fires its handler, ends, and switches off the box and at most silent installation |
| WindowsOptions.WindowsOptionsDialog.UpdateSilent | gui/rufusarm64.py:543-564 | silent installation stays exactly while all its prerequisites hold |
| WindowsOptions.WindowsOptionsDialog.ApplyInstallerOptions | gui/rufusarm64.py:470-489 | the first stage of boxes keeps exactly what media and layout allow |
| WindowsOptions.WindowsOptionsDialog.ApplyImageModes | gui/rufusarm64.py:490-496 | the image modes, including a full nested re-application when Windows To Go is switched off, end in the stated set of boxes |
| WindowsOptions.WindowsOptionsDialog.DropInstallerOptions | gui/rufusarm64.py:524-532 | Windows To Go switches off and disables exactly its five incompatible options |
| WindowsOptions.WindowsOptionsDialog.EnforceImageMode | gui/rufusarm64.py:524-535 | the boxes after enforcement, in both modes |
| WindowsOptions.WindowsOptionsDialog.ApplyCapabilities | gui/rufusarm64.py:469-516 | every cascade of re-entrant handlers terminates, at rest, with exactly the boxes that survive all rules |
| WindowsOptions.WindowsOptionsDialog.Toggle | gui/rufusarm64.py:543-567 | a click from rest comes to rest again with exactly the surviving boxes |
| WindowsOptions.WindowsOptionsDialog.ToggleToGo | gui/rufusarm64.py:537-541 | so does a click on Windows To Go in either direction |
| WindowsOptions.WindowsOptionsDialog.EditUser | gui/rufusarm64.py:543-564 | so does editing the account name |
| WindowsOptions.Settles | gui/rufusarm64.py:469-516 | applying the stages in source order lands on one closed form of the surviving boxes, which nothing further can shrink |
| WindowsRules.SurvivorsAreGreatest | gui/rufusarm64.py:469-567 | the surviving boxes are the greatest choice among the active ones that obeys the rules, listed one by one, and keeps Windows To Go where the media offer it |
| WindowsRules.SensitiveIffLawful | gui/rufusarm64.py:469-567 | a box that is off can be clicked exactly while the rules allow it beside the active ones |
| WindowsCommand.ValidateTwice | gui/rufusarm64_logic.py:260-275 | a validated account name validates again, unchanged |
| WindowsCommand.ValuesAtRest | gui/rufusarm64.py:582-619 | values read at rest repeat the boxes, a validated name, and complete regional fields and a listed image whenever silent installation is on |
| WindowsCommand.ValuesAreReadIff | gui/rufusarm64.py:582-619 | at rest values are read exactly when the account box, if on, has a usable name and the edition, if needed, is listed |
| WindowsCommand.LayoutNames | gui/rufusarm64_logic.py:337-366 | the names of targets, schemes and filesystems, in any case, with the three older names of a BIOS |
| WindowsCommand.OneImageIff | gui/rufusarm64.py:168-197 | one image is accepted exactly with an index up to 256, a name within 256 octets, a 64-bit size, and a language tag or none; Windows To Go asks for tag and size |
| WindowsCommand.RulesAtRest | gui/rufusarm64.py:469-567 | at rest SkuSiPolicy, CA 2023, silent installation, region and Windows To Go each imply their prerequisites, and Windows To Go excludes its five |
| WindowsCommand.ValuesAreAccepted | gui/rufusarm64_logic.py:929-1062 | on the same analysis and layout the command is refused for values at rest exactly for what lies outside the dialog: the main window's fields, BIOS with GPT, boot files or an image without proof; never by the SkuSiPolicy, silent, account or region checks nor for an option Windows To Go excludes |
| WindowsCommand.AnalysedImagesAreProven | gui/rufusarm64_logic.py:856-889 | on an analysis that passed its own checks, no image is refused for missing evidence |
| WindowsCommand.NormalizedAreProven | gui/rufusarm64.py:168-197 | every image the analysis accepts with Windows To Go enabled has a name, an index up to 256, a language tag and a size |
| WindowsToGo.AcceptedIff | gui/rufusarm64_logic.py:891-926 | a target is accepted exactly when it is a whole number of 512- or 4096-byte sectors and at least 29 GiB and the image size plus 2 GiB plus 262 MiB; the plan then fills it up to the tail reserve |
| DataOnlyPlan.NormalizeLabel | gui/rufusarm64_nonbootable.py:383-411 | an accepted label is unchanged and fits its filesystem's limits in the filesystem's own units |
| DataOnlyPlan.PlainLabelIff | gui/rufusarm64_nonbootable.py:383-411 | a label of plain characters is accepted exactly up to 11, 15, 16, 32 or 126 characters, by filesystem |
| DataOnlyPlan.NormalizePlan | gui/rufusarm64_nonbootable.py:117-144 | an accepted plan has canonical geometry and states its own phrase |
| DataOnlyPlan.LargestPartition | gui/rufusarm64_nonbootable.py:280-296 | an accepted partition is aligned, leaves the tail reserve, is the largest of its kind, and under MBR start and length fit 32 bits |
| DataOnlyPlan.PhraseDetermines | gui/rufusarm64_nonbootable.py:363-365 | for device paths without blanks the phrase determines path, filesystem, scheme and label |
| DataOnlyPlan.PhraseIff | gui/rufusarm64_nonbootable.py:363-365 | two plans share a phrase if and only if they are one layout or one of them stands inside the other |
| DataOnlyPlan.AcceptedCollision | gui/rufusarm64_nonbootable.py:117-144 | two accepted payloads for different devices and filesystems ask for one phrase |
| DataOnlyPlan.CollidingLabelFits | gui/rufusarm64_nonbootable.py:406-411 | the label that makes it happen is within the NTFS contract |
| DataOnlyPlan.NormalizeTwice | gui/rufusarm64_nonbootable.py:117-144 | normalizing an accepted plan again accepts it and changes nothing |
| DataOnlyPlan.NormalizedIsAccepted | gui/rufusarm64_nonbootable.py:117-144 | every plan with sound fields is accepted in its own normalized form |
| DerSetOrder.ParseValue | internal/ffu/catalog_member.go:591-645 | the parser computes the definite-length reading of its input, and its 64-bit accumulation never overflows; what that reading accepts is `EncodedIsParsed` and `ParsedIsEncoded` |
| DerSetOrder.EncodedIsParsed | internal/ffu/catalog_member.go:591-645 | every identifier octet of a low tag, every content within 64 bits and every rest: identifier, shortest length octets, content and rest are parsed to exactly that encoding, content and rest |
| DerSetOrder.ParsedIsEncoded | internal/ffu/catalog_member.go:591-645 | whatever is parsed has that form |
| DerSetOrder.ParseChildren | internal/ffu/catalog_member.go:661-681 | the loop returns exactly the successive values of the content, within its limits |
| DerSetOrder.ChildrenAreItems | internal/ffu/catalog_member.go:661-681 | the children of encodings put together are those encodings, in order, as long as there are no more than allowed |
| DerSetOrder.ChildrenCoverContent | internal/ffu/catalog_member.go:661-681 | content that is parsed was put together that way |
| DerSetOrder.RequireCanonicalOrder | internal/ffu/catalog_signature_der.go:8-15 | the loop accepts exactly when no adjacent pair descends |
| DerSetOrder.CompareIsSigned | internal/ffu/catalog_signature_der.go:10 | the comparison is zero on equal strings only, turns its sign with the sides, and puts a beginning first |
| DerSetOrder.CompareIsPaddedOrder | internal/ffu/catalog_signature_der.go:10 | between strings neither of which is a proper prefix of the other, octet comparison is the zero-padded order of section 11.6 of ITU-T X.690 |
| DerSetOrder.NeighboursDecide | internal/ffu/catalog_signature_der.go:9-14 | adjacent pairs decide the whole sequence |
| DerSetOrder.SelfDelimiting | internal/ffu/catalog_member.go:591-645 | no complete encoding is a proper prefix of another |
| DerSetOrder.ScanEqualsStandard | internal/ffu/catalog_signature_der.go:8-15 | on the parsed elements of any octets the scan accepts exactly the sequences in the standard's order |
| DerSetOrder.PrefixesSeparateScanFromStandard | internal/ffu/catalog_signature_der.go:8-15 | on a string and its own zero extension the two disagree |

## Assumptions

- Other processes create and remove entries of their own, never ours, and the
  random temporary name differs from the published one.
- SHA-256 is uninterpreted. `AuthorizationBindsEvidence` asks that the records of
  the two responses do not collide, and nothing about any other record.
- The canonical form of a signed envelope reads and verifies as the envelope
  does, and root digests identify root metadata among the envelopes given.
- Insensitive widgets cannot be edited and a closed dialog is not operated. A
  worker's reply comes after its thread was started and at most once.
- The account name's notion of alphanumeric characters, letter case outside
  ASCII (which maps no character to or from a line feed), path normality and the
  UTC time pattern are parameters.
- In a capture every iteration sets aside three clock readings and five answers of
  `poll`, whether or not it asks for them.
- The depth a copy can follow is a parameter of each place that copies; a response
  of any depth counts as parsed.

## Left out

- BoundedCapture.CommunicateBounded: a process that never exits is reported as unfinished when the supplied rounds run out; that it must end at all is not stated, since the source cannot ensure it either.
- FreeDosProgress.Emitter.MakeLine: the measured rate is a parameter, because it is a floating-point quotient.
- WindowsCommand.ValuesAreAccepted: the time-zone table is not modelled; the zone found is taken to be well formed, as its entries are.
- WindowsToGo.AcceptedIff: target size, sector size and image size are parsed integers; the image evidence of `windows_to_go_image` is modelled in `WindowsCommand` instead.
- WindowsCommand.AnalysedImagesAreProven: the analysis fields other than images and capabilities, and the length of an image name in UTF-8, are parameters or left out.
- FfuBinding.AuthorizationBindsEvidence: equal digests of the execution records themselves are not considered, since the execution is the record that names the authorization.
- FfuReview.NormalizeReview: the result leaves out evaluation time, trust activation, vendor, model and transport, which are checked or copied but decide nothing later.
- FfuProtocol.SwallowedIff: recursion errors of `str`, `==` and of writing the log (`json.dumps`) are not modelled, only those of the copies.
- ReportSaver.SaveNewReport: other processes and crashes are not modelled; the caller's file is one entry.
- The argument list of `build_writer_command` beyond its checks; whether `normalize_volume_label` takes the label is a flag.
- GTK widgets, texts and layout; only the fields the handlers read and write are kept. Sensitivity of the FFU buttons is not modelled: a click always counts, so the handlers' own guards carry the theorems.
- Real processes, signals, file descriptors and selectors; they are oracles, and cancellation is a flag.
- The JSON parser, and the Python and Go standard libraries beyond the calls named.
- Filesystem ISO plan and report normalization (`gui/rufusarm64_iso_capture.py`): plans enter the backup dialog already normalized, as the planner thread delivers them.
- FreeDOS and data-only report normalization, and the final report checks of the run workers: single-record validators of the kind already shown.
- Bootloader fingerprints and source snapshot identity in the Linux profile; an unstable source yields no facts.
- ChannelPublication.ClientFollowsPublisher: the client starts with an empty cache, sees the clock of the publisher and no network errors; its cache, rollback and clock checks are not modelled.
- RootChain.VerifyRootChainSequence: reading an envelope, with its format, key and expiry rules, and signature verification are parameters.
- The packages behind the privileged helpers are not part of this model.
- Human-readable formatting of sizes, rates and durations.
