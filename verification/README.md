# Lanpanel: a verified model

Lanpanel deploys applications and a Headscale server to one host. This project models the parts of
it that carry state, rollback, ordering or arithmetic, and proves what they promise.

**Shared real-IP profiles.** Several apps share one profile: include files for Nginx, state, metadata,
a refresh timer, and one reference file per app.

- `RealIpProtocol`, `RealIpSafety`, `RealIpIsolation` and `RealIpCrashes` describe any number of app
  deploys, plain deploys, refreshes and stale-reference sweeps as a system of atomic steps over any
  number of profiles, and prove safety, exact rollback and isolation over all interleavings, with
  crashes at any point. The safety proof is by rely and guarantee: every step keeps a promise to the
  other apps, and each app's invariant survives whatever keeps that promise. An app that is cut short
  at a bad moment is "hurt" until it commits again or gets a plain site; the others are not affected.
  `RealIpSweeps` says exactly what a cleanup has removed at each moment, and that it can be carried
  through; `RealIpProgress` that deploys and refreshes can be carried through, and undone from
  wherever they stand.
- `HostTree`, `FileInstaller`, `RealIpLayout`, `RealIpSnapshots`, `RealIpRefresh`, `RealIpDeploy` and
  `RealIpReferences` follow the program text on a file tree that commands change in place. Every
  command may fail. A ghost counter on the host, `troubles`, counts the commands that fail although
  they could have worked; "unless an undo command fails" means that this counter does not grow while
  something is being undone. On a `steady` host it never grows. A second counter, `blindReloads`,
  counts reloads of a configuration that `nginx -t` has not accepted; it never grows either. What
  Nginx runs is the tree it read when it last loaded its configuration, and the units systemd knows
  are those of the tree at its last daemon-reload. Success is reported only if no command failed:
  `troubles` is as before, leaving aside what the certificate hook of a new certificate meets, which
  lego does not mind.
- `RealIpView`, `RealIpTrack`, `RealIpStanding` and `RealIpRefinement` connect the two. The host keeps a
  ghost log of every file or link it changes, and every method of the deploy carries a ghost record of
  the steps taken so far, each with the one change it makes or with none. The record shows at every
  moment what is on disk, so a whole deploy, however it ends, is a run of the step system that sees
  what is on disk after every single change.

**The main deploy.** `Checkpoint` is the record of a resumable deploy and its methods. `MainDeploy` is
one run as a function of the configuration and of everything the host answers (a killed process
included), `Deployer` is the program that computes it, and `MainDeployRuns` and `MainDeployResume`
prove what all sequences of runs keep. `MainDeployRestarts` is about restarts of Headscale,
`MainDeployRecords` and `MainDeployGuards` about failures, changes, prerequisites and deferral markers,
for runs that start from any record at all.

**Trusted networks.** `Prefixes` has the arithmetic of dyadic prefixes (section 3.1 of RFC 4632),
`Cidr` the canonicaliser, `CidrProperties` its meaning, `CidrRanges` what its policy comes to in terms of
first and last addresses, `CidrRefusals` why a list is refused. IPv4-mapped addresses are those of section
2.5.5.2 of RFC 4291.

**Listener hand-over, readers and ports.** `Listeners` hands addresses over between an app and its
GoAccess service; `EnvFile` and `EnvFileAgreement` compare the two readers of a DNS credential file, and
`EnvFileLines` says what both take from a line;
`SystemdEnvironment` is the tokenizer of `Environment=` lines; `Ports` picks the default WebSocket port.
`Text`, `Occurrences` and `Options` are shared.

## What turned out not to hold

- A shared profile loses its protection for an app whose deploy is cut short (a crash, or a failing
  restore of its site) after its site is written and before its reference is registered.
  `AbortIsSafeIff` gives the exact condition and `CrashLeavesUnprotectedSite` a run. `NoDanglingInclude`
  shows that only this app is affected, and only until its next commit. If its site was enabled, its
  profile stays complete until the app is deployed again (`EnabledSiteSurvivesCrash`); if not, another
  app's cleanup may remove it (`DisabledSiteLosesItsProfile`).
- A deploy that is completely undone does not always leave Nginx running what it ran. Real-IP apps use
  DNS-01 (`internal/appconfig/validate.go:368`), so the certificate hook reloads Nginx while shared
  files and site are already new and nothing is registered or committed; a rollback then reloads Nginx
  only if the deploy itself has tried to (`internal/cli/app.go:1171-1183`). `DeployApp` gives the exact
  condition in terms of what the deploy did. For a deploy whose certificate is refused where no command
  fails, `RefusedDeploy` gives it in terms of what is known before: Nginx is left running what is on
  disk if and only if there is no certificate yet or shared files and site were already installed.
  `SiteOnlyIsClear` gives a host for it.
- The same hook may let Nginx switch over while the other service is still on the app's new address.
  `Cutover.Deploy` gives the exact condition: it does with DNS-01 whenever there is something to hand
  over.
- A finished main deploy is not always started over: if its last save fails
  (`internal/cli/deploy.go:734`), the next run of the same configuration executes nothing and only
  retires the record. `StuckIff` says for every history when a finished record is left like this,
  `FailedFinalSaveHidesTheFinish` gives a run.
- The parser and the shell loader of a credential file differ on files that assign to `line`, `key` or
  `value`, because the loader exports the file's variables into the shell that uses these names itself.
  `ReadersAgreeIff` gives the exact condition, `NameLineIsSpoiled` a family of files.

## Model

| member | source | states |
|---|---|---|
| `RealIpSafety.NoDanglingInclude` | internal/cli/app.go:882-1442 | In every interleaving of deploys, plain deploys, refreshes and stale sweeps over any number of apps and profiles, with crashes at any point: whatever site on disk or site snapshot names a profile finds its shared files complete and its app registered there or holding its lock, except for apps whose own deploy was cut short while exposed and that have neither committed nor got a plain site since |
| `RealIpSafety.WellTimedIsSafe` | internal/cli/app.go:882-1442 | In runs in which no deploy is cut short while exposed, this holds for every app |
| `RealIpSafety.AbortIsSafeIff` | internal/cli/app.go:1171-1183 | Cutting an app process short keeps safe everybody who was if and only if the process is not a deploy whose site already includes the profile while its reference is not registered; nobody else is ever affected |
| `RealIpIsolation.CrashLeavesUnprotectedSite` | internal/cli/app.go:1195-1237 | A run that shows the window: a crash between writing the site and registering the reference leaves a site whose profile no reference protects |
| `RealIpCrashes.EnabledSiteSurvivesCrash` | internal/cli/app.go:2308-2330 | After such a crash of an app whose site was enabled, whatever all others do, the profile its site includes stays complete until the app is deployed again: no cleanup gets past the dump of the configuration |
| `RealIpCrashes.DisabledSiteLosesItsProfile` | internal/cli/app.go:2268-2330 | A run that shows that an app whose site was not enabled has no such protection: the cleanup of the last registered app removes the profile |
| `RealIpIsolation.CommitStands` | internal/cli/app.go:1326-1337 | After the commit nothing is rolled back: over all runs, crashes included, whatever ends the deploy leaves the installed shared files, reference, site and link, and the app is protected without its lock |
| `RealIpSafety.StepKeeps` | internal/cli/app.go:1133-1338 | The invariant behind safety (locks, coverage, progress of every deploy, sweep and refresh) survives every step; a badly timed abort takes only its own app out of it |
| `RealIpSafety.CommitHeals` | internal/cli/app.go:1326-1337 | The next commit of an app that was cut short puts it under the invariant again |
| `RealIpSafety.StepProgress` | internal/cli/app.go:1133-1232 | At every point of a deploy, forwards or backwards, what the app sees of its profile is exactly what the snapshots, plan and position say |
| `RealIpSafety.Rely` | internal/cli/app.go:882-900 | A step that touches only its own app and locked profile, and removes no file others depend on, keeps every other app invariant |
| `RealIpSafety.EmptyingIsUnused` | internal/cli/app.go:2268-2396 | When a sweep empties a profile no app depends on it that is not itself hurt by a crash: everyone who does is registered there or holds its lock |
| `RealIpSweeps.SweepIsExact` | internal/cli/app.go:2268-2396 | From the lock on, over all runs, whatever everybody else does: the reference of the app is gone once the sweep has removed it and as at the lock until then; the references of the other apps are as at the lock; the shared files are those at the lock without the removed ones, and no file is removed while another app is registered or before the reference |
| `RealIpSweeps.EmptyingHasNoReferences` | internal/cli/app.go:2370-2376 | Over all runs, shared files are taken away only from a profile in which nobody is registered |
| `RealIpSweeps.CommittedCleansUp` | internal/cli/app.go:2047-2104 | From every reachable state in which a deploy has committed, if nobody works on its old profiles and each has another registered app or is included by no enabled site, there is a run after which the app is registered in its new profile only; old profiles it was the last in are empty, and nothing else has changed |
| `RealIpSweeps.CleanUp` | internal/cli/app.go:2268-2396 | The same for one old profile: exactly the reference goes, and all shared files with the last one |
| `RealIpSafety.SweepKeeps` | internal/cli/app.go:2047-2104 | Every step of the stale-reference cleanup keeps the invariant: a sweep has only profiles its app does not use, the last reference is really the last, and it has gone before the first shared file goes |
| `RealIpSafety.RefreshKeeps` | internal/cli/app.go:2399-2515 | Every step of a refresh, forwards or undoing, keeps the invariant |
| `RealIpIsolation.RollbackIsExact` | internal/cli/app.go:1128-1232 | Over all runs, crashes of others included, a deploy that has rolled back leaves files, site, link and reference as they were when it took the lock; only a reference whose own restore failed may differ, and it is still registered |
| `RealIpIsolation.RefreshIsExact` | internal/cli/app.go:2486-2515 | Over all runs a refresh that has written or restored all artifacts leaves exactly the new contents or exactly its snapshot |
| `RealIpProgress.DeployGetsDone` | internal/cli/app.go:1128-1338 | From every reachable state in which the app is idle and the profile free there is a run that ends with the commit: files, reference, site and link are the planned ones, and nothing that belongs to anybody else has changed |
| `RealIpProgress.DeployGetsUndone` | internal/cli/app.go:1171-1232 | From every reachable point before the commit there is a run that rolls the deploy back; what the app sees is then what it saw at the lock, unless a reference could not be restored before, and nothing else has changed |
| `RealIpProgress.PlainDeployGetsDone` | internal/cli/app.go:1383-1442 | From every reachable state in which the app is idle, a deploy without a profile can write and enable its site and give up all old profiles |
| `RealIpProgress.RefreshStarts` | internal/cli/app.go:2399-2489 | A refresh of a complete profile that nobody works on gets to the point where it writes |
| `RealIpProgress.RefreshGetsDone` | internal/cli/app.go:2486-2515 | From every reachable state in which a refresh is writing there is a run that leaves exactly the new contents and the lock free; nothing else changes |
| `RealIpProgress.RefreshGetsUndone` | internal/cli/app.go:2614-2664 | And one that leaves exactly the contents of its snapshot |
| `RealIpIsolation.MutualExclusion` | internal/cli/app.go:1489-1513 | While a deploy or sweep holds a profile, no other one and no refresh works on it |
| `HostTree.Host.MkdirAll` | internal/host/files.go:55-61 | Creates only directories on the way to the path; fails only when a command fails or a non-directory is in the way |
| `HostTree.Host.WriteFile` | internal/host/files.go:331-400 | Atomic: the file gets the content and mode, or the tree is unchanged; refuses anything but a regular file in the way |
| `HostTree.Host.LinkSite` | internal/cli/app.go:4830-4847 | The enabled link is made over a free name or the same link only, or the tree is unchanged |
| `HostTree.Host.Remove` | internal/cli/app.go:1977-1990 | Removes a file or link and nothing else, or leaves the tree unchanged |
| `HostTree.Host.RemoveEmptyDir` | internal/cli/app.go:1991-2004 | Removes an empty directory; says so when it is not empty |
| `HostTree.Host.ReloadNginx` | internal/cli/app.go:4849-4857 | Success means the running configuration is the one on disk; a reload that nginx -t has not accepted is counted |
| `HostTree.Host.TestNginx` | internal/cli/app.go:4830-4834 | Acceptance is of the configuration on disk |
| `HostTree.Host.DaemonReload` | internal/host/systemd.go:18-20 | Success means systemd knows the units on disk |
| `HostTree.Host.StartTimer` | internal/host/systemd.go:22-28 | Success means the timer is enabled and started |
| `FileInstaller.InstallOne` | internal/host/files.go:204-274 | The file ends with staged content and mode, nothing but directories above it is added, the result says changed exactly when the file differs and tells a new file from new content and a new mode, an installed file is left alone; success means that no command failed, and it fails only for a failing command or an obstacle |
| `FileInstaller.Install` | internal/host/files.go:189-202 | All targets get staged content and mode, no other file is touched, and the results name exactly the paths that changed, on success and on failure; installing what is installed changes nothing |
| `FileInstaller.CollectModifiedPaths` | internal/host/files.go:286-300 | Exactly the reported changed paths, each once, in the order of first report |
| `FileInstaller.CollectActivations` | internal/host/files.go:302-318 | Exactly the activations of changed files, each once, in the order of first report |
| `FileInstaller.InstallAndReport` | internal/host/files.go:189-300 | The collected paths are exactly the files whose content or mode differs on disk, whether the installation succeeds or stops half way |
| `FileInstaller.InstallTwice` | internal/host/files.go:189-300 | A second installation changes and reports nothing; where nothing is in the way both succeed if and only if no command fails |
| `FileInstaller.DifferenceGrows` | internal/host/files.go:189-202 | One more file changes the difference to the start at its own path only |
| `RealIpLayout.LayoutIsSound` | internal/components/appsvc/names.go:147-184 | For every profile and app: no managed path lies above another, the removal list covers every directory above a managed path that does not come with the system, and it has children before parents |
| `RealIpLayout.SpecsCover` | internal/cli/app.go:2579-2602 | Every directory above a managed file is a system directory or on the removal list |
| `RealIpLayout.NoNesting` | internal/components/appsvc/names.go:161-184 | No managed file lies above another |
| `RealIpLayout.ChildFirst` | internal/cli/app.go:2579-2602 | The removal list never has a directory before one directly inside it |
| `RealIpSnapshots.SnapshotFile` | internal/cli/app.go:1871-1965 | A snapshot describes the file exactly, or its absence; anything but a regular file is refused |
| `RealIpSnapshots.SnapshotFiles` | internal/cli/app.go:2517-2550 | One true snapshot per staged file, in order; with required files none is absent |
| `RealIpSnapshots.RestoreFile` | internal/cli/app.go:1967-1975 | The path is as in the snapshot and nothing else changes; it fails only when a command fails |
| `RealIpSnapshots.RestoreFiles` | internal/cli/app.go:2650-2664 | All paths are as in their snapshots and nothing else changes; it fails only when a command fails |
| `RealIpSnapshots.SnapshotDirs` | internal/cli/app.go:2552-2577 | Records for every directory of the list whether it was there |
| `RealIpSnapshots.TurnIsEmpty` | internal/cli/app.go:2666-2693 | When the turn of a new directory has come nothing is left inside it |
| `RealIpSnapshots.RestoreDirs` | internal/cli/app.go:2640-2693 | Directory rollback never meets a non-empty directory, ends with the tree as it was at the snapshot, and fails only when a command fails |
| `RealIpRefresh.InstallAndActivate` | internal/cli/app.go:2486-2515 | All or nothing: on success no command has failed, every artifact has its new content, and systemd and the running Nginx have read it; on failure the disk is as before, and systemd and Nginx have still read what is on disk if they had, exactly if no rollback command fails; it fails only if a command does or an artifact is not a regular file; every reload follows an accepting nginx -t |
| `RealIpRefresh.ActivateRefreshed` | internal/cli/app.go:2501-2515 | Daemon-reload, nginx -t and reload, and success only if all three work; else restore, with a reload exactly when one had been tried |
| `RealIpRefresh.RollBack` | internal/cli/app.go:2614-2638 | The tree is the one at the snapshot, systemd knows its units, and what runs is the restored configuration or what ran before; it is complete exactly if no rollback command fails |
| `RealIpRefresh.ActivateRestored` | internal/cli/app.go:2624-2638 | systemd reads the restored units, nginx -t accepts the restored configuration, and Nginx is reloaded exactly when asked; it fails exactly when a command does |
| `RealIpRefresh.Overwrite` | internal/cli/app.go:2486-2500 | Overwriting existing artifacts changes no other path and leaves all of them restorable |
| `RealIpDeploy.DeployApp` | internal/cli/app.go:1128-1435 | At the real paths: a deploy that reports success has met no failing command but those of the hook of a new certificate, everything is installed, linked and loaded, systemd knows the shared units, lego has issued the certificate and the refresh timer runs; one that fails after its commit has met a failing command, and all but the timer holds; stopped before the commit, shared files, reference, site, link and directories are as at lock time and everything is active again exactly if no undo command fails; once everything is undone Nginx runs what is on disk if and only if the deploy had tried a reload itself, or no certificate hook had let Nginx load anything, or shared files and site were already installed before; a refused certificate always stops it before the commit, and only that, a failing command or an obstacle does; Nginx is never reloaded before nginx -t accepts the configuration |
| `RealIpDeploy.RefusedDeploy` | internal/components/appsvc/tls.go:46-61 | Where no command fails and nothing is in the way, a deploy whose certificate is refused is completely undone on disk; Nginx is left running what is on disk if and only if there is no certificate yet or shared files and site were already installed, and otherwise the withdrawn shared files and site |
| `RealIpDeploy.SiteOnlyIsClear` | internal/cli/app.go:1128-1198 | There is such a host with an enabled site: the system directories and that site are in the way of no deploy |
| `RealIpDeploy.Deploy.Run` | internal/cli/app.go:1128-1435 | The same for any sound layout of the six shared files and the app's own paths; and the record of its steps ends committed, rolled back, or cut short while something is still to be undone |
| `RealIpDeploy.Deploy.IssueCertificate` | internal/cli/app.go:1359-1373 | The certificate by DNS-01: the hook runs at once if there is a certificate and again for a new one, and lets Nginx load the new shared files and site under the old link; the tree stays; it succeeds only if lego does, and no command fails but those of the second hook; it fails only for a failing command or a refusal |
| `RealIpDeploy.CertificateHook` | deploy/templates/app/install-cert-and-reload-nginx.sh.tmpl:23-27 | Copies the certificate, tests and reloads; success means that Nginx runs what is on disk, failure that it runs that or what it ran |
| `RealIpDeploy.Deploy.Finish` | internal/cli/app.go:1374-1435 | After the certificate: activation, then the services and timers; success exactly reports that none of these commands failed, and from the commit on nothing is undone |
| `RealIpDeploy.Deploy.Fail` | internal/cli/app.go:1171-1183 | Before the commit: site, then shared files and directories, then activation, complete exactly if no undo command fails, with the same exact condition for what Nginx runs; after the commit nothing changes |
| `RealIpDeploy.Deploy.InstallShared` | internal/cli/app.go:1133-1167 | Shared files installed with true snapshots kept and no failing command, or the tree as before exactly if no undo command fails |
| `RealIpDeploy.Deploy.RestoreShared` | internal/cli/app.go:2604-2648 | With the own files back, all shared files and new directories are undone and no directory is found non-empty |
| `RealIpDeploy.Deploy.SnapshotSite` | internal/cli/app.go:1871-1911 | Remembers the site file and whether it is enabled |
| `RealIpDeploy.Deploy.WriteSite` | internal/cli/app.go:1195-1199 | The site is installed and no other managed path changes |
| `RealIpDeploy.Deploy.RestoreSite` | internal/cli/app.go:1913-1930 | Site file and link are as at the start; it fails only when a command fails |
| `RealIpDeploy.Deploy.InstallReference` | internal/cli/app.go:1203-1237 | The app is registered, or its reference put back; no other managed path changes |
| `RealIpDeploy.Deploy.RestoreReference` | internal/cli/app.go:1309-1318 | The reference is back, or recorded as lost |
| `RealIpDeploy.Deploy.RegisterAndEnable` | internal/cli/app.go:1302-1321 | Reference and link are in place, or the reference is put back |
| `RealIpDeploy.Deploy.Activate` | internal/cli/app.go:1302-1338 | Succeeds exactly when the deploy commits: registered, enabled and loaded, with no failing command on the way |
| `RealIpDeploy.OnlyDirsRemain` | internal/cli/app.go:2640-2693 | Once every managed path is back only new directories of the removal list are left |
| `RealIpRefinement.DeployAsRun` | internal/cli/app.go:1128-1435 | Every deploy, however it ends, is a run of the app's own steps from any state of the step system in which the app is idle, the profile free and the tree shown: the changes of files and links it has made are, in their order, those of its steps, one for a step or none (a reference written once more as it is belongs to none); after every one of them the app sees in the step system what is on disk then; the run ends with the cleanup, with the lock given back, or cut short if an undo command has failed |
| `RealIpRefinement.MovesMirror` | internal/cli/app.go:1128-1338 | Any record of steps and changes in which each follows from the one before is a run that sees, at every moment, the files and links of that moment |
| `RealIpView.ChangeIsStep` | internal/cli/app.go:1154-1335 | Writing or putting back a shared file, the site, the reference or the link, as planned or snapshotted, changes the view exactly as the corresponding step does, and nothing else of it |
| `RealIpView.FilesAreSeen` | internal/cli/app.go:2640-2648 | Directories are no part of the view |
| `RealIpReferences.ReplaceForApp` | internal/cli/app.go:3031-3040 | Drops the references of the app and appends the new one |
| `RealIpReferences.ReplaceMeans` | internal/cli/app.go:3031-3040 | Afterwards exactly the new reference and those of the other apps are there |
| `RealIpReferences.ReplaceInOrder` | internal/cli/app.go:3031-3040 | The references of the other apps keep their order and the new one comes last |
| `RealIpReferences.ReplaceKeepsOnePerApp` | internal/cli/app.go:3031-3040 | One reference per app stays one per app |
| `RealIpReferences.ReplaceTwice` | internal/cli/app.go:3031-3040 | The last registration of an app wins |
| `RealIpReferences.DomainsOf` | internal/cli/app.go:3042-3059 | The domains are exactly those the references name, trimmed, non-empty, each once, in the order in which they are first named |
| `RealIpReferences.SplitStaged` | internal/cli/app.go:3011-3029 | Succeeds exactly when the reference path is staged once; the rest keeps its order |
| `RealIpReferences.RestInOrder` | internal/cli/app.go:3011-3029 | The shared files keep their order |
| `RealIpReferences.CatalogDivides` | internal/realipassets/catalog.go:30-47 | However the catalog is sorted, splitting what it stages works exactly if there is an app, and gives exactly the shared files of a deploy, none twice |
| `RealIpReferences.StagedPaths` | internal/realipassets/catalog.go:30-47 | The catalog stages exactly the shared files of the profile, and the reference if there is an app |
| `RealIpReferences.SortedIsDistinct` | internal/realipassets/catalog.go:57-70 | However the catalog is sorted, it has no path twice |
| `Prefixes.OverlapMeansShared` | internal/realip/cidr.go:137-142 | For prefixes of any width the overlap test holds exactly when the ranges share an address |
| `Prefixes.WithinMeansSubset` | internal/realip/cidr.go:130-135 | The within test holds exactly when the child range is a subset of the parent range |
| `Prefixes.NestedIfShared` | internal/realip/cidr.go:130-142 | Dyadic ranges that share an address are nested |
| `Prefixes.MaskedSame` | internal/realip/cidr.go:84-96 | Masking does not change which addresses a prefix stands for |
| `Prefixes.MaskedTwice` | internal/realip/cidr.go:84-96 | Masking is idempotent |
| `Cidr.CanonicalCIDRs` | internal/realip/cidr.go:49-82 | The seen-set, append and sort loops compute the canonical form, or the first error |
| `Cidr.CheckNetwork` | internal/realip/cidr.go:107-128 | The checks in the order of the tool, with the first disallowed range that overlaps |
| `Cidr.SortNetworks` | internal/realip/cidr.go:68-76 | Strictly ascending and the same elements |
| `Cidr.OrderedIsUnique` | internal/realip/cidr.go:68-76 | There is one ascending list of given networks |
| `CidrProperties.EdgeOneAcceptsExactly` | internal/realip/cidr.go:10-47 | An entry is accepted exactly when it can be read, is not a /0, and names only addresses outside all disallowed ranges and, for IPv6, inside 2000::/3 |
| `CidrProperties.AcceptedExactly` | internal/realip/cidr.go:84-128 | The same for every policy whose address classes and mapped addresses are excluded by its ranges |
| `CidrProperties.EdgeOneIsCoherent` | internal/realip/cidr.go:10-47 | The lists of the tool are such a policy: every address class it names (unspecified, loopback, link-local, multicast, private) lies in disallowed ranges |
| `CidrProperties.EdgeOneIsSafe` | internal/realip/cidr.go:10-47 | Whatever a canonical list of the tool trusts is inside 2000::/3 if it is IPv6 and in no disallowed range; never a /0 |
| `CidrRanges.HostIsTrustedIff` | internal/realip/cidr.go:10-47 | A bare address is trusted exactly if it is public: outside the special-purpose ranges, given by their first and last addresses and not by the lists of the tool, and, if it is IPv6, between 2000:: and 3fff:ffff:...:ffff |
| `CidrRanges.NetworkIsTrustedIff` | internal/realip/cidr.go:10-47 | A network is trusted exactly if it is not a /0 and all its addresses are public |
| `CidrRefusals.RefusedForIff` | internal/realip/cidr.go:49-82 | A list is refused with an error exactly if that is the error of its first entry in error, or the list is empty |
| `CidrRefusals.RefusalIsTrue` | internal/realip/cidr.go:84-128 | The error is true of the entry: it is blank or unreadable, names everything, or names a mapped, non-public or non-global address, or one in the disallowed range reported, and none in a range before it |
| `CidrRefusals.NotPublicIsSaid` | internal/realip/cidr.go:107-128 | A bare address is refused as not public exactly if it is of those classes, and a network exactly if its first address is |
| `CidrProperties.CanonicalIsNormalForm` | internal/realip/cidr.go:49-82 | Accepted exactly when non-empty and all entries are; the result is strictly sorted with exactly the networks of the entries |
| `CidrProperties.DependsOnNetworksOnly` | internal/realip/cidr.go:49-82 | Two accepted lists have equal canonical forms exactly when they have the same networks |
| `CidrProperties.CanonicalIsIdempotent` | internal/realip/cidr.go:49-82 | A canonical list is its own canonical form |
| `CidrProperties.MergeLaw` | internal/cli/app.go:2868-2871 | canon(canon(a) ++ canon(b)) = canon(a ++ b) |
| `CidrProperties.CanonicalDenotes` | internal/realip/cidr.go:49-105 | The canonical list covers exactly the addresses its entries name; a bare mapped address names the IPv4 address |
| `CidrProperties.CanonicalIsSafe` | internal/realip/cidr.go:107-128 | For every such policy: no /0, no IPv4-mapped prefix, allowed addresses only |
| `CidrProperties.MappedIsLong` | internal/realip/cidr.go:107-112 | A masked prefix that is still mapped is longer than 32 bits, so it never passes as IPv4 |
| `CidrProperties.ValidateDeployedState` | internal/cli/app.go:2852-2879 | Accepted exactly when all lists are readable and trustworthy and the trusted networks are those of current and next together |
| `Checkpoint.Checkpoint.BeginDeploy` | internal/state/checkpoint.go:65-91 | Keeps progress of an unfinished run of the same digest, discards everything else, and reports whether anything was cleared |
| `Checkpoint.Checkpoint.FinalizeSuccessfulDeploy` | internal/state/checkpoint.go:93-107 | Clears current mark and failure, and reports whether there was any |
| `Checkpoint.Checkpoint.MarkCompleted` | internal/state/checkpoint.go:109-122 | The mark becomes current and is appended unless recorded |
| `Checkpoint.Checkpoint.RecordFailure` | internal/state/checkpoint.go:166-181 | Sets or clears the failure |
| `Checkpoint.Checkpoint.RecordModifiedPaths` | internal/state/checkpoint.go:124-141 | The loop appends the new non-empty paths |
| `Checkpoint.Checkpoint.RecordActivations` | internal/state/checkpoint.go:143-159 | The loop appends the new activations |
| `Checkpoint.AddNewMeans` | internal/state/checkpoint.go:124-159 | Nothing recorded is lost, exactly the new non-empty entries are added, nothing twice |
| `Checkpoint.AddNewInPieces` | internal/state/checkpoint.go:124-159 | New entries come in the order in which they are first given |
| `Checkpoint.Checkpoint.RemoveCompleted` | internal/cli/deploy.go:2321-2340 | The filter loop removes one mark and clears it as current mark |
| `Checkpoint.Checkpoint.ResetDeployState` | internal/state/checkpoint.go:258-281 | Everything but the digest is cleared |
| `Checkpoint.Store.Save` | internal/state/checkpoint.go:211-252 | The saved record is the new one, or on failure the old one |
| `Deployer.Deployer.RunDeploy` | internal/cli/deploy.go:201-743 | The straight-line program, its guards, flags and saves compute the run of the specification for every configuration and every pattern of answers |
| `Deployer.Deployer.Prepare` | internal/cli/deploy.go:201-236 | Load, digest, begin, preflight |
| `Deployer.Deployer.DeferrablePhase` | internal/cli/deploy.go:461-492 | A missing command is recorded as deferred and stops the run; when it is there the marker is withdrawn |
| `Deployer.Deployer.ServicesPhase` | internal/cli/deploy.go:604-642 | Enable, start, restart, record |
| `Deployer.Deployer.OnboardingPhase` | internal/cli/deploy.go:644-685 | Restart unless done in this run, plan, create the key; withdraw services on a failed restart or key |
| `Deployer.Deployer.StaticVerifyPhase` | internal/cli/deploy.go:687-732 | Stops on missing prerequisites, then verifies |
| `Deployer.Deployer.RecordMark` | internal/cli/deploy.go:2352-2366 | Mark, clear the failure, save; stop if the save fails |
| `Deployer.Deployer.WriteFailure` | internal/cli/deploy.go:2368-2374 | Record the failure, save, stop |
| `Deployer.Deployer.MissingRequired` | internal/cli/deploy.go:2342-2350 | The names not recorded, in order |
| `MainDeployRuns.RecordedPhasesAreAPrefix` | internal/cli/deploy.go:243-732 | Over all sequences of runs, crashes, failures and configuration changes: the recorded marks without deferral markers are the first k phases of the list for the recorded challenge, in order, none twice, no marker beside the phase it defers, and a record at rest with anything recorded is complete |
| `MainDeployRuns.RunKeepsShape` | internal/cli/deploy.go:201-743 | One run keeps that shape and never stops because static verification misses a phase |
| `MainDeployRuns.DueIsNext` | internal/cli/deploy.go:604-608 | No phase is ever passed over: the guards let through exactly the first phase not recorded |
| `MainDeployRuns.PerformKeeps` | internal/cli/deploy.go:243-732 | What any phase may leave in memory and on disk |
| `MainDeployResume.GoodRunFinishes` | internal/cli/deploy.go:243-743 | From every reachable record a run in which nothing goes wrong executes exactly the unrecorded phases in order and ends finalised |
| `MainDeployResume.OnlyServicesAreWithdrawn` | internal/cli/deploy.go:644-672 | A run of the same configuration loses no recorded phase, except services-enabled as the last one |
| `MainDeployResume.UnfinishedProgressIsKept` | internal/state/checkpoint.go:65-91 | No progress of an unfinished run is lost to the next run of the same configuration |
| `MainDeployResume.AppliedIsRetired` | internal/cli/deploy.go:734-743 | After a run that reports success every later run starts from nothing |
| `MainDeployResume.FinishedIsRedoneIff` | internal/state/checkpoint.go:71-84 | A finished record is deployed afresh exactly when it has neither a current mark nor a failure |
| `MainDeployResume.StuckIff` | internal/cli/deploy.go:201-743 | After every history a finished record is not at rest if and only if some run could not save its last record, or recorded on a finished record that it had no digest, and no later run has reported success or begun the record of another configuration |
| `MainDeployResume.OnlyUnsavedHides` | internal/cli/deploy.go:2498-2546 | Of these causes only the failing last save is left where the digest is computed |
| `MainDeployResume.FailedFinalSaveHidesTheFinish` | internal/cli/deploy.go:734-743 | A reachable record for which that fails: after a run in which all goes well but its last save, the next good run executes nothing, reports success and retires the record |
| `MainDeployResume.NothingIsUnearned` | internal/cli/deploy.go:201-743 | A run that computes its digest never leaves a record crediting a phase it neither kept nor executed |
| `MainDeployResume.KeyOnlyAfterRestart` | internal/cli/deploy.go:644-680 | A preauth key is created only after a successful restart in the same run, whatever the record says |
| `MainDeployRestarts.NoSecondRestart` | internal/cli/deploy.go:636-655 | No run restarts Headscale twice |
| `MainDeployRestarts.RestartIsNotAsked` | internal/cli/deploy.go:644-655 | In a run that has enabled the services, how a restart for the onboarding would have gone makes no difference to anything |
| `MainDeployRestarts.FailedOnboardingWithdraws` | internal/cli/deploy.go:644-680 | Failed onboarding that is saved leaves services-enabled recorded exactly if Headscale was restarted in this run and it was the plan that failed |
| `MainDeployRecords.FailureIsRecorded` | internal/cli/deploy.go:2368-2374 | A run that stops for a reason it writes down has it in its record, and on disk if it can be saved |
| `MainDeployRecords.ChangesAreRecorded` | internal/cli/deploy.go:395-429 | A run that has installed the runtime files, or stopped half way, has all their paths and activations in its record, and on disk if it succeeds |
| `MainDeployGuards.NothingRunsEarly` | internal/cli/deploy.go:461-732 | Whatever record a run starts from, a phase it has executed has the phases it needs recorded: lego for the certificate, the bootstrap or the certificate for Nginx, units, certificate and Nginx for the services, services for the onboarding, and all five for the verification |
| `MainDeployGuards.FailureStandsIff` | internal/cli/deploy.go:2352-2374 | After a run that has executed a phase the record has a failure exactly if this run failed: a phase that succeeds clears an old one |
| `MainDeployGuards.DeferralIsMarked` | internal/cli/deploy.go:461-492 | A run that stops because lego or systemd is not there yet has the marker for it in its record; once the phase is executed the marker is gone |
| `MainDeployGuards.CurrentIsRecorded` | internal/cli/deploy.go:2321-2366 | Over all sequences of runs the current mark on disk is one of those recorded there |
| `MainDeployResume.WithdrawnServicesRunAgain` | internal/cli/deploy.go:604-685 | In a run that starts without services-enabled, every key creation comes after the services have been enabled in the same run |
| `EnvFile.ParseDnsEnvFile` | internal/cli/deploy.go:2081-2107 | The parser loop computes the last non-empty value of each key, or refuses |
| `EnvFile.LoadEnvFile` | internal/components/appsvc/tls.go:129-177 | The shell loop, reading line by line into the variables of one shell, computes the loader of the specification |
| `EnvFile.TrimValue` | internal/components/appsvc/tls.go:133-149 | The character-by-character trimming loops remove exactly spaces and tabs at both ends |
| `EnvFileAgreement.ReadersAgreeIff` | internal/cli/deploy.go:2081-2122 | With plain white space and no raw strings both readers refuse the same files and otherwise end with the same variables exactly when none of the names line, key, value is spoiled by the loader |
| `EnvFileAgreement.ReadersAgree` | internal/components/appsvc/tls.go:129-177 | They agree on every such file that uses none of these names |
| `EnvFileAgreement.NameLineIsSpoiled` | internal/components/appsvc/tls.go:150-177 | For every plain value, a file assigning to line is accepted by both and read differently |
| `EnvFileAgreement.UnquotesAgreeIff` | internal/cli/deploy.go:2109-2122 | On a trimmed value the two unquotings agree exactly when it is not wrapped in backticks |
| `EnvFileAgreement.TrimsAgreeIff` | internal/cli/deploy.go:2084-2093 | The two trimmings agree exactly when no other white space is left at the ends |
| `EnvFileAgreement.JudgesAgree` | internal/components/appsvc/tls.go:152-171 | Comments, export syntax, assignments and names are judged alike |
| `EnvFileLines.PlainValue` | internal/components/appsvc/tls.go:150-177 | Both readers take an unquoted value with nothing blank at its ends as it is written |
| `EnvFileLines.QuotedValue` | internal/cli/deploy.go:2109-2122 | Both drop single or double quotes around a value and take what is inside as it is, white space and other quotes included |
| `EnvFileLines.RawValue` | internal/cli/deploy.go:2109-2122 | Only the parser drops backticks |
| `EnvFileLines.NoValue` | internal/cli/deploy.go:2099-2105 | Both pass over an assignment of nothing or of empty quotes |
| `EnvFileLines.NameCharacters` | internal/cli/deploy.go:2081-2098 | The characters a name may have, one by one |
| `EnvFileLines.SilentLine` | internal/cli/deploy.go:2084-2092 | Both pass over comments and lines without an equals sign |
| `EnvFileLines.RefusedLine` | internal/cli/deploy.go:2086-2098 | Both refuse export syntax and names that are not shell names |
| `EnvFileLines.ReadInPieces` | internal/cli/deploy.go:2081-2107 | A file is read line by line, later lines over what earlier ones have given |
| `Listeners.Cutover.Deploy` | internal/cli/app.go:995-1417 | Every restart of the app or GoAccess, and the Nginx reload that switches over, finds the other service off its address, for all old and new addresses; a deploy that succeeds reloads Nginx for the switch-over exactly once, before GoAccess is restarted or removed, after the certificate with DNS-01 and before it with HTTP-01, has asked for the certificate, has moved the app before the reload exactly if one service held the new address of the other, has stopped GoAccess exactly if it held the app's, restarts the app once, or removes it once, and only then restarts or removes GoAccess, and leaves each service where it is configured; a reload by the certificate hook finds both apart if and only if the challenge is HTTP-01 or they were from the start; success means that no command that matters failed, failure needs one or a foreign listener |
| `Listeners.Cutover.Activate` | internal/cli/app.go:1340-1381 | The certificate before the cut-over with DNS-01 and after it with HTTP-01; afterwards Nginx has been switched over, neither service is on an address of the other, the certificate has been asked for, the hook has run if there was one, and GoAccess is gone if it is switched off; it succeeds only if no command that matters fails |
| `Listeners.Cutover.DetectListenBlockers` | internal/cli/app.go:3815-3853 | No blockers means GoAccess is off the app address; blockers are GoAccess sockets on it |
| `Listeners.Cutover.DetectPortBlockers` | internal/cli/app.go:3855-3889 | No blockers means the app is off the GoAccess address; blockers are app sockets on it |
| `Listeners.Cutover.ClearListenBlockers` | internal/cli/app.go:1280-1289 | Afterwards GoAccess is off the app address |
| `Listeners.Cutover.ClearPortBlockers` | internal/cli/app.go:1290-1301 | Afterwards neither service is on an address of the other |
| `Listeners.Cutover.StartAppBeforeCutover` | internal/cli/app.go:1246-1260 | The app is restarted at most once, onto a free address |
| `Listeners.Cutover.RemoveAppBeforeCutover` | internal/cli/app.go:1261-1279 | The app is removed at most once |
| `Listeners.Cutover.Finish` | internal/cli/app.go:1383-1417 | The remaining transition of the app, then GoAccess |
| `Listeners.OverlapCoversClash` | internal/cli/app.go:3933-4008 | The overlap test misses no clash of a socket with a configured loopback host |
| `Listeners.OverlapIsClash` | internal/cli/app.go:3933-4008 | For configured literal addresses it is exact |
| `Listeners.ConfiguredApart` | internal/appconfig/validate.go:546-606 | Validated hosts that do not overlap never clash |
| `Listeners.SettledIsClear` | internal/appconfig/validate.go:546-570 | A service that listens where it is configured leaves the address of the other free |
| `SystemdEnvironment.Assignments` | internal/appverify/verify.go:770-818 | The loop over builder, quote and escaped computes the tokenizer |
| `SystemdEnvironment.FailsExactly` | internal/appverify/verify.go:808-813 | Trailing escape exactly for an odd number of final backslashes, open quote exactly when the text outside escapes leaves one open |
| `SystemdEnvironment.RoundTrip` | internal/appverify/verify.go:770-818 | However words are written (in pieces that are plain, backslashed or in either quotes, with any white space between words) they are given back, empty ones dropped |
| `SystemdEnvironment.RoundTripIff` | internal/appverify/verify.go:774-780 | A list of words survives exactly when none is empty |
| `Ports.DefaultWebSocketPort` | internal/appconfig/defaults.go:206-217 | The search ends for every name, in 39000..58999, at the first port from the hashed one on, going round, that is not reserved |
| `Ports.FirstFreeIs` | internal/appconfig/validate.go:1357-1364 | That is the hashed port, or 50444 for 50443 |
| `Ports.Hash` | internal/appconfig/defaults.go:207-208 | The loop computes 32-bit FNV-1a |
| `Ports.FnvAppend` | internal/appconfig/defaults.go:207-208 | Hashing in pieces is hashing at once |
| `Ports.HashIsUndone` | internal/appconfig/defaults.go:207-208 | For every text each step of the hash can be undone, so different starting values never meet |
| `Ports.KnownHashes` | internal/appconfig/defaults.go:207-208 | The published values of 32-bit FNV-1a for the empty text, "a" and "foobar" |

## Left out

- Permission, ownership, link-count and managed-marker checks on existing files and directories: a command that may refuse stands for them.
- The other runtime files of an app (service units, hooks, GoAccess files): the program never rolls them back; a command that may fail stands for their installation.
- Two deploys of the same app at once: there is no lock per app, and one in flight per app is assumed.
- Real-IP directories are assumed to have no other writer while a deploy runs; the directories that come with the system, systemd and Nginx are assumed to be there.
- RealIpRefinement.DeployAsRun: the deploy runs alone on its tree; that the steps of others leave alone what it sees under the lock is proved in the step system only.
- Profile and app names are any strings; that they are single safe path segments is checked by the program before the paths are built.
- Fetching the EdgeOne list, building the state and rendering templates: the staged files are inputs.
- RealIpDeploy.Deploy.Run: certificate files are not in the tree, and of lego only what its hook does to Nginx is modelled; the order for HTTP-01 does not appear, because a real-IP profile demands DNS-01.
- RealIpDeploy.DeployApp: that Nginx runs what is on disk assumes that no other process (a deploy under another profile, a plain deploy, the hook of a renewal timer) reloads Nginx meanwhile; the lock of the profile does not exclude them.
- RealIpRefresh.InstallAndActivate: the same assumption about other reloads.
- FileInstaller.InstallOne: the checks for symbolic links among the parent directories do not appear; a parent is a directory or not.
- Deployer.Deployer.RunDeploy: the several commands inside one phase are one piece of work that is done, broken, absent or killed; failure messages are one string.
- Checkpoint.Checkpoint.BeginDeploy: digests are injective in the configuration, and time stamps are not modelled.
- Cidr.CanonicalCIDRs: entries come as read by `net/netip`, and printing is its inverse; a zone on a bare address is dropped as the program drops it.
- Cidr.SortNetworks: the library sort is an insertion sort here.
- EnvFile.LoadEnvFile: bytes that are not characters, NUL, and names with a meaning of their own to the shell (such as PATH or IFS) are not modelled, and no variable is exported before the file is read.
- EnvFileAgreement.ReadersAgreeIff: for files without backtick-wrapped values; `UnquotesAgreeIff` says for every value what happens otherwise.
- Listeners.Cutover.Deploy: no service changes its sockets on its own between the look at the host and the restarts, and an app listens only where it is configured.
- Ports.DefaultWebSocketPort: names are bytes.
- Detection of reserved credentials in unit files, prompts, output, help, DNS provider tables and single-field validators: they would only add easy members.
