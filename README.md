# HakPak in Dafny

HakPak installs security tools on Linux hosts. This project models its
planning engine. It covers these parts:

- The v3 compatibility scorer and install filter.
- The dependency resolver, with its token-to-package table, its resolution cache and the base packages per source build kind.
- The package installer, with its index refresh flag, the apt retry and the availability probe classifier.
- The catalogue loader, which flattens a category tree into a name-to-tool table.
- The preflight pass that builds an install plan.
- The executor, which carries a plan out against the installed-tools registry.
- The registry store.
- The `/etc/os-release` reader and package-manager detection.
- The install menu's answer parsing, ranking, truncation and selection.
- The v2 command-line installer.
- The GUI server's JSON handlers.

Modules follow the program's structure:

| file | module | models |
|---|---|---|
| wrappers.dfy | Wrappers | `Option`, `Result` |
| model.dfy | Model | `Tool`, `ToolMetrics`, `SystemInfo` |
| install_params.dfy | Filter | `InstallParams.matches` |
| scorer.dfy | Scorer | `CompatibilityScorer.score_tool`, `format_compatibility` |
| os_detector.dfy | OsDetector | `OSDetector.read_os_release`, `detect_package_manager` |
| state_store.dfy | StateStore | `StateManager` |
| resolver.dfy | Resolver | `DependencyResolver` |
| probe.dfy | Probe | `PackageInstaller.is_package_available` |
| installer.dfy | Installer | `PackageInstaller.install_packages` and the per-manager installers |
| catalog.dfy | Catalog | `ToolLoader` |
| source_install.dfy | SourceInstall | `install_from_source` dispatch and the required fields of each build |
| planner.dfy | Planner | `build_install_plan` |
| executor.dfy | Executor | `execute_install_plan` |
| menu.dfy | Menu | `configure_install_params`, `menu_install_tools` |
| hakpak2.dfy | HakPak2 | `v2/hakpak2.py` |
| gui_server.dfy | GuiServer | `gui/server.py` |
| strings.dfy, collections.dfy | Strings, Collections | `str` operations (strip, lower, split, join, `in`, ordering) and map keys |

The host is a set of deterministic oracles passed as parameters:

- `which`: PATH lookup.
- `available`: the package probe, or in `Probe` the captured output of each query command.
- `runs`: whether a shell command succeeds.
- `build`: in v3 a `SourceInstall.Builder`, holding the PATH lookup a go build consults and whether the build proper ends without an exception; in v2 `Host.build`, the ending (returned, raised or exit) of a tool's build.
- `launch`: the GUI's process launcher.

Things the user types are parameters as well: the confirmation answer, the menu answers and the search query. So are the root check and the install timestamp.

Objects whose fields the program updates are classes:

- `StateStore.StateManager` holds the state file.
- `Resolver.DependencyResolver` holds the resolution cache.
- `Installer.PackageInstaller` holds the refresh flag and the command log.
- `HakPak2.StateDir` holds the v2 state file.

Their methods are proved against specification functions. The properties are lemmas about those functions.

## Model

| member | source | states |
|---|---|---|
| Filter.MatchesIffNotRejected | v3/hakpak3.py:96-126 | a tool matches exactly when none of the five rejections applies: score out of [min, max], total size over the size limit, RAM over the RAM limit, a non-empty include list with no shared tag, a shared excluded tag |
| Filter.DefaultsAcceptAll | v3/hakpak3.py:88-94 | the default parameters (0, 100, no limits, no tags) accept every tool on every system |
| Filter.LooserAcceptsMore | v3/hakpak3.py:96-126 | widening the score window, raising or dropping the limits, and dropping or shrinking the tag lists never turns a match into a rejection |
| Filter.MaxCountIrrelevant | v3/hakpak3.py:94-126 | the count limit plays no part in whether one tool matches |
| Filter.TestToolScore | v3/test_install_params.py:30-67 | the test tool scores 95 on the mock Ubuntu system |
| Filter.TestCases | v3/test_install_params.py:73-121 | the four filter tests come out as the test script prints: min 50 with size 100 matches, size 50 rejects the 70 MB tool, `network` included matches, `web` excluded matches |
| Scorer.PackageManagerPoints | v3/hakpak3.py:287-291 | 40 exactly when the active manager is a key of `packages`, 20 exactly when it is not and a source spec is present, else 0 |
| Scorer.OsPoints | v3/hakpak3.py:293-304 | 30 on kali and parrot; elsewhere 25 exactly when the distribution family's manager key (apt, pacman, dnf) is declared; never anything but 30, 25 or 0 |
| Scorer.RamPoints | v3/hakpak3.py:306-312 | 15 exactly when available RAM is over twice the requirement, 10 exactly when it is over the requirement and at most twice it, else 0 |
| Scorer.DiskPoints | v3/hakpak3.py:314-321 | 15 exactly when free disk is over three times the tool's size in GB, 10 exactly when it is over the size and at most three times it, else 0 |
| Scorer.ScoreTool | v3/hakpak3.py:278-323 | the score is the sum of the four components and lies in 0..100 |
| Scorer.ExactResourcesEarnNothing | v3/hakpak3.py:306-321 | available RAM and disk exactly equal to the requirement earn no resource points (strict comparisons) |
| Scorer.ScoreMonotoneInRam | v3/hakpak3.py:306-313 | more available RAM never lowers the score |
| Scorer.ScoreMonotoneInDisk | v3/hakpak3.py:315-321 | more free disk never lowers the score |
| Scorer.ScoreMonotoneInPackages | v3/hakpak3.py:287-304 | declaring one more native package never lowers the score |
| Scorer.ScoreIgnoresDescription | v3/hakpak3.py:278-323 | name, description and tags have no influence on the score |
| Scorer.FullScore | v3/hakpak3.py:278-323 | a score of 100 needs a native package for the manager, a security distribution, RAM over twice the need and disk over three times the size |
| Scorer.TierOf | v3/hakpak3.py:441-448 | green exactly from 80, yellow exactly from 60 below 80, red exactly below 60 |
| Scorer.NatToStringRoundTrip | v3/hakpak3.py:448 | the decimal text of a score reads back as the score |
| Scorer.IntToStringRoundTrip | v3/hakpak3.py:448 | the same for a non-negative integer in `str()` form |
| Scorer.FormatCompatibility | v3/hakpak3.py:441-448 | the text is an escape sequence with the tier's colour code, the score's decimal digits, `%` and the reset sequence, and the digits read back as the score |
| OsDetector.ParseLine | v3/hakpak3.py:211-216 | a blank line, a comment or a line without `=` gives nothing; otherwise the key is the stripped line up to the first `=` and the value the rest with double quotes stripped |
| OsDetector.AssignKeys | v3/hakpak3.py:207-216 | a key is in the table exactly when some line assigns it |
| OsDetector.AssignLastWins | v3/hakpak3.py:207-216 | the value of a key is the one of its last assigning line |
| OsDetector.OsReleaseKeys | v3/hakpak3.py:205-219 | the keys of the parsed file are exactly the keys some line defines |
| OsDetector.OsReleaseLastWins | v3/hakpak3.py:205-219 | a later definition of a key overrides an earlier one |
| OsDetector.ReadOsRelease | v3/hakpak3.py:205-219 | a missing file gives the empty table (the `FileNotFoundError` branch); a present one gives the table of its lines |
| OsDetector.FirstOnPath | v3/hakpak3.py:240-242 | the index of the first manager on PATH, with all earlier ones absent; none when no manager is on PATH |
| OsDetector.PriorityOrder | v3/hakpak3.py:225-238 | the distribution's candidate order is never empty |
| OsDetector.FirstManager | v3/hakpak3.py:240-248 | the first manager on PATH wins; else apt when `/etc/debian_version` exists; else the exit message |
| OsDetector.DetectPackageManager | v3/hakpak3.py:222-248 | the manager chosen from the ID's priority order, with the same fallbacks |
| OsDetector.DetectedManagerKnown | v3/hakpak3.py:225-242 | a manager found on PATH is one of apt, dnf, yum, pacman, zypper |
| OsDetector.KaliUsesApt | v3/hakpak3.py:229-230 | on kali only apt is tried |
| StateStore.Load | v3/hakpak3.py:330-339 | a stored document is loaded as saved; a missing or unparsable file gives empty "installed" and "custom" tables |
| StateStore.LoadAfterSave | v3/hakpak3.py:330-346 | loading a saved document gives it back |
| StateStore.WithInstalled | v3/hakpak3.py:348-359 | records exactly `installed[name]`, every other entry and the custom table unchanged; no document without an "installed" table |
| StateStore.WithoutTool | v3/hakpak3.py:361-369 | removes the name from both tables, every other entry unchanged, nothing else added |
| StateStore.WithoutToolIdempotent | v3/hakpak3.py:361-369 | uninstalling twice equals uninstalling once |
| StateStore.WithoutAbsentTool | v3/hakpak3.py:361-369 | uninstalling a name in neither table leaves the document as it was |
| StateStore.InstallThenUninstall | v3/hakpak3.py:348-369 | installing then uninstalling a name equals only uninstalling it |
| StateStore.WithInstalledKeys | v3/hakpak3.py:348-359 | recording a tool adds exactly its name to the installed keys |
| StateStore.StateManager.MarkInstalled | v3/hakpak3.py:348-359 | the new file is the loaded document with the record added, or a KeyError with the file untouched |
| StateStore.StateManager.MarkUninstalled | v3/hakpak3.py:361-369 | the new file is the loaded document without the name, written also when the name was absent |
| StateStore.StateManager.GetInstalledTools | v3/hakpak3.py:371-375 | exactly the installed keys, each once |
| StateStore.StateManager.GetCustomTools | v3/hakpak3.py:377-380 | exactly the custom keys, each once |
| Resolver.MapDependencyPackage | v3/hakpak3_core.py:19-40 | the table's package for the token and manager exactly when both keys exist, else none |
| Resolver.MappedNamesNonEmpty | v3/hakpak3_core.py:21-38 | no mapped package name is empty |
| Resolver.NothingMapsOnYum | v3/hakpak3_core.py:21-40 | the table has no yum column, so nothing maps on yum |
| Resolver.TableColumns | v3/hakpak3_core.py:21-38 | every token of the table maps on apt, dnf, pacman and zypper and on nothing else |
| Resolver.ResolveSound | v3/hakpak3_core.py:42-63 | a package is emitted exactly for the tokens not yet cached, not on PATH and mapped; each such token once; the cache only grows, by the tool's tokens |
| Resolver.ResolveOrdered | v3/hakpak3_core.py:42-63 | the tokens are emitted in the order of their first occurrence in the dependency list; a listed token that is on PATH or mapped is cached afterwards |
| Resolver.ResolveEmitsEachNameOnce | v3/hakpak3_core.py:42-63 | within one resolution no token is emitted twice |
| Resolver.ResolveOnYum | v3/hakpak3_core.py:42-63 | resolution on yum emits no package |
| Resolver.SecondResolutionDisjoint | v3/hakpak3_core.py:42-63 | a token emitted for one tool is never emitted again by the same resolver |
| Resolver.MappedPackages | v3/hakpak3_core.py:83-89 | each listed package is the mapping of one of the tokens |
| Resolver.AllMapped | v3/hakpak3_core.py:83-89 | when every token maps, one package per token |
| Resolver.BaseTokensInTable | v3/hakpak3_core.py:65-82 | every base token of every build kind is a key of the table |
| Resolver.BaseTokensAllMapped | v3/hakpak3_core.py:65-89 | on the four table managers every base token yields a package |
| Resolver.CheckResources | v3/hakpak3_core.py:91-106 | disk ok exactly when free disk is at least the total size over 1024; RAM ok exactly when available RAM is at least the requirement; the reported figures |
| Resolver.ChecksAgreeWithScore | v3/hakpak3_core.py:95-106 | a tool earning disk or RAM points passes the matching resource check, and one failing it earns none there |
| Resolver.DependencyResolver.ResolveDependencies | v3/hakpak3_core.py:42-63 | returns the packages of `Resolve` and leaves the cache as `Resolve` says |
| Resolver.DependencyResolver.SourceBaseDependencies | v3/hakpak3_core.py:65-89 | no packages without a truthy source type; otherwise the mapped base tokens of that type |
| Probe.AptAvailableIff | v3/hakpak3_core.py:187-201 | apt says available exactly when the policy output has neither "Unable to locate package" nor "Candidate: (none)" and either has "Candidate:" or the show query succeeds with output naming the package |
| Probe.AptCandidateDecides | v3/hakpak3_core.py:193-196 | once the policy output has a candidate, the show query does not matter |
| Probe.AvailableNeedsSuccess | v3/hakpak3_core.py:203-222 | on dnf, yum, pacman and zypper an available package needs a query that exits 0 |
| Probe.ZypperNotFoundAnyCase | v3/hakpak3_core.py:217-222 | "not found" in any letter case makes a package unavailable on zypper |
| Probe.PacmanNeedsBothPhrases | v3/hakpak3_core.py:210-215 | without "was not found" the pacman verdict is the exit status alone |
| Probe.UnknownManagerAvailable | v3/hakpak3_core.py:224-225 | an unknown manager reports every package available |
| Installer.SuccessfulRefreshesAppend | v3/hakpak3_core.py:128-163 | successful refreshes in a log add up over concatenation |
| Installer.RefreshThenInstallCount | v3/hakpak3_core.py:128-163 | one refresh-then-install step refreshes successfully once exactly when it sets the flag, and a set flag stays set |
| Installer.RefreshAtMostOnce | v3/hakpak3_core.py:128-181 | a batch install performs at most one successful refresh, and none once the flag is set |
| Installer.NoRefreshOnceUpdated | v3/hakpak3_core.py:128-163 | with the flag set no refresh command is issued |
| Installer.AptRetriesOnce | v3/hakpak3_core.py:128-144 | a failing apt install is retried exactly once, allowing downgrades, and the retry decides the outcome |
| Installer.AptNoRetryOnSuccess | v3/hakpak3_core.py:128-144 | a successful apt install is not retried |
| Installer.YumIsDnf | v3/hakpak3_core.py:165-181 | yum uses the dnf installer |
| Installer.UnsupportedRunsNothing | v3/hakpak3_core.py:165-181 | an unknown manager issues no command and ends in the exit request, and only it |
| Installer.PackageInstaller.constructor | v3/hakpak3_core.py:112-116 | a new installer has not refreshed and has issued nothing |
| Installer.PackageInstaller.Run | v3/hakpak3_core.py:128-163 | a command is logged and its result is the oracle's |
| Installer.PackageInstaller.RefreshAndInstall | v3/hakpak3_core.py:128-163 | the log grows by the step's commands and the flag becomes the step's |
| Installer.PackageInstaller.InstallPackages | v3/hakpak3_core.py:165-181 | the log grows by `InstallAttempt`'s commands, the flag and outcome are its own |
| Catalog.Get | v3/hakpak3_core.py:244-295 | a key's value is present exactly when some entry has the key, and is the value of such an entry |
| Catalog.TextItems | v3/hakpak3_core.py:259-267 | only the text items of a list are kept |
| Catalog.ToolFrom | v3/hakpak3_core.py:251-293 | a specification becomes a standard tool of that name, binary defaulting to the name, metrics defaulting to 10.0/5.0/128, no source and no packages when absent; metrics of the wrong shape raise |
| Catalog.ToolFromDefaults | v3/hakpak3_core.py:276-293 | without the key, dependencies and tags are empty lists, the description is empty and there is no metapackage |
| Catalog.ToolFromGiven | v3/hakpak3_core.py:276-293 | a given binary, description or metapackage text is taken as it is |
| Catalog.ToolFromMetrics | v3/hakpak3_core.py:276-290 | with a metrics mapping, each missing metric takes its own default (10.0, 5.0, 128) and a given number is kept |
| Catalog.FlattenKeyedByName | v3/hakpak3_core.py:244-295 | every flattened table maps each name to a tool of that name |
| Catalog.AddEntriesKeyed | v3/hakpak3_core.py:272-293 | adding a category's entries keeps the table keyed by name |
| Catalog.NonMappingCategorySkipped | v3/hakpak3_core.py:244-246 | a category whose value is not a mapping adds nothing |
| Catalog.BareCategoryIsOneTool | v3/hakpak3_core.py:248-269 | a category with a tool key (binary, description, packages, metrics, tags) is one tool named after the category |
| Catalog.NonMappingEntrySkipped | v3/hakpak3_core.py:272-274 | a nested entry that is not a mapping adds nothing |
| Catalog.LaterEntryOverwrites | v3/hakpak3_core.py:272-293 | a later tool of the same name replaces the earlier one |
| Catalog.FlattenFailureSticks | v3/hakpak3_core.py:244-295 | once a category raises, the load raises that error |
| Catalog.AddEntriesFailureSticks | v3/hakpak3_core.py:272-293 | once an entry raises, the category raises that error |
| Catalog.LoadKaliTools | v3/hakpak3_core.py:232-295 | the loop computes the catalogue of the document, or its error |
| Catalog.Pick | v3/hakpak3_core.py:298-320 | the tools of the catalogue whose names are listed, and only those |
| Catalog.GetStandardTools | v3/hakpak3_core.py:304-315 | at most the twenty standard names, each present one included |
| Catalog.GetInstalledTools | v3/hakpak3_core.py:298-302 | exactly the catalogue tools recorded as installed |
| Catalog.GetCustomTools | v3/hakpak3_core.py:317-320 | exactly the catalogue tools recorded as custom |
| SourceInstall.MissingField | v3/hakpak3_core.py:868-1059 | each build kind fails exactly when its required fields are missing or empty: go needs module; python-git, ruby-git and git need repo; git-bash needs repo and entry; pip needs package or module; deb needs url; wine-binary needs url, file and binary_path |
| SourceInstall.GoPackage | v3/hakpak3_core.py:871-876 | the toolchain package is go on pacman and zypper, golang on every other manager |
| SourceInstall.GoToolchain | v3/hakpak3_core.py:871-876 | with go on PATH nothing is installed; otherwise the outcome of a fresh installer's toolchain install |
| SourceInstall.InstallFromSource | v3/hakpak3_core.py:841-880 | built only for a source spec of a known type whose toolchain step succeeded, with its fields and a successful build; the error for no spec and an unknown type; a failed go toolchain install gives its command error or exit before the module is checked; then the missing field's message |
| SourceInstall.BuildFromSource | v3/hakpak3_core.py:841-880 | the procedure, with its own installer for the go toolchain, ends as `InstallFromSource` says |
| SourceInstall.ToolchainBeforeModule | v3/hakpak3_core.py:871-880 | a go spec without go on PATH whose toolchain install fails gives the command error, whether or not the module is given |
| SourceInstall.OtherKindsUseNoManager | v3/hakpak3_core.py:841-880 | unless it is a go build without go on PATH, a source build does not depend on any package command |
| SourceInstall.KnownTypesHaveBaseDependencies | v3/hakpak3_core.py:65-89 | a build kind has base dependencies exactly when `install_from_source` knows it |
| SourceInstall.CompleteSpecificationBuilds | v3/hakpak3_core.py:841-880 | with a complete spec of a known kind and its toolchain in place, the outcome is the build's |
| Planner.ChooseMethod | v3/hakpak3_core.py:363-370 | native exactly when a package is declared and available, source exactly when not and a source spec exists, skip otherwise |
| Planner.NonEmptyOnlyMembers | v3/hakpak3_core.py:376-378 | the kept dependencies are exactly the non-empty ones |
| Planner.ItemsFollowTools | v3/hakpak3_core.py:341-392 | one item per tool in input order, each with its tool, method, package and skip reason |
| Planner.StepItemFits | v3/hakpak3_core.py:351-392 | one step appends exactly one fitting item |
| Planner.BucketsAreFilters | v3/hakpak3_core.py:351-392 | the skipped, low-RAM and insufficient-disk buckets are the filters of the items, and the collected dependencies their concatenation |
| Planner.DiskSkippedAreSkipped | v3/hakpak3_core.py:354-361 | an item of the insufficient-disk bucket is also skipped |
| Planner.InsufficientDiskWithinSkipped | v3/hakpak3_core.py:354-361 | `insufficient_disk` is within `skipped`, each with reason "insufficient disk" |
| Planner.DiskSkippedReason | v3/hakpak3_core.py:354-361 | a disk-skipped item carries the reason "insufficient disk" |
| Planner.CacheFromDiskOkTools | v3/hakpak3_core.py:354-378 | only tools that passed the disk check reach the resolver |
| Planner.DiskSkippedContributeNothing | v3/hakpak3_core.py:354-361 | a disk-skipped tool's item has no package and no dependencies |
| Planner.UniqueAvailableSound | v3/hakpak3_core.py:394-402 | the deduplicated list has no duplicates and holds exactly the available collected dependencies |
| Planner.UniqueAvailableOrdered | v3/hakpak3_core.py:394-402 | the list keeps first-occurrence order |
| Planner.PlanDependencies | v3/hakpak3_core.py:372-403 | the plan's dependency packages are duplicate-free, available, each from some item, and every available item dependency is included |
| Planner.ConcatDepsMembers | v3/hakpak3_core.py:376-378 | the collected dependencies are those of the items |
| Planner.DedupAvailable | v3/hakpak3_core.py:394-402 | the loop computes the deduplicated, available list |
| Planner.StepWhenDiskOk | v3/hakpak3_core.py:363-392 | for a tool passing the disk check: method, resolved dependencies (plus base packages for source items), skip reason and bucket updates; dependencies accumulate before the skip branch |
| Planner.PlanTool | v3/hakpak3_core.py:351-392 | one step of the pass, with the resolver cache kept in step |
| Planner.BuildInstallPlan | v3/hakpak3_core.py:341-404 | the method's plan is the plan of the tools |
| Executor.Installable | v3/hakpak3_core.py:409 | exactly the native and source items |
| Executor.NothingInstallableIffAllSkipped | v3/hakpak3_core.py:409-412 | nothing is installable exactly when every item is skipped |
| Executor.NothingHappensUnconfirmed | v3/hakpak3_core.py:409-436 | with nothing installable, an answer other than "y" or no root rights: no command, no registry write, no item result |
| Executor.DependenciesFirst | v3/hakpak3_core.py:438-441 | the dependency batch is issued before anything else; if it fails the run ends there and nothing is recorded |
| Executor.ExecuteBatchStops | v3/hakpak3_core.py:438-441 | a batch that does not install ends the run with its error or exit |
| Executor.ItemStepExtendsLog | v3/hakpak3_core.py:444-471 | an item step only appends commands |
| Executor.RunItemsExtendsLog | v3/hakpak3_core.py:444-471 | the item loop only appends commands |
| Executor.SourceItemRunsNoCommand | v3/hakpak3_core.py:465-469 | a source item issues no package command and succeeds exactly when the build succeeds and the registry has its table |
| Executor.UnavailableFallsBack | v3/hakpak3_core.py:451-459 | an unavailable native package falls back to a source build when a source spec exists, and is reported skipped without a write otherwise |
| Executor.MissingMappingChangesNothing | v3/hakpak3_core.py:447-450 | a native item without a package changes nothing |
| Executor.InstalledNames | v3/hakpak3_core.py:444-471 | the names of the items whose result is a success |
| Executor.MarkRecords | v3/hakpak3_core.py:455-468 | a successful install records that tool with the given record; every other entry keeps its record |
| Executor.FromSourceRecords | v3/hakpak3_core.py:454-468 | a source install succeeds exactly when the build does and the registry has its table, and then records the tool as "source"/"custom"; every other entry keeps its record |
| Executor.ItemStepRecords | v3/hakpak3_core.py:444-471 | one item adds its name to the installed keys exactly when it succeeds: an available native package as "native"/"standard", a source build (of a source item, or of a native item whose package is unavailable) as "source"/"custom", with the run's stamp; a failure writes nothing; other entries and the custom table are kept |
| Executor.RunItemsRecords | v3/hakpak3_core.py:444-471 | after the loop the installed keys are the old ones plus exactly the succeeded items' names |
| Executor.RunItemsRecordValues | v3/hakpak3_core.py:444-471 | after the loop each installed tool holds the record of its last success, and every tool not installed keeps its old record |
| Executor.InstalledNamesPrefix | v3/hakpak3_core.py:444-471 | succeeded names depend only on the items already run |
| Executor.RunItemsLength | v3/hakpak3_core.py:444-471 | an exception in one item does not stop the loop: only an exit request ends it early, and then as the last result |
| Executor.HaltedStays | v3/hakpak3_core.py:444-471 | after an exit request the remaining items do not run |
| Executor.ExecuteReachesItems | v3/hakpak3_core.py:431-471 | confirmed, as root, with a successful or empty batch, the run is the item loop over the installable items |
| Executor.ExecuteStopsEarly | v3/hakpak3_core.py:409-441 | otherwise no item runs and nothing is recorded |
| Executor.ExecuteRecords | v3/hakpak3_core.py:407-471 | at most one result per installable item; the installed keys grow by exactly the succeeded names, each with the record of its last success, and every other entry keeps its record |
| Executor.CompletedCoversAll | v3/hakpak3_core.py:444-471 | a completed run has a result for every installable item and no exit among them |
| Executor.ItemsPhaseCompleted | v3/hakpak3_core.py:444-471 | the same for the item phase alone |
| Executor.InstallItem | v3/hakpak3_core.py:445-471 | the installer log, refresh flag and state file change as one item step says |
| Executor.BuildAndRecord | v3/hakpak3_core.py:454-469 | the state file changes as a source install says |
| Executor.InstallItems | v3/hakpak3_core.py:444-471 | the loop's installer and state file end as the item steps say |
| Executor.InstallConfirmed | v3/hakpak3_core.py:435-471 | after confirmation: the batch, then the items, as `Proceed` says |
| Executor.ExecuteInstallPlan | v3/hakpak3_core.py:407-471 | outcome, commands, item results and state file are those of `Execute` |
| Menu.Clamp | v3/hakpak3_core.py:574-578 | the percentage is in 0..100, unchanged inside it, saturating outside |
| Menu.NumeralValueNat | v3/hakpak3_core.py:572-610 | a digit string reads as a non-negative number |
| Menu.WholeAnswer | v3/hakpak3_core.py:572-610 | an answer is read as a number exactly when it is all digits, with its decimal value |
| Menu.WholeAnswerRoundTrip | v3/hakpak3_core.py:572-574 | the decimal text of a number is read back as that number |
| Menu.DropPoints | v3/hakpak3_core.py:583 | the text without its points is no longer and has no point |
| Menu.Decimal | v3/hakpak3_core.py:585 | `float` of a digit string with at most one point is non-negative; a second point is not a number |
| Menu.SizeAnswerAsWritten | v3/hakpak3_core.py:583-585 | the guard lets an answer through exactly when dropping its points leaves digits; a guarded answer that is not a decimal raises |
| Menu.SecondPointRaises | v3/hakpak3_core.py:583-585 | "1.2.3" passes the guard and then raises in `float` |
| Menu.SizeAnswer | v3/hakpak3_core.py:583-585 | agrees with the code wherever it does not raise, leaves the limit unset where it raises, never negative |
| Menu.DecimalAt | v3/hakpak3_core.py:585 | a text with one point is a decimal exactly when both sides are digit strings and not both empty |
| Menu.DecimalAtIndex | v3/hakpak3_core.py:585 | the same stated at the point's index |
| Menu.DropPointsDecimal | v3/hakpak3_core.py:583 | dropping the point from a decimal joins its two sides |
| Menu.SizeAnswerDecimal | v3/hakpak3_core.py:583-585 | a decimal answer is read as its value |
| Menu.SizeAnswerWhole | v3/hakpak3_core.py:583-585 | a whole-number answer is read as that number of MB |
| Menu.Tags | v3/hakpak3_core.py:597-603 | the stripped non-empty pieces, never more than there were |
| Menu.TagAnswer | v3/hakpak3_core.py:597-603 | no tag read from an answer is empty; a blank answer gives none |
| Menu.TagsOfStripped | v3/hakpak3_core.py:597-603 | stripped non-empty pieces are kept as they are |
| Menu.TagsRoundTrip | v3/hakpak3_core.py:597-603 | tags joined with commas are read back as the same tags |
| Menu.PercentAnswer | v3/hakpak3_core.py:570-578 | a digit answer is clamped; anything else keeps the default |
| Menu.LimitAnswer | v3/hakpak3_core.py:588-610 | a limit is set exactly for a digit answer, to its non-negative value |
| Menu.Configure | v3/hakpak3_core.py:559-628 | declining gives the defaults; percentages in 0..100; limits non-negative; no empty tag |
| Menu.BlankAnswersKeepDefaults | v3/hakpak3_core.py:559-628 | pressing Enter at every question gives the defaults |
| Menu.NumberAnswer | v3/hakpak3_core.py:572-610 | a number typed in decimal is stripped, all digits and reads back as itself |
| Menu.ConfigureReadsNumbers | v3/hakpak3_core.py:559-628 | typed numbers give the clamped percentages and the typed limits |
| Menu.Insert | v3/hakpak3_core.py:665-669 | one element more, the same multiset plus that element |
| Menu.SortDescending | v3/hakpak3_core.py:665-669 | the sort keeps the length |
| Menu.InsertDescending | v3/hakpak3_core.py:665-669 | inserting into a descending list keeps it descending |
| Menu.InsertWithKey | v3/hakpak3_core.py:665-669 | an insert puts the element ahead of the elements with its key |
| Menu.SortDescendingSorted | v3/hakpak3_core.py:665-669 | the result is sorted by descending key |
| Menu.SortDescendingPermutes | v3/hakpak3_core.py:665-669 | the result is a permutation |
| Menu.SortDescendingStable | v3/hakpak3_core.py:665-669 | elements of equal key keep their order (Python's sort is stable) |
| Menu.SortDescendingKeepsSorted | v3/hakpak3_core.py:665-669 | a list already descending is left as it is |
| Menu.RankByScore | v3/hakpak3_core.py:665-669 | the ranked tools are in descending score order, a permutation of the offer, stable among equal scores |
| Menu.Truncate | v3/hakpak3_core.py:672-673 | always a prefix; no limit or 0 keeps all, a positive limit keeps the first ones, a negative one drops from the end as a Python slice does |
| Menu.PyPrefix | v3/hakpak3_core.py:739-742 | Python's `s[:n]`: a prefix of length min(n, len) for n >= 0, len + n at least 0 for negative n |
| Menu.WordLength | v3/hakpak3_core.py:744-745 | the length of the leading run of non-space characters |
| Menu.Words | v3/hakpak3_core.py:744-745 | `str.split()` gives non-empty words without white space |
| Menu.WordsOfWord | v3/hakpak3_core.py:744-745 | a single word splits into itself |
| Menu.WordsJoin | v3/hakpak3_core.py:744-745 | words joined with spaces split back into the same words |
| Menu.ChunkWords | v3/hakpak3_core.py:744-745 | every name read from the chunks is a word |
| Menu.SelectedNames | v3/hakpak3_core.py:744-745 | every name read from a selection is a word |
| Menu.ChunkWordsOfWords | v3/hakpak3_core.py:744-745 | chunks that are words are read as themselves |
| Menu.SelectionRoundTrip | v3/hakpak3_core.py:744-745 | names joined with commas are read back as the same names |
| Menu.NamesOf | v3/hakpak3_core.py:736-742 | the tools' names, in order |
| Menu.Choose | v3/hakpak3_core.py:716-745 | blank input exactly gives no selection; the keywords filter, search, all, best20, top5 in any case give their choices; anything else is read as a comma list of names |
| Menu.ValidateSelection | v3/hakpak3_core.py:748-756 | the loop splits the names into the known tools and the unknown names, in order |
| Menu.ValidationSplits | v3/hakpak3_core.py:748-756 | every name lands on one side; known tools are catalogue entries of listed names; a name is unknown exactly when it is listed and not in the catalogue |
| Menu.SelectingNamesPicksTools | v3/hakpak3_core.py:736-756 | selecting the names of catalogue tools picks those tools, with no unknown name |
| Menu.Offered | v3/hakpak3_core.py:642-651 | exactly the tools matching the parameters |
| Menu.NotInstalled | v3/hakpak3_core.py:654-662 | exactly the tools neither recorded nor on PATH |
| Menu.SearchMatches | v3/hakpak3_core.py:726-731 | exactly the offered tools whose lower-cased name or one of whose tags contains the query |
| Menu.Picked | v3/hakpak3_core.py:748-760 | the selection installs the known tools when there is one, and reports the unknown names either way |
| Menu.MenuResult | v3/hakpak3_core.py:631-760 | no match exactly when the filter leaves nothing; all installed exactly when everything offered is installed; no selection exactly for blank input; a search returns the matches; an install is the validated choice |
| Menu.MenuInstallTools | v3/hakpak3_core.py:631-760 | the method's outcome is `MenuResult` |
| Menu.InstallsCatalogueTools | v3/hakpak3_core.py:748-756 | each tool installed is the catalogue entry of a selected name |
| Menu.ChooseAll | v3/hakpak3_core.py:734-736 | "all" selects every ranked name |
| Menu.AllInstallsOffer | v3/hakpak3_core.py:736-760 | "all" installs exactly the ranked offer with no unknown name |
| HakPak2.V2Order | v2/hakpak2.py:56-67 | the candidate order is never empty |
| HakPak2.V2OrderMatchesV3 | v2/hakpak2.py:56-67 | the v2 order is the v3 order, except that kali tries all five managers |
| HakPak2.DetectedPmKnown | v2/hakpak2.py:53-75 | a detected manager has an installer |
| HakPak2.DetectPm | v2/hakpak2.py:53-75 | the first manager on PATH of the order; else apt when `/etc/debian_version` exists; else the exit |
| HakPak2.MethodsOfTool | v2/hakpak2.py:200-205 | "native" exactly when one of apt, dnf, pacman, zypper is a packages key, then "source" exactly when a source block exists |
| HakPak2.UnknownIffNoMethod | v2/hakpak2.py:206 | the line says "unknown" exactly when there is no method |
| HakPak2.CmdList | v2/hakpak2.py:198-206 | every tool once, sorted by name, each with its methods line |
| HakPak2.ListLines | v2/hakpak2.py:200-206 | one line per name, `name: methods=...` |
| HakPak2.LoadState | v2/hakpak2.py:178-182 | a missing file is an empty registry, a stored one is loaded, an unparsable one raises |
| HakPak2.Put | v2/hakpak2.py:277 | sets exactly `installed[name]` (creating the table), every other entry unchanged |
| HakPak2.FirstFailure | v2/hakpak2.py:25-31 | the first command that fails, all earlier succeeding |
| HakPak2.RunAll | v2/hakpak2.py:25-31 | a run of commands returns or raises, and issues a prefix of them |
| HakPak2.InstallNative | v2/hakpak2.py:219-232 | exits without a mapping, issuing nothing; otherwise returns a "native" meta exactly when it returns |
| HakPak2.InstallSource | v2/hakpak2.py:235-248 | "source-go" exactly for go, "source-python" exactly for python-git, the exit for any other kind |
| HakPak2.AutoMethod | v2/hakpak2.py:262-265 | "native" exactly when the manager is a packages key, else "source" exactly when a source block exists, else none |
| HakPak2.InstallWritesOnlyOnSuccess | v2/hakpak2.py:276-281 | a dry run or a failed install leaves the state file alone |
| HakPak2.InstallRecordsOnlyTheTool | v2/hakpak2.py:267-281 | a real install records the tool and changes no other entry |
| HakPak2.AutoInstallRecordsChoice | v2/hakpak2.py:261-281 | an automatic install records "native" exactly when the manager has a package, and a source method otherwise |
| HakPak2.InstallNeedsRoot | v2/hakpak2.py:251-252 | without root nothing runs and nothing is written |
| HakPak2.UninstallForgetsOnlyTheTool | v2/hakpak2.py:321-349 | the file changes exactly when the name was recorded, and then only that entry goes |
| HakPak2.UninstallIdempotent | v2/hakpak2.py:343-349 | a second uninstall leaves the file as the first one did |
| HakPak2.UninstallFailureWritesNothing | v2/hakpak2.py:321-349 | a failed uninstall writes nothing |
| HakPak2.StateDir.CmdInstall | v2/hakpak2.py:251-281 | the method's ending, commands and state file are `InstallRun`'s |
| HakPak2.StateDir.CmdUninstall | v2/hakpak2.py:321-349 | the method's ending, commands and state file are `UninstallRun`'s |
| HakPak2.Main | v2/hakpak2.py:431-444 | exit code 0 exactly on success, 130 exactly on an interrupt, 1 exactly on an exception; an exit request passes through with its message |
| GuiServer.RunProcess | gui/server.py:18-23 | a finished process gives its code and output; a launch error gives 1 and "error: " with the reason |
| GuiServer.OutputReply | gui/server.py:75-76 | status 200, ok exactly when the code is 0, with the output and the code |
| GuiServer.LaunchErrorIsNotOk | gui/server.py:18-23 | a launch error never reports ok |
| GuiServer.ApiDetect | gui/server.py:31-34 | runs `hakpak2 detect`; ok exactly when it exits 0 |
| GuiServer.BreakIndex | gui/server.py:41 | the first line break, none before it |
| GuiServer.SplitPrinted | gui/server.py:41 | printed lines split back into themselves |
| GuiServer.MethodsPart | gui/server.py:44-45 | the methods list is empty exactly when the text after the last "methods=" is blank |
| GuiServer.ParseToolLine | gui/server.py:42-45 | a line yields a tool exactly when it has a colon, named by the stripped text before the first colon |
| GuiServer.CollectFront | gui/server.py:40-45 | parsing lines is parsing the first, then the rest |
| GuiServer.ApiTools | gui/server.py:37-46 | runs `hakpak2 list` and replies with the parsed tools and the raw output; ok exactly when it exits 0 |
| GuiServer.ParseLines | gui/server.py:40-45 | the loop's tools are the parsed lines |
| GuiServer.ParseLine | gui/server.py:42-45 | the parsed tool of one line |
| GuiServer.MethodsTextShape | v2/hakpak2.py:206 | the printed methods are "unknown", "native", "source" or "native,source", the comma join of the shown methods |
| GuiServer.MethodsTextOneLine | v2/hakpak2.py:206 | the methods text holds no line break |
| GuiServer.MethodsTextStripped | v2/hakpak2.py:206 | the methods text is non-empty and has no surrounding space |
| GuiServer.SplitMethodsText | gui/server.py:45 | splitting the methods text on commas gives the shown methods |
| GuiServer.LastSegmentOfListLine | gui/server.py:44 | the text after the last "methods=" of a list line is its methods text |
| GuiServer.ParseAtColon | gui/server.py:42-45 | a line parses at its first colon |
| GuiServer.ParseLineOf | gui/server.py:42-45 | a list line parses into its stripped name and its methods |
| GuiServer.MethodsPartOfListLine | gui/server.py:44-45 | the methods read from a list line are the shown methods |
| GuiServer.ParseListLine | gui/server.py:42-45 | a `cmd_list` line of a plain name parses back into that name and its shown methods ("unknown" when none) |
| GuiServer.ListLineOneLine | v2/hakpak2.py:206 | a list line of a one-line name has no line break |
| GuiServer.ParseEach | gui/server.py:40-45 | the lines `cmd_list` prints parse into one entry per tool, in order |
| GuiServer.ListRoundTrip | gui/server.py:37-46 | the output of `cmd_list` read by `api_tools` gives every tool's name and shown methods, in order |
| GuiServer.FirstExisting | gui/server.py:51-52 | the first existing candidate path, all earlier ones missing |
| GuiServer.ReadState | gui/server.py:49-57 | the first existing file wins; an unparsable one gives the empty registry without trying the next; no file gives the empty registry |
| GuiServer.FirstExistingAt | gui/server.py:51-52 | the candidate found is the first existing one |
| GuiServer.ApiStatus | gui/server.py:60-62 | always ok, with the state `_read_state` gives |
| GuiServer.ApiInstall | gui/server.py:65-76 | no tool gives 400 "tool required"; otherwise it runs `hakpak2 install <tool> --method <method>`, method defaulting to auto, plus `--dry-run` exactly when asked |
| GuiServer.ApiUninstall | gui/server.py:79-86 | 400 exactly when no tool is given; otherwise it runs `hakpak2 uninstall <tool>` |
| GuiServer.ApiRepo | gui/server.py:89-96 | 400 exactly for an action other than add, remove or status; otherwise it runs `hakpak2 repo <action>` |
| GuiServer.RefusalLaunchesNothing | gui/server.py:83-84 | a refused request does not depend on the launcher |
| Strings.SortStrings | v2/hakpak2.py:200 | `sorted`: the same names, strictly ascending |
| Strings.SplitJoin | gui/server.py:45 | text split on a separator it lacks gives back the joined parts |

## Findings

| source | as written | input that shows it | evidently intended | confidence | as-written member | corrected member |
|---|---|---|---|---|---|---|
| v3/hakpak3_core.py:583-585 | the size answer is guarded by "digits once the points are removed" and then passed to `float` | "1.2.3" passes the guard, and `float("1.2.3")` raises `ValueError`, which leaves the menu | an answer that is not a number leaves the size limit unset, as it does for the other limits | not executed | Menu.SecondPointRaises | Menu.SizeAnswer |

`Menu.SizeAnswerAsWritten` is the code as it stands. `Menu.SizeAnswer` is the corrected reading. `Menu.Configure` uses the corrected one.

## Left out

- Process execution and PATH lookup are oracles: `which`, `available`, `runs`, `build` and `launch`. Command syntax is kept only as far as the command datatypes name each command. The v2 dry-run flag is a parameter: `InstallArgs.dryRun`, passed to `RunAll`.
- The oracles are deterministic. A probe or install that would time out or hang is not modelled.
- File I/O is replaced by values. The v3 state file is `StateStore.StateFile`, the v2 state file is `HakPak2.V2File`, and the GUI's candidate state files are a sequence of `V2File`. JSON and YAML parsing are not modelled: the documents are given as trees.
- In the GUI and v2 state documents, JSON values other than strings are not modelled. Neither is the Flask request decoding: a request is its decoded fields.
- Hardware probing (`/proc`, `statvfs`) and `get_system_info` are not modelled. `SystemInfo` is an input.
- The root check (`os.geteuid`) and the install timestamp (`date`) are parameters.
- The v2 repo add, remove and status commands are left out. They only write files and run apt.
- `print` output is left out: summaries, banners, `display_system_info`, `format_size`, `print_tool_list`, `menu_list_tools` and the top-20 display of the menu. `format_compatibility` is kept.
- Configuration values of the wrong shape are not modelled, for example a `packages` entry that is not a mapping, or a tag that is not text. The only exception is metrics, whose wrong shape raises.
- Dictionary iteration order: the catalogue is a `map` for lookups, plus a sequence of its tools where the menu needs order. `get_installed_tools` returns the keys in some order, each once.
- Source builds are the `build` oracle. Cloning, virtual environments, downloads, wrappers and links are not modelled; only the dispatch, the go toolchain install and the required fields are. The go toolchain goes through an installer of its own, so its commands are in no command log of the model. In v2, `go_install` and `python_project_install` are `Host.build`, which gives the ending of a tool's build; they add nothing to the executed commands.
- `uninstall_native` is `HakPak2.RemoveCommands` run through `runs`. `uninstall_source` is not modelled: it only unlinks files and catches its own errors, so it changes neither the ending nor the state file.
- A catalogue `Mapping` stands for a loaded dictionary, whose keys are distinct. A mapping with a repeated key is not one the loader produces, and on it `Catalog.Flatten` would add an entry for each repetition.
- The resolver's `resolved_cache` dictionary is a set of tokens, since only its keys are ever read.
- The v2 environment variables (`HAKPAK2_BIN`, the state directory) are fixed to their defaults.
- KeyboardInterrupt is modelled only as the `Interrupted` ending that `HakPak2.Main` maps to 130.
- `str.isdigit`, `str.lower` and `str.split()` are modelled for ASCII only. Unicode digits such as '²' pass `isdigit`, and then `int()` raises; this is not modelled.
- The menu's recursive call after "filter" (reconfigure, then run the menu again) is the `Reconfigured` outcome. The new run is a fresh call of `MenuResult`.
- Floating point is exact `real`. Sizes are in MB and GB, and the size answer is a decimal with at most one point; exponents, `inf` and `nan` are not modelled.
- Menu.Configure: the size limit follows the corrected `Menu.SizeAnswer` rather than raising on "1.2.3" (see Findings).

Where the program and its description disagree, the model follows the code:

- A method-skip item still keeps its package and its resolved dependencies, and those dependencies reach the plan's dependency list.
- The scorer's resource points use strict `>`, but `check_resources` uses `>=`. `Resolver.ChecksAgreeWithScore` shows the two never contradict each other.
- There is no timeout on the availability probe.
