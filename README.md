# MissionBar resource monitor — a verified model

MissionBar is a macOS menu-bar utility. Every two seconds it lists the
user-visible running applications with their CPU and memory use, and the
application bundles installed in `/Applications`, `/System/Applications` and
`~/Applications` with their size on disk. The user can terminate or
force-kill a process, and can move an application outside the system
folders to the trash. This project models the engine behind it, the
`SystemMonitor` object, together with the two computed lists the tabs show
(`filteredApplications` and `filteredProcesses`) and the record types they
work on.

Layout, following the program's own structure:

- `wrappers.dfy` — `Option`, with the `??` chain as `OrElse`/`GetOr`.
- `models.dfy` — `RunningProcess`, `InstalledApplication`, `AppTab`, and
  `UuidSource`, the fresh-identifier supply that stands in for `UUID()`.
- `sorting.dfy` — Swift's `filter`, `sorted(by:)` and `String <` as
  functions. Sorting is specified as "sorted by the comparator and a
  permutation of the input", whenever the comparator is a strict order.
- `cpu_usage.dfy` — `getCPUUsage` as a function on the per-pid table of
  CPU baselines, the `hw.ncpu` default, clamping, and the purge of departed
  pids.
- `memory_usage.dfy` — the resident + virtual memory estimate of
  `getMemoryUsage` and its fallback chain.
- `directory_size.dfy` — `getDirectorySize`. It is written as a loop over
  the pre-order walk of the bundle's file tree, and proved equal to a
  structural sum over the tree.
- `listing.dfy` — the specifications of the two fetch passes: the sampling
  loop over running applications, and the scan over the three application
  directories, sorted by name.
- `monitor.dfy` — `class SystemMonitor`, which holds:
  - the published state, `runningProcesses`, `installedApplications` and
    `isLoading`;
  - the CPU table `previousCPUInfo`;
  - the methods `getCPUUsage`, `fetchRunningProcesses`,
    `createInstalledApplication`, `fetchInstalledApplications`,
    `refreshData`, `killProcess`, `forceKillProcess` and
    `uninstallApplication`.

  Each method is proved against the functions of the files above. Its
  object invariant `Valid` keeps five facts:
  - the CPU count is at least 1;
  - the CPU table only knows published pids;
  - no identifier is published twice;
  - every published identifier has already been handed out;
  - both published lists are sorted by name.
- `applications_view.dfy`, `processes_view.dfy` — the search, the toggle
  and the sort options of the two tabs.

Inputs from the operating system are parameters:
- the list of running applications, with their task-info readings and
  clock readings;
- the `hw.ncpu` answer;
- the monitor's own bundle identifier (`Bundle.main.bundleIdentifier`), which decides which process is not killable;
- the user's home directory (`homeDirectoryForCurrentUser`), under which the third application directory lies;
- the bundle listings of the three directories and the file tree under each
  bundle;
- whether `/bin/kill` could be launched;
- whether the move to the trash succeeded.

Where a plain reading of the code gives different behaviour from what one
might expect, the model follows the code:

- **The running flag lags by one refresh.**
  - `fetchInstalledApplications` takes the running bundle ids from
    `runningProcesses` as published before the current refresh
    (MissionBar/SystemMonitor.swift:107).
  - The new process list is only published at the end of the refresh.
  - So `isRunning` describes the previous refresh, and
    `SystemMonitor.RefreshData` states that.
- **Uninstall checks only the cached flag.** `uninstallApplication` checks
  only the `canUninstall` flag stored in the entry. It does not check the
  path again.
- **The CPU baseline is always overwritten.** A later sample replaces the
  stored baseline before the `deltaTime > 0` guard. A sample with a
  non-positive interval therefore still moves the baseline.

## Model

| member | source | states |
|---|---|---|
| Wrappers.Option.OrElse | MissionBar/SystemMonitor.swift:144-146 | `a ?? b` is `a` when present and `b` otherwise |
| Wrappers.Option.GetOr | MissionBar/SystemMonitor.swift:256 | `fileSize ?? 0` is the value when present and the default otherwise |
| Models.AppTab.RawValue | MissionBar/Models.swift:46-48 | defines the raw values: "Running" for the running tab and "Applications" for the all tab |
| Models.AppTab.Icon | MissionBar/Models.swift:50-57 | defines the symbol names: "play.circle" for the running tab and "square.grid.2x2" for the all tab |
| Models.AppTabValuesDistinct | MissionBar/Models.swift:46-57 | different tabs differ in raw value and in icon |
| Models.AppTabAllCases | MissionBar/Models.swift:46-48 | `allCases` is exactly running then all |
| Models.AppTabAllCasesComplete | MissionBar/Models.swift:46-48 | every tab appears in `allCases` |
| Models.AppTabFromRawValue | MissionBar/Models.swift:46-48 | the raw-value initialiser returns the tab with that raw value, and fails exactly when no tab has it |
| Models.AppTabRawValueRoundTrip | MissionBar/Models.swift:46-48 | initialising from a tab's raw value gives back that tab |
| Models.UuidSource.Fresh | MissionBar/Models.swift:11-12 | each id handed out is new: it is the counter's old value, and the counter moves past it |
| Sorting.Filter | MissionBar/AllApplicationsView.swift:21-29 | `filter` keeps every element that passes with its full multiplicity, and drops every element that fails; `FilterConcat` states that the survivors keep their order |
| Sorting.FilterKeepsAll | MissionBar/AllApplicationsView.swift:21-29 | a filter that every element passes returns the sequence unchanged |
| Sorting.FilterDropsAll | MissionBar/AllApplicationsView.swift:21-29 | a filter that no element passes returns the empty sequence |
| Sorting.FilterConcat | MissionBar/AllApplicationsView.swift:21-29 | filtering distributes over concatenation, so the kept elements stay in their original relative order |
| Sorting.FilterCutsOne | MissionBar/SystemMonitor.swift:301 | when one element fails and every element before and after it passes, filtering cuts out exactly that element |
| Sorting.FilterSorted | MissionBar/SystemMonitor.swift:301 | filtering a list sorted by a comparator leaves it sorted by that comparator |
| Sorting.Sort | MissionBar/AllApplicationsView.swift:32-44 | `sorted(by:)` returns a permutation of its input |
| Sorting.SortSorted | MissionBar/AllApplicationsView.swift:32-44 | for a strict-order comparator, no later element of the result comes before an earlier one |
| Sorting.StringLess | MissionBar/SystemMonitor.swift:101 | defines `<` on strings: character-by-character comparison, where a proper prefix comes first |
| Sorting.StringLessStrictOrder | MissionBar/SystemMonitor.swift:101 | string `<` is irreflexive and transitive, so it is a valid sort comparator |
| Sorting.StringLessTotal | MissionBar/SystemMonitor.swift:101 | any two different strings are ordered one way or the other by `<` |
| CpuUsage.CpuCount | MissionBar/SystemMonitor.swift:21-26 | the CPU count is the `hw.ncpu` answer when the query succeeds and 1 when it fails; it is never below 1 |
| CpuUsage.Clamp | MissionBar/SystemMonitor.swift:201 | the result lies in [0, 100], a value in range is kept, and values outside are cut to the nearer bound |
| CpuUsage.RawPercent | MissionBar/SystemMonitor.swift:199 | defines the unclamped percentage: CPU nanoseconds divided by 10^9, then by the interval, times 100, divided by the CPU count |
| CpuUsage.RawPercentNonNegative | MissionBar/SystemMonitor.swift:199 | the unclamped percentage is never negative, and is 0 when no CPU time was used |
| CpuUsage.SampleCpu | MissionBar/SystemMonitor.swift:168-202 | the percentage lies in [0, 100]; a failed query returns 0 and leaves the table alone; otherwise the baseline for the pid becomes (current time, now); a first sighting returns 0; no CPU progress or a non-positive interval returns 0; otherwise the result is the clamped share of the interval per CPU |
| CpuUsage.IdleProcessReportsZero | MissionBar/SystemMonitor.swift:189-195 | a reading equal to the stored cumulative time reports 0 |
| CpuUsage.Purge | MissionBar/SystemMonitor.swift:97-99 | the purged table keeps exactly the pids that are both in the table and in the current pass (`table.Keys * live`), each with its baseline unchanged |
| CpuUsage.PurgedPidStartsOver | MissionBar/SystemMonitor.swift:183-186 | once purged, a pid's next sample is a first sighting: it reports 0 and stores a fresh baseline |
| MemoryUsage.MemoryEstimate | MissionBar/SystemMonitor.swift:217-230 | with virtual > resident the estimate lies between resident and resident + resident/4, adds at most an eighth of the non-resident part, and is one of the two caps; otherwise it equals resident |
| MemoryUsage.GetMemoryUsage | MissionBar/SystemMonitor.swift:204-242 | use the estimate from the all-info query, else the basic resident size, else 0 |
| MemoryUsage.MemoryNeverBelowResident | MissionBar/SystemMonitor.swift:209-239 | the reported memory is never below the resident size of the query that answered |
| DirectorySizeEstimator.Enumerate | MissionBar/SystemMonitor.swift:245-252 | defines the order of the deep enumerator: each entry, then everything beneath it, then its later siblings |
| DirectorySizeEstimator.Contribution | MissionBar/SystemMonitor.swift:253-260 | defines what one entry adds: `fileSize ?? 0` for a readable non-directory, and 0 for a directory or an unreadable entry |
| DirectorySizeEstimator.TreeSize | MissionBar/SystemMonitor.swift:244-264 | defines the structural sum of the contributions over the tree, which the loop is proved against |
| DirectorySizeEstimator.DirectorySize | MissionBar/SystemMonitor.swift:245-248 | defines the result as 0 for a missing enumerator and the tree size otherwise |
| DirectorySizeEstimator.Accumulated | MissionBar/SystemMonitor.swift:250-261 | defines the running `totalSize` after the loop has visited a prefix of the enumeration: the sum of the contributions so far |
| DirectorySizeEstimator.GetDirectorySize | MissionBar/SystemMonitor.swift:244-264 | the accumulator loop returns the structural size of the file tree, and 0 when there is no enumerator |
| DirectorySizeEstimator.AccumulatedEnumerate | MissionBar/SystemMonitor.swift:252-261 | summing `fileSize ?? 0` over the non-directory, readable entries of the recursive walk equals the sum over the tree |
| DirectorySizeEstimator.EmptyDirectoryIsZero | MissionBar/SystemMonitor.swift:245-248 | an empty bundle and a missing enumerator both weigh 0 |
| DirectorySizeEstimator.NestedDirectoryExample | MissionBar/SystemMonitor.swift:252-261 | on one nested tree, files of 10, 20 and 30 bytes beside a subdirectory holding a 5-byte file, the size is 65: the nested file counts and the directory itself does not |
| DirectorySizeEstimator.UnreadableSubtreeIsZero | MissionBar/SystemMonitor.swift:253-260 | a subtree none of whose enumerated entries is readable weighs 0 |
| Listing.IsListed | MissionBar/SystemMonitor.swift:78-79 | defines the loop guard: the application has a localized name and its activation policy is not prohibited |
| Listing.ProcessFor | MissionBar/SystemMonitor.swift:84-92 | defines the entry built for a listed application: its pid, name and bundle id, the CPU percentage, the memory estimate, and killable iff its bundle id differs from the monitor's own |
| Listing.CpuTime | MissionBar/SystemMonitor.swift:172-176 | a reading is present exactly when the query succeeded, and is user plus system time |
| Listing.Pids | MissionBar/SystemMonitor.swift:98 | defines `currentPIDs`: the set of pids of the listed processes |
| Listing.SamplePass | MissionBar/SystemMonitor.swift:77-95 | the pass hands out consecutive fresh ids in order, every CPU percentage lies in [0, 100], and the CPU table only gains the pids it sampled |
| Listing.SamplePassSnoc | MissionBar/SystemMonitor.swift:77-95 | one more application extends the pass by nothing when it is not listed, and otherwise by its sampled entry with the next id and the table that sample leaves |
| Listing.SamplePassAnnotates | MissionBar/SystemMonitor.swift:77-95 | the pass builds one entry per listed application (named, activation policy not prohibited), in order; each entry carries that application's pid, name, bundle id and memory estimate, and is killable iff its bundle id differs from the monitor's own |
| Listing.FirstSightingReportsZero | MissionBar/SystemMonitor.swift:182-186 | a pid the table does not know reports 0 at its first appearance in the pass |
| Listing.ReusedPidStartsOver | MissionBar/SystemMonitor.swift:97-99 | a pid absent from one pass reports 0 when it reappears in the next one |
| Listing.ProcessNameLess | MissionBar/SystemMonitor.swift:101 | defines the comparator `$0.name < $1.name` on processes; the processes tab uses it for its name option |
| Listing.SortProcessesByName | MissionBar/SystemMonitor.swift:101 | the processes are returned in ascending name order, as a permutation |
| Listing.ProcessListingProperties | MissionBar/SystemMonitor.swift:77-101 | the returned list has one entry per listed application; each entry comes from a named, non-prohibited application with its pid and name; killable iff the bundle id is not the monitor's own; CPU in [0, 100] |
| Listing.LastPathComponent | MissionBar/SystemMonitor.swift:128 | defines the last component of a path: the characters after its last '/' |
| Listing.NameExtension | MissionBar/SystemMonitor.swift:128 | defines `pathExtension` on a name: what follows its last '.', or nothing when the name ends in '.' or has no '.' after its first character |
| Listing.LastPathComponentIsSuffix | MissionBar/SystemMonitor.swift:128 | the last path component is the suffix after the last '/' |
| Listing.LastPathComponentOfChild | MissionBar/SystemMonitor.swift:128 | the last component of `dir + "/" + name` is `name` whenever `name` has no '/' |
| Listing.NameExtensionIsSuffix | MissionBar/SystemMonitor.swift:128 | a path extension has no '.', follows a '.' of the name, and leaves a non-empty base name; a name with no extension ends in '.' or has no '.' after its first character |
| Listing.NameExtensionOf | MissionBar/SystemMonitor.swift:128 | the extension of `base + "." + ext` is `ext`, for a non-empty base and a non-empty `ext` without '.' |
| Listing.IsAppBundlePath | MissionBar/SystemMonitor.swift:128 | defines the test `url.pathExtension == "app"` on the last path component |
| Listing.AppBundlePathEndsInApp | MissionBar/SystemMonitor.swift:128 | an entry passes the `.app` test only if its path ends in ".app" after a non-empty base name |
| Listing.AppExtensionIff | MissionBar/SystemMonitor.swift:128 | a file name has the extension "app" iff it is a non-empty base followed by ".app" |
| Listing.AppBundlePathIff | MissionBar/SystemMonitor.swift:128 | a path passes the `.app` test iff its last component is a non-empty base followed by ".app" |
| Listing.AppPathIsAppBundle | MissionBar/SystemMonitor.swift:128 | every `dir/base.app` whose base is non-empty and has no '/' passes the `.app` test |
| Listing.StartsWith | MissionBar/SystemMonitor.swift:154 | defines `hasPrefix`: the prefix is no longer than the string and equals its first characters |
| Listing.CanUninstall | MissionBar/SystemMonitor.swift:154 | defines the policy: the path starts with neither "/System/" nor "/usr/" |
| Listing.BundleDisplayName | MissionBar/SystemMonitor.swift:144-146 | the name is the localized display name, else the display name, else the bundle name |
| Listing.Resolves | MissionBar/SystemMonitor.swift:142-148 | defines the guard: the bundle opens, has an identifier, and has a name from the fallback chain |
| Listing.MakeApplication | MissionBar/SystemMonitor.swift:141-166 | an entry yields an application exactly when its bundle has an identifier and a name; the application carries that path, id, name, version and directory size; running iff its bundle id is running; uninstallable iff the path starts with neither "/System/" nor "/usr/" |
| Listing.ScanStep | MissionBar/SystemMonitor.swift:128-132 | defines one iteration of the scan: an `.app` entry whose bundle resolves adds its application with the next id; any other entry changes nothing |
| Listing.ScanEntries | MissionBar/SystemMonitor.swift:127-133 | the scan hands out consecutive fresh ids in the order it finds the bundles |
| Listing.ScanEntriesSound | MissionBar/SystemMonitor.swift:127-133 | every scanned application was built from an `.app` entry of the listing |
| Listing.ScanEntriesComplete | MissionBar/SystemMonitor.swift:127-133 | every `.app` entry whose bundle resolves is listed, as the application `MakeApplication` builds from it |
| Listing.ApplicationDirectories | MissionBar/SystemMonitor.swift:114-118 | defines the three directories in search order: /Applications, /System/Applications, then Applications under the home directory |
| Listing.DirectoryListing | MissionBar/SystemMonitor.swift:121-125 | defines the entries of one directory, and none when no enumerator can be made for it |
| Listing.Candidates | MissionBar/SystemMonitor.swift:120-127 | defines the visited entries: the listings of the directories, one directory after the other |
| Listing.CandidatesCoverListings | MissionBar/SystemMonitor.swift:120-127 | every entry of every searched directory is visited |
| Listing.CandidateFromDirectory | MissionBar/SystemMonitor.swift:120-125 | every visited entry belongs to the listing of one of the searched directories |
| Listing.RunningBundleIds | MissionBar/SystemMonitor.swift:107 | a bundle id counts as running iff some published process carries it |
| Listing.AppNameLess | MissionBar/SystemMonitor.swift:136 | defines the comparator `$0.name < $1.name` on applications; the applications tab uses it for its name option |
| Listing.SortApplicationsByName | MissionBar/SystemMonitor.swift:136 | the applications are returned in ascending name order, as a permutation |
| Listing.InstalledApplications | MissionBar/SystemMonitor.swift:106-139 | defines the value the fetch returns: the scan of all candidates, sorted by name |
| Listing.InstalledApplicationsProperties | MissionBar/SystemMonitor.swift:106-139 | every listed application was found as an `.app` entry of one of the three directories; running iff its bundle id is running; uninstallable iff its path is outside /System/ and /usr/ |
| Listing.InstalledApplicationsComplete | MissionBar/SystemMonitor.swift:106-139 | conversely, every `.app` entry of the three directories whose bundle resolves is in the result, as the application `MakeApplication` builds from it |
| Monitor.Signal.Flag | MissionBar/SystemMonitor.swift:271-285 | defines the flags: "-TERM" to terminate and "-KILL" to force-kill |
| Monitor.OtherId | MissionBar/SystemMonitor.swift:301 | defines what `removeAll { $0.id == id }` keeps: the entries whose id differs |
| Monitor.RemoveById | MissionBar/SystemMonitor.swift:301 | `removeAll { $0.id == id }` drops exactly the entries with that id; it keeps every other entry with its multiplicity, and changes nothing when no entry has the id |
| Monitor.RemoveByIdKeepsOrder | MissionBar/SystemMonitor.swift:301 | `removeAll` leaves a list sorted by a comparator sorted by it |
| Monitor.RemoveByIdKeepsUniqueIds | MissionBar/SystemMonitor.swift:301 | removal never makes two entries share an id |
| Monitor.RemovalKeepsInvariant | MissionBar/SystemMonitor.swift:301 | removal keeps what the invariant asks of the application list: unique ids, sorted by name, every id already handed out |
| Monitor.RemoveByIdRemovesOne | MissionBar/SystemMonitor.swift:301 | with unique ids, removing a listed application cuts out its one position `k`: the result is the entries before `k` followed by the entries after it, so it is one shorter and the others keep their order |
| Monitor.ConsecutiveIdsUnique | MissionBar/Models.swift:11-12 | entries built with consecutive fresh ids never share an id and never repeat |
| Monitor.ConsecutiveAppIdsUnique | MissionBar/Models.swift:30-31 | the same for applications |
| Monitor.Published | MissionBar/SystemMonitor.swift:14-26 | defines the monitor invariant over plain values: the CPU count is at least 1; the CPU table knows only published pids; every published id was already handed out; no id is published twice; both lists are sorted by name |
| Monitor.RefreshPublishes | MissionBar/SystemMonitor.swift:54-67 | the state one refresh publishes satisfies `Published`, and each published application is running iff its bundle id is in the given running set and uninstallable iff its path allows it |
| Monitor.PurgeKnowsPublished | MissionBar/SystemMonitor.swift:97-101 | after the purge, the CPU table knows only pids of the published list, in whatever order it is published |
| Monitor.PublishedIdsValid | MissionBar/SystemMonitor.swift:62-66 | the lists one refresh publishes have unique ids, all already handed out |
| Monitor.SystemMonitor.Valid | MissionBar/SystemMonitor.swift:14-26 | defines the object invariant as `Published` of the current fields |
| Monitor.SystemMonitor.constructor | MissionBar/SystemMonitor.swift:14-26 | a new monitor has empty lists, is not loading, has an empty CPU table and the `hw.ncpu` count, and satisfies its invariant |
| Monitor.SystemMonitor.GetCPUUsage | MissionBar/SystemMonitor.swift:168-202 | the imperative sample returns the percentage and leaves the table that `SampleCpu` specifies |
| Monitor.SystemMonitor.FetchRunningProcesses | MissionBar/SystemMonitor.swift:69-104 | the loop accumulates the sampling pass, purges the CPU table down to the pids of the pass, and returns the pass sorted by name |
| Monitor.SystemMonitor.SampleApplication | MissionBar/SystemMonitor.swift:78-94 | one step of the sampling loop leaves the table, the gathered entries and the id supply of the pass extended by this application |
| Monitor.SystemMonitor.CreateInstalledApplication | MissionBar/SystemMonitor.swift:141-166 | the method builds the application `MakeApplication` specifies, using one fresh id if and only if it succeeds |
| Monitor.SystemMonitor.FetchInstalledApplications | MissionBar/SystemMonitor.swift:106-139 | the nested loops over the three directories return the scan of all their entries, with the published processes' bundle ids, sorted by name |
| Monitor.SystemMonitor.ScanListing | MissionBar/SystemMonitor.swift:127-133 | the inner loop over one directory extends the scan of the entries seen so far by that listing, and moves the id supply to match |
| Monitor.SystemMonitor.VisitEntry | MissionBar/SystemMonitor.swift:128-132 | one step of that loop leaves the scan of the seen entries followed by this one |
| Monitor.SystemMonitor.KillProcess | MissionBar/SystemMonitor.swift:266-278 | nothing is sent iff the process is not killable; otherwise `/bin/kill -TERM <pid>` is launched or its launch fails |
| Monitor.SystemMonitor.ForceKillProcess | MissionBar/SystemMonitor.swift:280-292 | nothing is sent iff the process is not killable; otherwise `/bin/kill -KILL <pid>` is launched or its launch fails |
| Monitor.SystemMonitor.SendSignal | MissionBar/SystemMonitor.swift:266-292 | the shared body of both kill methods: rejected iff the process is not killable; otherwise `/bin/kill` with the signal's flag and the pid is launched, or its launch fails |
| Monitor.SystemMonitor.UninstallApplication | MissionBar/SystemMonitor.swift:294-307 | an application that cannot be uninstalled, or a failed trash, leaves the list unchanged; a successful trash removes exactly the entries with the app's id, and a listed app is cut out of its own position with the others kept in order; the list stays sorted by name with unique ids |
| Monitor.SystemMonitor.RefreshData | MissionBar/SystemMonitor.swift:54-67 | one refresh publishes the sorted sampling pass and the scanned applications and clears `isLoading`; the CPU table is purged to the published pids; `isRunning` reflects the processes published before this refresh; the id supply ends past every id the pass and the scan handed out; the invariant is kept |
| ApplicationsView.AppSortOption.RawValue | MissionBar/AllApplicationsView.swift:260-263 | defines the raw values "name", "size" and "status" |
| ApplicationsView.AppSortOption.DisplayName | MissionBar/AllApplicationsView.swift:265-273 | defines the menu labels "Name", "Size" and "Status" |
| ApplicationsView.AppSortOptionAllCases | MissionBar/AllApplicationsView.swift:260-263 | `allCases` is name, size, status in that order |
| ApplicationsView.AppSortOptionAllCasesComplete | MissionBar/AllApplicationsView.swift:260-263 | every option appears in `allCases` |
| ApplicationsView.AppSortOptionFromRawValue | MissionBar/AllApplicationsView.swift:260-263 | the raw-value initialiser returns the option with that raw value, and fails exactly when none has it |
| ApplicationsView.AppSortOptionRawValueRoundTrip | MissionBar/AllApplicationsView.swift:260-263 | initialising from an option's raw value gives back that option |
| ApplicationsView.AppSortOptionDisplayNamesDistinct | MissionBar/AllApplicationsView.swift:265-273 | different options have different labels |
| ApplicationsView.AppSizeGreater | MissionBar/AllApplicationsView.swift:36-37 | defines the `.size` comparator: the larger storage size comes first |
| ApplicationsView.AppStatusBefore | MissionBar/AllApplicationsView.swift:38-42 | defines the `.status` comparator: running before not running, and by name otherwise |
| ApplicationsView.AppComparator | MissionBar/AllApplicationsView.swift:32-44 | defines the comparator `switch sortBy` picks: by name, by size or by status |
| ApplicationsView.AppComparatorStrictOrder | MissionBar/AllApplicationsView.swift:32-44 | the name, size and status comparators are strict orders |
| ApplicationsView.Selected | MissionBar/AllApplicationsView.swift:20-29 | defines which applications pass: the name matches a non-empty search text, and the app can be uninstalled when the toggle is on |
| ApplicationsView.FilteredApplications | MissionBar/AllApplicationsView.swift:16-45 | the result is a permutation of the applications that pass the search and the toggle. By name: ascending. By size: descending. By status: running before not running, and ascending names within each group |
| ApplicationsView.NoFilterShowsAll | MissionBar/AllApplicationsView.swift:20-29 | with no search text and the toggle off, every application is shown |
| ApplicationsView.SearchSelectsMatches | MissionBar/AllApplicationsView.swift:20-24 | with search text, every shown name matches, and every matching application that passes the toggle is shown |
| ApplicationsView.UserAppsToggle | MissionBar/AllApplicationsView.swift:27-29 | with the toggle on, every shown application can be uninstalled; with it off, no matching application is hidden for being a system app |
| ProcessesView.ProcessSortOption.RawValue | MissionBar/RunningProcessesView.swift:204-207 | defines the raw values "name", "cpu" and "memory" |
| ProcessesView.ProcessSortOption.DisplayName | MissionBar/RunningProcessesView.swift:209-218 | defines the menu labels "Name", "CPU" and "Memory" |
| ProcessesView.ProcessSortOptionAllCases | MissionBar/RunningProcessesView.swift:204-207 | `allCases` is name, cpu, memory in that order |
| ProcessesView.ProcessSortOptionAllCasesComplete | MissionBar/RunningProcessesView.swift:204-207 | every option appears in `allCases` |
| ProcessesView.ProcessSortOptionFromRawValue | MissionBar/RunningProcessesView.swift:204-207 | the raw-value initialiser returns the option with that raw value, and fails exactly when none has it |
| ProcessesView.ProcessSortOptionRawValueRoundTrip | MissionBar/RunningProcessesView.swift:204-207 | initialising from an option's raw value gives back that option |
| ProcessesView.ProcessSortOptionDisplayNamesDistinct | MissionBar/RunningProcessesView.swift:209-218 | different options have different labels |
| ProcessesView.ProcessCpuGreater | MissionBar/RunningProcessesView.swift:26-27 | defines the `.cpu` comparator: the higher CPU percentage comes first |
| ProcessesView.ProcessMemoryGreater | MissionBar/RunningProcessesView.swift:28-29 | defines the `.memory` comparator: the larger memory use comes first |
| ProcessesView.ProcessComparator | MissionBar/RunningProcessesView.swift:22-31 | defines the comparator `switch sortBy` picks: by name, by CPU or by memory |
| ProcessesView.ProcessComparatorStrictOrder | MissionBar/RunningProcessesView.swift:22-30 | the name, CPU and memory comparators are strict orders |
| ProcessesView.SearchSelects | MissionBar/RunningProcessesView.swift:16-20 | defines which processes pass: every process when the search text is empty, otherwise those whose name matches it |
| ProcessesView.FilteredProcesses | MissionBar/RunningProcessesView.swift:15-32 | the result is a permutation of the processes the search lets through. By name: ascending. By CPU: descending. By memory: descending |
| ProcessesView.EmptySearchShowsAll | MissionBar/RunningProcessesView.swift:16-17 | with no search text, exactly all published processes are shown |
| ProcessesView.SearchShowsExactlyMatches | MissionBar/RunningProcessesView.swift:18-20 | with search text, a process is shown iff it is published and its name matches |

## Left out

- Timers, tasks, `async let`, dispatch queues and main-actor hops: left out because one refresh is modelled as a sequential method. The two fetches run one after the other, and publishing happens in one step. The repeating two-second schedule, `startMonitoring`/`stopMonitoring` and `deinit` are not modelled.
- Operating-system calls are inputs to the model, not modelled calls. They are `NSWorkspace.runningApplications`, `proc_pidinfo`, `sysctlbyname`, the `FileManager` enumerators, `Bundle`, the launch of `/bin/kill` and `trashItem`.
  - Each query result is an `Option`, with `None` standing for failure.
  - A launch or a trash is a success flag.
  - An error is only printed, so the model records it in the returned outcome.
- `Date()` is a supplied `real` timestamp, and the `Double` arithmetic of the CPU percentage uses Dafny's exact `real`. IEEE rounding, NaN and infinities are out of scope.
- CpuUsage.CpuCount: a successful `hw.ncpu` query is taken to answer at least 1 (the `Positive` type). For an answer of 0 the source divides a `Double` by zero, getting infinity or NaN, and `max(0.0, min(100.0, ·))` turns either into 100.0, so the source does not trap. The model, whose arithmetic is exact, does not produce that 100.0.
- DirectorySizeEstimator.GetDirectorySize: the force-unwrap of `isDirectory` traps when the attribute is missing. The model assumes the attribute is present on every readable entry.
- UInt64 overflow traps in the CPU, memory and size arithmetic are not modelled. All counts are unbounded naturals.
- `localizedCaseInsensitiveContains` is the function parameter `matches`, because locale-aware case folding has no Dafny counterpart.
- `String <` and `hasPrefix` (Listing.StartsWith) compare code point by code point, because Unicode canonical equivalence is not modelled.
- `UUID()` is a counter (`UuidSource`). Only the freshness of identifiers matters, and a counter guarantees it.
- Sorting: `sorted(by:)` is modelled as a stable insertion sort, but only sortedness and permutation are claimed. Swift does not promise which order equal elements end up in.
- Hidden-file skipping and the `skipsSubdirectoryDescendants` option of the application-directory enumerator are left to the operating system. The model receives the top-level listing it produces.
- Monitor.SystemMonitor.KillProcess and ForceKillProcess: the argument `String(process.pid)` is carried as the pid itself, because the model does not render decimal strings.
- The icons (`NSImage`), `formattedMemory`, `formattedCPU` and `formattedSize` are left out: they are display formatting and are not part of the engine.
- The SwiftUI `body` of every view is left out, because it only lays out what the modelled lists contain.
