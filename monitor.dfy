/**
 * The `SystemMonitor` object of MissionBar/SystemMonitor.swift: the
 * published snapshot, the CPU table it keeps between refreshes, one refresh
 * as a sequential method and the three lifecycle actions. The timer, the
 * tasks and the queues are not modelled; what the operating system reports
 * comes in as parameters.
 */
module Monitor {
  import opened Wrappers
  import opened Models
  import opened Sorting
  import opened CpuUsage
  import opened MemoryUsage
  import opened DirectorySizeEstimator
  import opened Listing

  datatype Signal = Terminate | ForceKill {
    function Flag(): string
    {
      match this
      case Terminate => "-TERM"
      case ForceKill => "-KILL"
    }
  }

  /** The `/bin/kill` invocation an action launches: its argument list, the signal flag then the pid. */
  datatype KillCommand = KillCommand(launchPath: string, flag: string, pid: Int32)

  datatype KillOutcome = KillRejected | Launched(command: KillCommand) | LaunchFailed(command: KillCommand)

  datatype UninstallOutcome = UninstallRejected | Trashed | TrashFailed

  /** No element occurs twice, and no two different elements share an id. */
  ghost predicate UniqueApplicationIds(apps: seq<InstalledApplication>)
  {
    && (forall a :: multiset(apps)[a] <= 1)
    && (forall a, b :: a in apps && b in apps && a.id == b.id ==> a == b)
  }

  ghost predicate UniqueProcessIds(processes: seq<RunningProcess>)
  {
    && (forall p :: multiset(processes)[p] <= 1)
    && (forall p, q :: p in processes && q in processes && p.id == q.id ==> p == q)
  }

  /** The condition `removeAll` keeps an entry under: its id differs from `id`. */
  function OtherId(id: Uuid): InstalledApplication -> bool
  {
    (a: InstalledApplication) => a.id != id
  }

  /** `installedApplications.removeAll { $0.id == id }`: the other entries, in their original order. */
  function RemoveById(apps: seq<InstalledApplication>, id: Uuid): (r: seq<InstalledApplication>)
    ensures forall a :: multiset(r)[a] == if a.id == id then 0 else multiset(apps)[a]
    ensures (forall a :: a in apps ==> a.id != id) ==> r == apps
  {
    if forall a :: a in apps ==> a.id != id then
      FilterKeepsAll(apps, OtherId(id));
      Filter(apps, OtherId(id))
    else Filter(apps, OtherId(id))
  }

  /** Removal keeps the remaining entries in their order, so a sorted list stays sorted. */
  lemma RemoveByIdKeepsOrder(apps: seq<InstalledApplication>, id: Uuid, less: (InstalledApplication, InstalledApplication) -> bool)
    requires SortedBy(apps, less)
    ensures SortedBy(RemoveById(apps, id), less)
  {
    FilterSorted(apps, OtherId(id), less);
  }

  /** An element found at two positions occurs at least twice. */
  lemma TwoOccurrences<T>(s: seq<T>, i: nat, j: nat)
    requires i < j < |s| && s[i] == s[j]
    ensures multiset(s)[s[i]] >= 2
  {
    assert s == s[..j] + s[j..];
    assert s[i] in s[..j] && s[j..][0] == s[j];
  }

  /** With unique ids, no entry other than the one at `k` has its id. */
  lemma OthersHaveOtherIds(apps: seq<InstalledApplication>, k: nat)
    requires UniqueApplicationIds(apps) && k < |apps|
    ensures forall a :: a in apps[..k] ==> OtherId(apps[k].id)(a)
    ensures forall a :: a in apps[k + 1..] ==> OtherId(apps[k].id)(a)
  {
    forall a | a in apps[..k] ensures a.id != apps[k].id {
      var i :| 0 <= i < k && apps[..k][i] == a;
      if a.id == apps[k].id {
        TwoOccurrences(apps, i, k);
      }
    }
    forall a | a in apps[k + 1..] ensures a.id != apps[k].id {
      var i :| 0 <= i < |apps| - k - 1 && apps[k + 1..][i] == a;
      if a.id == apps[k].id {
        TwoOccurrences(apps, k, k + 1 + i);
      }
    }
  }

  /**
   * With unique ids, removing by the id of a listed application cuts out
   * exactly that one entry and leaves the others in place.
   */
  lemma RemoveByIdRemovesOne(apps: seq<InstalledApplication>, app: InstalledApplication)
    requires UniqueApplicationIds(apps) && app in apps
    ensures exists k :: 0 <= k < |apps| && apps[k] == app && RemoveById(apps, app.id) == apps[..k] + apps[k + 1..]
    ensures |RemoveById(apps, app.id)| == |apps| - 1
  {
    var k :| 0 <= k < |apps| && apps[k] == app;
    OthersHaveOtherIds(apps, k);
    assert apps == apps[..k] + [app] + apps[k + 1..];
    FilterCutsOne(apps[..k], app, apps[k + 1..], OtherId(app.id));
  }

  /** Removal never makes two entries share an id. */
  lemma RemoveByIdKeepsUniqueIds(apps: seq<InstalledApplication>, id: Uuid)
    requires UniqueApplicationIds(apps)
    ensures UniqueApplicationIds(RemoveById(apps, id))
  {
    var r := RemoveById(apps, id);
    forall a, b | a in r && b in r && a.id == b.id ensures a == b {
      assert a in multiset(r) && b in multiset(r);
      assert a in apps && b in apps;
    }
  }

  /** What `Valid` demands of the application list survives a removal. */
  lemma RemovalKeepsInvariant(apps: seq<InstalledApplication>, id: Uuid, next: Uuid)
    requires UniqueApplicationIds(apps) && SortedBy(apps, AppNameLess)
    requires forall a :: a in apps ==> a.id < next
    ensures var r := RemoveById(apps, id);
            UniqueApplicationIds(r) && SortedBy(r, AppNameLess) && forall a :: a in r ==> a.id < next
  {
    RemoveByIdKeepsOrder(apps, id, AppNameLess);
    RemoveByIdKeepsUniqueIds(apps, id);
    var r := RemoveById(apps, id);
    forall a | a in r ensures a.id < next {
      assert a in multiset(r);
    }
  }

  /** Entries whose ids are `firstId`, `firstId + 1`, ... have unique ids. */
  lemma {:induction false} ConsecutiveIdsUnique(processes: seq<RunningProcess>, firstId: Uuid)
    requires forall i :: 0 <= i < |processes| ==> processes[i].id == firstId + i
    ensures UniqueProcessIds(processes)
  {
    if processes != [] {
      var init, last := processes[..|processes| - 1], processes[|processes| - 1];
      ConsecutiveIdsUnique(init, firstId);
      assert processes == init + [last];
      assert forall k :: 0 <= k < |init| ==> init[k] != last;
    }
  }

  lemma {:induction false} ConsecutiveAppIdsUnique(apps: seq<InstalledApplication>, firstId: Uuid)
    requires forall i :: 0 <= i < |apps| ==> apps[i].id == firstId + i
    ensures UniqueApplicationIds(apps)
  {
    if apps != [] {
      var init, last := apps[..|apps| - 1], apps[|apps| - 1];
      ConsecutiveAppIdsUnique(init, firstId);
      assert apps == init + [last];
      assert forall k :: 0 <= k < |init| ==> init[k] != last;
    }
  }

  /**
   * What a monitor keeps true of its state: the CPU count is at least 1, the
   * CPU table only knows pids of published processes, every published id
   * has been handed out already, no id is published twice, and both
   * published lists are in ascending name order.
   */
  ghost predicate Published(cpuCount: real, table: CpuTable, processes: seq<RunningProcess>,
                            apps: seq<InstalledApplication>, next: Uuid)
  {
    && cpuCount >= 1.0
    && table.Keys <= Pids(processes)
    && (forall p :: p in processes ==> p.id < next)
    && (forall a :: a in apps ==> a.id < next)
    && UniqueProcessIds(processes)
    && UniqueApplicationIds(apps)
    && SortedBy(processes, ProcessNameLess)
    && SortedBy(apps, AppNameLess)
  }

  class SystemMonitor {
    // the published snapshot
    var runningProcesses: seq<RunningProcess>
    var installedApplications: seq<InstalledApplication>
    var isLoading: bool
    // what the monitor keeps between refreshes
    var previousCPUInfo: CpuTable
    const cpuCount: real
    // the environment: the monitor's own bundle id, the user's home directory, the UUID supply
    const ownBundleIdentifier: Option<string>
    const home: string
    const uuids: UuidSource

    /** The monitor's invariant, stated by `Published` over its current state. */
    ghost predicate Valid()
      reads this, uuids
    {
      Published(cpuCount, previousCPUInfo, runningProcesses, installedApplications, uuids.next)
    }

    /** A monitor before its first refresh; `ncpu` is the answer of the `hw.ncpu` query. */
    constructor (ncpu: Option<Positive>, ownBundleIdentifier: Option<string>, home: string)
      ensures Valid() && fresh(uuids)
      ensures runningProcesses == [] && installedApplications == [] && !isLoading && previousCPUInfo == map[]
      ensures cpuCount == CpuCount(ncpu)
      ensures this.ownBundleIdentifier == ownBundleIdentifier && this.home == home
    {
      runningProcesses := [];
      installedApplications := [];
      isLoading := false;
      previousCPUInfo := map[];
      cpuCount := CpuCount(ncpu);
      this.ownBundleIdentifier := ownBundleIdentifier;
      this.home := home;
      uuids := new UuidSource();
    }

    /** `getCPUUsage`: `info` is the task-info query's answer, `now` the clock reading. */
    method GetCPUUsage(pid: Int32, info: Option<TaskInfo>, now: real) returns (cpuPercent: real)
      requires cpuCount >= 1.0
      modifies this`previousCPUInfo
      ensures CpuSample(previousCPUInfo, cpuPercent) == SampleCpu(old(previousCPUInfo), pid, CpuTime(info), now, cpuCount)
    {
      if info.None? {
        return 0.0;
      }
      var currentTime := info.value.totalUser + info.value.totalSystem;
      var currentTimestamp := now;
      var numCPUs := cpuCount;
      if pid !in previousCPUInfo {
        previousCPUInfo := previousCPUInfo[pid := CpuBaseline(currentTime, currentTimestamp)];
        return 0.0;
      }
      var previousInfo := previousCPUInfo[pid];
      var deltaTime := currentTimestamp - previousInfo.timestamp;
      var deltaCPUTime: nat := if currentTime > previousInfo.time then currentTime - previousInfo.time else 0;
      previousCPUInfo := previousCPUInfo[pid := CpuBaseline(currentTime, currentTimestamp)];
      if deltaTime <= 0.0 {
        return 0.0;
      }
      cpuPercent := Clamp(RawPercent(deltaCPUTime, deltaTime, numCPUs));
    }

    /** `fetchRunningProcesses`: the sampling loop, the purge of the CPU table and the sort. */
    method FetchRunningProcesses(apps: seq<RunningApplication>) returns (processes: seq<RunningProcess>)
      requires cpuCount >= 1.0
      modifies this`previousCPUInfo, uuids
      ensures var pass := SamplePass(old(previousCPUInfo), apps, cpuCount, ownBundleIdentifier, old(uuids.next));
              && processes == SortProcessesByName(pass.processes)
              && previousCPUInfo == Purge(pass.table, Pids(pass.processes))
              && uuids.next == pass.nextId
    {
      var gathered: seq<RunningProcess> := [];
      var i := 0;
      while i < |apps|
        invariant 0 <= i <= |apps|
        invariant var pass := SamplePass(old(previousCPUInfo), apps[..i], cpuCount, ownBundleIdentifier, old(uuids.next));
                  && previousCPUInfo == pass.table && gathered == pass.processes && uuids.next == pass.nextId
      {
        assert apps[..i + 1] == apps[..i] + [apps[i]];
        gathered := SampleApplication(old(previousCPUInfo), apps[..i], old(uuids.next), apps[i], gathered);
        i := i + 1;
      }
      assert apps[..i] == apps;
      var currentPIDs := set p | p in gathered :: p.pid;
      previousCPUInfo := map pid | pid in previousCPUInfo && pid in currentPIDs :: previousCPUInfo[pid];
      processes := SortProcessesByName(gathered);
    }

    /** One iteration of the sampling loop: a listed application is sampled and appended with a fresh id. */
    method SampleApplication(ghost table: CpuTable, ghost seen: seq<RunningApplication>, ghost firstId: Uuid,
                             app: RunningApplication, gathered: seq<RunningProcess>) returns (result: seq<RunningProcess>)
      requires cpuCount >= 1.0
      requires var pass := SamplePass(table, seen, cpuCount, ownBundleIdentifier, firstId);
               previousCPUInfo == pass.table && gathered == pass.processes && uuids.next == pass.nextId
      modifies this`previousCPUInfo, uuids
      ensures var pass := SamplePass(table, seen + [app], cpuCount, ownBundleIdentifier, firstId);
              previousCPUInfo == pass.table && result == pass.processes && uuids.next == pass.nextId
    {
      SamplePassSnoc(table, seen, app, cpuCount, ownBundleIdentifier, firstId);
      result := gathered;
      if IsListed(app) {
        var name := app.localizedName.value;
        var cpuUsage := GetCPUUsage(app.processIdentifier, app.cpuTaskInfo, app.sampledAt);
        var memoryUsage := GetMemoryUsage(app.allTaskInfo, app.basicTaskInfo);
        var id := uuids.Fresh();
        var process := RunningProcess(id, app.processIdentifier, name, app.bundleIdentifier, cpuUsage, memoryUsage,
                                      app.bundleIdentifier != ownBundleIdentifier);
        result := result + [process];
      }
    }

    /** `createInstalledApplication` for one `.app` entry. */
    method CreateInstalledApplication(entry: DirectoryEntry, runningBundleIds: set<string>) returns (app: Option<InstalledApplication>)
      modifies uuids
      ensures app == MakeApplication(entry, runningBundleIds, old(uuids.next))
      ensures uuids.next == old(uuids.next) + (if app.Some? then 1 else 0)
    {
      if entry.bundle.None? || entry.bundle.value.bundleIdentifier.None? {
        return None;
      }
      var bundle := entry.bundle.value;
      var bundleId := bundle.bundleIdentifier.value;
      var name := bundle.localizedDisplayName.OrElse(bundle.displayName).OrElse(bundle.bundleName);
      if name.None? {
        return None;
      }
      var version := bundle.shortVersionString;
      var storageSize := GetDirectorySize(entry.contents);
      var isRunning := bundleId in runningBundleIds;
      var canUninstall := CanUninstall(entry.path);
      var id := uuids.Fresh();
      app := Some(InstalledApplication(id, name.value, bundleId, version, entry.path, storageSize, isRunning, canUninstall));
    }

    /**
     * `fetchInstalledApplications`: the running bundle ids are taken from the
     * published `runningProcesses`, then every `.app` entry of the three
     * directories is turned into an application and the result is sorted.
     */
    method FetchInstalledApplications(volumes: map<string, seq<DirectoryEntry>>) returns (applications: seq<InstalledApplication>)
      modifies uuids
      ensures var scan := ScanEntries(Candidates(volumes, ApplicationDirectories(home)), RunningBundleIds(runningProcesses), old(uuids.next));
              applications == SortApplicationsByName(scan.applications) && uuids.next == scan.nextId
    {
      var runningBundleIds := set p | p in runningProcesses && p.bundleIdentifier.Some? :: p.bundleIdentifier.value;
      assert runningBundleIds == RunningBundleIds(runningProcesses);
      var gathered: seq<InstalledApplication> := [];
      var dirs := ApplicationDirectories(home);
      var d := 0;
      while d < |dirs|
        invariant 0 <= d <= |dirs|
        invariant var scan := ScanEntries(Candidates(volumes, dirs[..d]), runningBundleIds, old(uuids.next));
                  gathered == scan.applications && uuids.next == scan.nextId
      {
        var dir := dirs[d];
        var done := Candidates(volumes, dirs[..d]);
        assert dirs[..d + 1][..d] == dirs[..d];
        assert Candidates(volumes, dirs[..d + 1]) == done + DirectoryListing(volumes, dir);
        if dir in volumes {
          gathered := ScanListing(done, old(uuids.next), volumes[dir], runningBundleIds, gathered);
        } else {
          assert done + DirectoryListing(volumes, dir) == done;
        }
        d := d + 1;
      }
      assert dirs[..d] == dirs;
      applications := SortApplicationsByName(gathered);
    }

    /** The enumeration of one application directory inside `fetchInstalledApplications`. */
    method ScanListing(ghost done: seq<DirectoryEntry>, ghost firstId: Uuid, entries: seq<DirectoryEntry>,
                       runningBundleIds: set<string>, gathered: seq<InstalledApplication>)
      returns (result: seq<InstalledApplication>)
      requires var scan := ScanEntries(done, runningBundleIds, firstId);
               gathered == scan.applications && uuids.next == scan.nextId
      modifies uuids
      ensures var scan := ScanEntries(done + entries, runningBundleIds, firstId);
              result == scan.applications && uuids.next == scan.nextId
    {
      result := gathered;
      ghost var seen := done;
      var j := 0;
      while j < |entries|
        invariant 0 <= j <= |entries| && seen == done + entries[..j]
        invariant var scan := ScanEntries(seen, runningBundleIds, firstId);
                  result == scan.applications && uuids.next == scan.nextId
      {
        var entry := entries[j];
        result := VisitEntry(seen, firstId, entry, runningBundleIds, result);
        assert seen + [entry] == done + entries[..j + 1] by {
          assert entries[..j + 1] == entries[..j] + [entry];
        }
        seen := seen + [entry];
        j := j + 1;
      }
      assert entries[..j] == entries;
    }

    /** One iteration of the enumeration: an `.app` entry whose bundle resolves is appended. */
    method VisitEntry(ghost seen: seq<DirectoryEntry>, ghost firstId: Uuid, entry: DirectoryEntry,
                      runningBundleIds: set<string>, gathered: seq<InstalledApplication>)
      returns (result: seq<InstalledApplication>)
      requires var scan := ScanEntries(seen, runningBundleIds, firstId);
               gathered == scan.applications && uuids.next == scan.nextId
      modifies uuids
      ensures var scan := ScanEntries(seen + [entry], runningBundleIds, firstId);
              result == scan.applications && uuids.next == scan.nextId
    {
      ScanEntriesSnoc(seen, entry, runningBundleIds, firstId);
      result := gathered;
      if IsAppBundlePath(entry.path) {
        var app := CreateInstalledApplication(entry, runningBundleIds);
        if app.Some? {
          result := result + [app.value];
        }
      }
    }

    /** `killProcess`: sends SIGTERM through `/bin/kill`, only to a killable process. */
    method KillProcess(process: RunningProcess, runSucceeds: bool) returns (outcome: KillOutcome)
      ensures !process.isKillable <==> outcome == KillRejected
      ensures process.isKillable ==>
                outcome == (var command := KillCommand("/bin/kill", "-TERM", process.pid);
                           if runSucceeds then Launched(command) else LaunchFailed(command))
    {
      outcome := SendSignal(process, Terminate, runSucceeds);
    }

    /** `forceKillProcess`: sends SIGKILL through `/bin/kill`, only to a killable process. */
    method ForceKillProcess(process: RunningProcess, runSucceeds: bool) returns (outcome: KillOutcome)
      ensures !process.isKillable <==> outcome == KillRejected
      ensures process.isKillable ==>
                outcome == (var command := KillCommand("/bin/kill", "-KILL", process.pid);
                           if runSucceeds then Launched(command) else LaunchFailed(command))
    {
      outcome := SendSignal(process, ForceKill, runSucceeds);
    }

    /** The shared body of the two kill actions: the guard, then the launch of `/bin/kill`. */
    method SendSignal(process: RunningProcess, signal: Signal, runSucceeds: bool) returns (outcome: KillOutcome)
      ensures !process.isKillable <==> outcome == KillRejected
      ensures process.isKillable ==>
                outcome == (var command := KillCommand("/bin/kill", signal.Flag(), process.pid);
                           if runSucceeds then Launched(command) else LaunchFailed(command))
    {
      if !process.isKillable {
        return KillRejected;
      }
      var task := KillCommand("/bin/kill", signal.Flag(), process.pid);
      if runSucceeds {
        outcome := Launched(task);
      } else {
        outcome := LaunchFailed(task);
      }
    }

    /**
     * `uninstallApplication`: only an uninstallable application is moved to
     * the trash; when the move succeeds, the entries with its id leave the
     * published list, and when it fails the list stays as it was.
     */
    method UninstallApplication(app: InstalledApplication, trashSucceeds: bool) returns (outcome: UninstallOutcome)
      requires Valid()
      modifies this`installedApplications
      ensures Valid()
      ensures !app.canUninstall ==> outcome == UninstallRejected && installedApplications == old(installedApplications)
      ensures app.canUninstall && !trashSucceeds ==> outcome == TrashFailed && installedApplications == old(installedApplications)
      ensures app.canUninstall && trashSucceeds ==>
                outcome == Trashed && installedApplications == RemoveById(old(installedApplications), app.id)
      // a listed application is cut out on its own, the others staying in place
      ensures app.canUninstall && trashSucceeds && app in old(installedApplications) ==>
                exists k :: 0 <= k < |old(installedApplications)| && old(installedApplications)[k] == app &&
                            installedApplications == old(installedApplications)[..k] + old(installedApplications)[k + 1..]
    {
      if !app.canUninstall {
        return UninstallRejected;
      }
      if !trashSucceeds {
        return TrashFailed;
      }
      if app in installedApplications {
        RemoveByIdRemovesOne(installedApplications, app);
      }
      RemovalKeepsInvariant(installedApplications, app.id, uuids.next);
      installedApplications := RemoveById(installedApplications, app.id);
      outcome := Trashed;
    }

    /**
     * `refreshData`: sample the processes, scan the applications against the
     * processes published by the previous refresh, then publish both lists
     * and clear `isLoading` in one step.
     */
    method RefreshData(apps: seq<RunningApplication>, volumes: map<string, seq<DirectoryEntry>>)
      requires Valid()
      modifies this, uuids
      ensures Valid()
      ensures var pass := SamplePass(old(previousCPUInfo), apps, cpuCount, ownBundleIdentifier, old(uuids.next));
              && runningProcesses == SortProcessesByName(pass.processes)
              && previousCPUInfo == Purge(pass.table, Pids(pass.processes))
              && installedApplications == InstalledApplications(volumes, home, RunningBundleIds(old(runningProcesses)), pass.nextId)
              // the id supply moves past every process and application the refresh built
              && uuids.next == ScanEntries(Candidates(volumes, ApplicationDirectories(home)),
                                           RunningBundleIds(old(runningProcesses)), pass.nextId).nextId
      ensures !isLoading
      // the running flag lags one refresh: it reflects the processes published before this one
      ensures forall a :: a in installedApplications ==> (a.isRunning <==> a.bundleIdentifier in RunningBundleIds(old(runningProcesses)))
      ensures forall a :: a in installedApplications ==> (a.canUninstall <==> CanUninstall(a.path))
    {
      ghost var table, firstId, running := previousCPUInfo, uuids.next, RunningBundleIds(runningProcesses);
      ghost var pass := SamplePass(table, apps, cpuCount, ownBundleIdentifier, firstId);
      isLoading := true;
      var fetchedProcesses := FetchRunningProcesses(apps);
      ghost var purged := previousCPUInfo;
      assert purged == Purge(pass.table, Pids(pass.processes)) && uuids.next == pass.nextId;
      var fetchedApps := FetchInstalledApplications(volumes);
      runningProcesses := fetchedProcesses;
      installedApplications := fetchedApps;
      isLoading := false;
      RefreshPublishes(table, apps, cpuCount, ownBundleIdentifier, firstId, volumes, home, running,
                       previousCPUInfo, runningProcesses, installedApplications, uuids.next);
    }
  }

  /** What one refresh publishes satisfies the invariant, and its applications carry the running set it was given. */
  lemma RefreshPublishes(table: CpuTable, apps: seq<RunningApplication>, cpuCount: real, ownBundleIdentifier: Option<string>,
                         firstId: Uuid, volumes: map<string, seq<DirectoryEntry>>, home: string, running: set<string>,
                         purged: CpuTable, processes: seq<RunningProcess>, installed: seq<InstalledApplication>, next: Uuid)
    requires cpuCount >= 1.0
    requires var pass := SamplePass(table, apps, cpuCount, ownBundleIdentifier, firstId);
             && purged == Purge(pass.table, Pids(pass.processes))
             && processes == SortProcessesByName(pass.processes)
             && installed == InstalledApplications(volumes, home, running, pass.nextId)
             && next == ScanEntries(Candidates(volumes, ApplicationDirectories(home)), running, pass.nextId).nextId
    ensures Published(cpuCount, purged, processes, installed, next)
    ensures forall a :: a in installed ==> (a.isRunning <==> a.bundleIdentifier in running)
    ensures forall a :: a in installed ==> (a.canUninstall <==> CanUninstall(a.path))
  {
    var pass := SamplePass(table, apps, cpuCount, ownBundleIdentifier, firstId);
    var scan := ScanEntries(Candidates(volumes, ApplicationDirectories(home)), running, pass.nextId);
    InstalledApplicationsProperties(volumes, home, running, pass.nextId);
    PublishedIdsValid(pass.processes, firstId, processes, scan.applications, pass.nextId, installed, next);
    PurgeKnowsPublished(pass.table, pass.processes, processes);
  }

  /** The purged table only knows pids of the published list, whatever order it is published in. */
  lemma PurgeKnowsPublished(table: CpuTable, gathered: seq<RunningProcess>, processes: seq<RunningProcess>)
    requires multiset(processes) == multiset(gathered)
    ensures Purge(table, Pids(gathered)).Keys <= Pids(processes)
  {
    forall pid | pid in Purge(table, Pids(gathered)) ensures pid in Pids(processes) {
      var p :| p in gathered && p.pid == pid;
      assert p in multiset(processes);
    }
  }

  /** What `Valid` needs of the lists a refresh publishes. */
  lemma PublishedIdsValid(gathered: seq<RunningProcess>, firstId: Uuid, processes: seq<RunningProcess>,
                          scanned: seq<InstalledApplication>, appsFirstId: Uuid, apps: seq<InstalledApplication>, next: Uuid)
    requires forall i :: 0 <= i < |gathered| ==> gathered[i].id == firstId + i
    requires forall i :: 0 <= i < |scanned| ==> scanned[i].id == appsFirstId + i
    requires firstId + |gathered| <= appsFirstId && appsFirstId + |scanned| == next
    requires multiset(processes) == multiset(gathered) && multiset(apps) == multiset(scanned)
    ensures UniqueProcessIds(processes) && UniqueApplicationIds(apps)
    ensures forall p :: p in processes ==> p.id < next
    ensures forall a :: a in apps ==> a.id < next
  {
    ConsecutiveIdsUnique(gathered, firstId);
    ConsecutiveAppIdsUnique(scanned, appsFirstId);
    forall p, q | p in processes && q in processes && p.id == q.id ensures p == q {
      assert p in multiset(processes) && q in multiset(processes);
      assert p in gathered && q in gathered;
    }
    forall p | p in processes ensures p.id < next {
      assert p in multiset(processes);
      assert p in gathered;
    }
    forall a, b | a in apps && b in apps && a.id == b.id ensures a == b {
      assert a in multiset(apps) && b in multiset(apps);
      assert a in scanned && b in scanned;
    }
    forall a | a in apps ensures a.id < next {
      assert a in multiset(apps);
      assert a in scanned;
    }
  }
}
