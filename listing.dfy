/**
 * The list logic of `fetchRunningProcesses`, `fetchInstalledApplications`
 * and `createInstalledApplication` (MissionBar/SystemMonitor.swift), as
 * functions over what the operating system reports. The loops that run
 * them are methods of `Monitor.SystemMonitor`, proved equal to these.
 */
module Listing {
  import opened Wrappers
  import opened Models
  import opened Sorting
  import opened CpuUsage
  import opened MemoryUsage
  import opened DirectorySizeEstimator

  // ---------------------------------------------------------------------------
  // Running processes
  // ---------------------------------------------------------------------------

  datatype ActivationPolicy = Regular | Accessory | Prohibited

  /**
   * One element of the workspace's running applications, together with the
   * answers the per-process queries give for it (`None` where a query fails).
   */
  datatype RunningApplication = RunningApplication(
    processIdentifier: Int32,
    localizedName: Option<string>,
    bundleIdentifier: Option<string>,
    activationPolicy: ActivationPolicy,
    cpuTaskInfo: Option<TaskInfo>,    // the task-info query of getCPUUsage
    sampledAt: real,                  // the clock reading of getCPUUsage, in seconds
    allTaskInfo: Option<TaskInfo>,    // the all-info query of getMemoryUsage
    basicTaskInfo: Option<TaskInfo>)  // the fallback task-info query of getMemoryUsage

  /** The guard of the sampling loop: a name, and an activation policy other than prohibited. */
  predicate IsListed(app: RunningApplication)
  {
    app.localizedName.Some? && app.activationPolicy != Prohibited
  }

  /** The cumulative user plus system CPU time a task-info reading reports. */
  function CpuTime(info: Option<TaskInfo>): (time: Option<nat>)
    ensures time.Some? <==> info.Some?
    ensures info.Some? ==> time.value == info.value.totalUser + info.value.totalSystem
  {
    match info
    case Some(i) => Some(i.totalUser + i.totalSystem)
    case None => None
  }

  /** The entry built for a listed application, given its CPU percentage and its id. */
  function ProcessFor(app: RunningApplication, cpuUsage: real, id: Uuid, ownBundleIdentifier: Option<string>): RunningProcess
    requires IsListed(app)
  {
    RunningProcess(
      id, app.processIdentifier, app.localizedName.value, app.bundleIdentifier, cpuUsage,
      GetMemoryUsage(app.allTaskInfo, app.basicTaskInfo),
      app.bundleIdentifier != ownBundleIdentifier)
  }

  function Pids(processes: seq<RunningProcess>): set<Int32>
  {
    set p | p in processes :: p.pid
  }

  /** The state of one sampling loop: the CPU table, the entries so far, the next fresh id. */
  datatype SamplingPass = SamplingPass(table: CpuTable, processes: seq<RunningProcess>, nextId: Uuid)

  /** The sampling loop over `apps`, from the table it starts with and the first fresh id. */
  function SamplePass(table: CpuTable, apps: seq<RunningApplication>, numCPUs: real,
                      ownBundleIdentifier: Option<string>, firstId: Uuid): (r: SamplingPass)
    requires numCPUs >= 1.0
    ensures r.nextId == firstId + |r.processes|
    ensures forall i :: 0 <= i < |r.processes| ==> r.processes[i].id == firstId + i
    ensures forall p :: p in r.processes ==> 0.0 <= p.cpuUsage <= 100.0
    ensures r.table.Keys <= table.Keys + Pids(r.processes)
  {
    if apps == [] then SamplingPass(table, [], firstId)
    else
      var before := SamplePass(table, apps[..|apps| - 1], numCPUs, ownBundleIdentifier, firstId);
      var app := apps[|apps| - 1];
      if !IsListed(app) then before
      else
        var cpu := SampleCpu(before.table, app.processIdentifier, CpuTime(app.cpuTaskInfo), app.sampledAt, numCPUs);
        var process := ProcessFor(app, cpu.percent, before.nextId, ownBundleIdentifier);
        assert Pids(before.processes + [process]) == Pids(before.processes) + {app.processIdentifier};
        SamplingPass(cpu.table, before.processes + [process], before.nextId + 1)
  }

  /** One more application extends the pass by at most one sampled entry. */
  lemma SamplePassSnoc(table: CpuTable, apps: seq<RunningApplication>, app: RunningApplication, numCPUs: real,
                       ownBundleIdentifier: Option<string>, firstId: Uuid)
    requires numCPUs >= 1.0
    ensures var before := SamplePass(table, apps, numCPUs, ownBundleIdentifier, firstId);
            var cpu := SampleCpu(before.table, app.processIdentifier, CpuTime(app.cpuTaskInfo), app.sampledAt, numCPUs);
            SamplePass(table, apps + [app], numCPUs, ownBundleIdentifier, firstId) ==
              if !IsListed(app) then before
              else SamplingPass(cpu.table, before.processes + [ProcessFor(app, cpu.percent, before.nextId, ownBundleIdentifier)],
                                before.nextId + 1)
  {
    assert (apps + [app])[..|apps + [app]| - 1] == apps;
  }

  /**
   * `processes` are the entries built for `listed`, one each and in order:
   * same pid, name, bundle id and memory estimate, and killable iff the
   * bundle id differs from the monitor's own.
   */
  ghost predicate BuiltFrom(processes: seq<RunningProcess>, listed: seq<RunningApplication>, ownBundleIdentifier: Option<string>)
  {
    && |processes| == |listed|
    && forall i :: 0 <= i < |listed| ==>
         && processes[i].pid == listed[i].processIdentifier
         && Some(processes[i].name) == listed[i].localizedName
         && processes[i].bundleIdentifier == listed[i].bundleIdentifier
         && processes[i].memoryUsage == GetMemoryUsage(listed[i].allTaskInfo, listed[i].basicTaskInfo)
         && (processes[i].isKillable <==> listed[i].bundleIdentifier != ownBundleIdentifier)
  }

  lemma BuiltFromAppend(processes: seq<RunningProcess>, listed: seq<RunningApplication>, app: RunningApplication,
                        cpuUsage: real, id: Uuid, ownBundleIdentifier: Option<string>)
    requires IsListed(app) && BuiltFrom(processes, listed, ownBundleIdentifier)
    ensures BuiltFrom(processes + [ProcessFor(app, cpuUsage, id, ownBundleIdentifier)], listed + [app], ownBundleIdentifier)
  {
  }

  /** The pass keeps exactly the listed applications, in order, each annotated as `BuiltFrom` says. */
  lemma {:induction false} SamplePassAnnotates(table: CpuTable, apps: seq<RunningApplication>, numCPUs: real,
                                               ownBundleIdentifier: Option<string>, firstId: Uuid)
    requires numCPUs >= 1.0
    ensures BuiltFrom(SamplePass(table, apps, numCPUs, ownBundleIdentifier, firstId).processes,
                      Filter(apps, IsListed), ownBundleIdentifier)
  {
    if apps != [] {
      var init, app := apps[..|apps| - 1], apps[|apps| - 1];
      SamplePassAnnotates(table, init, numCPUs, ownBundleIdentifier, firstId);
      var before := SamplePass(table, init, numCPUs, ownBundleIdentifier, firstId);
      if IsListed(app) {
        var cpu := SampleCpu(before.table, app.processIdentifier, CpuTime(app.cpuTaskInfo), app.sampledAt, numCPUs);
        BuiltFromAppend(before.processes, Filter(init, IsListed), app, cpu.percent, before.nextId, ownBundleIdentifier);
      }
    }
  }

  /**
   * A pid that the starting table does not know reports 0 the first time it
   * shows up in the pass.
   */
  lemma {:induction false} FirstSightingReportsZero(table: CpuTable, apps: seq<RunningApplication>, numCPUs: real,
                                                    ownBundleIdentifier: Option<string>, firstId: Uuid, i: nat)
    requires numCPUs >= 1.0
    requires var r := SamplePass(table, apps, numCPUs, ownBundleIdentifier, firstId);
             i < |r.processes| && r.processes[i].pid !in table && r.processes[i].pid !in Pids(r.processes[..i])
    ensures SamplePass(table, apps, numCPUs, ownBundleIdentifier, firstId).processes[i].cpuUsage == 0.0
  {
    var r := SamplePass(table, apps, numCPUs, ownBundleIdentifier, firstId);
    var before := SamplePass(table, apps[..|apps| - 1], numCPUs, ownBundleIdentifier, firstId);
    var app := apps[|apps| - 1];
    if IsListed(app) {
      assert r.processes == before.processes + [r.processes[|r.processes| - 1]];
      if i < |before.processes| {
        assert r.processes[..i] == before.processes[..i];
        FirstSightingReportsZero(table, apps[..|apps| - 1], numCPUs, ownBundleIdentifier, firstId, i);
      } else {
        assert r.processes[..i] == before.processes;
        assert app.processIdentifier !in before.table;
      }
    } else {
      FirstSightingReportsZero(table, apps[..|apps| - 1], numCPUs, ownBundleIdentifier, firstId, i);
    }
  }

  /**
   * Eviction at work: a pid missing from one pass is purged, so when the
   * same number shows up in a later pass it is a first sighting again.
   */
  lemma ReusedPidStartsOver(table: CpuTable, apps: seq<RunningApplication>, later: seq<RunningApplication>,
                            numCPUs: real, ownBundleIdentifier: Option<string>, firstId: Uuid, laterId: Uuid, i: nat)
    requires numCPUs >= 1.0
    requires var pass := SamplePass(table, apps, numCPUs, ownBundleIdentifier, firstId);
             var next := SamplePass(Purge(pass.table, Pids(pass.processes)), later, numCPUs, ownBundleIdentifier, laterId);
             i < |next.processes| && next.processes[i].pid !in Pids(pass.processes) &&
             next.processes[i].pid !in Pids(next.processes[..i])
    ensures var pass := SamplePass(table, apps, numCPUs, ownBundleIdentifier, firstId);
            SamplePass(Purge(pass.table, Pids(pass.processes)), later, numCPUs, ownBundleIdentifier, laterId)
              .processes[i].cpuUsage == 0.0
  {
    var pass := SamplePass(table, apps, numCPUs, ownBundleIdentifier, firstId);
    FirstSightingReportsZero(Purge(pass.table, Pids(pass.processes)), later, numCPUs, ownBundleIdentifier, laterId, i);
  }

  /** `$0.name < $1.name` on processes. */
  predicate ProcessNameLess(a: RunningProcess, b: RunningProcess)
  {
    StringLess(a.name, b.name)
  }

  lemma ProcessNameLessStrictOrder()
    ensures StrictOrder(ProcessNameLess)
  {
    forall a ensures !ProcessNameLess(a, a) {
      StringLessIrreflexive(a.name);
    }
    forall a, b, c | ProcessNameLess(a, b) && ProcessNameLess(b, c) ensures ProcessNameLess(a, c) {
      StringLessTransitive(a.name, b.name, c.name);
    }
  }

  /** `processes.sorted { $0.name < $1.name }`. */
  function SortProcessesByName(processes: seq<RunningProcess>): (r: seq<RunningProcess>)
    ensures multiset(r) == multiset(processes)
    ensures forall i, j :: 0 <= i < j < |r| ==> !StringLess(r[j].name, r[i].name)
  {
    ProcessNameLessStrictOrder();
    SortSorted(processes, ProcessNameLess);
    Sort(processes, ProcessNameLess)
  }

  /** The value `fetchRunningProcesses` returns, sorted by name. */
  lemma ProcessListingProperties(table: CpuTable, apps: seq<RunningApplication>, numCPUs: real,
                                 ownBundleIdentifier: Option<string>, firstId: Uuid)
    requires numCPUs >= 1.0
    ensures var r := SortProcessesByName(SamplePass(table, apps, numCPUs, ownBundleIdentifier, firstId).processes);
            && |r| == |Filter(apps, IsListed)|
            && (forall p :: p in r ==> exists a :: a in apps && IsListed(a) && a.processIdentifier == p.pid &&
                                                  a.localizedName == Some(p.name))
            && (forall p :: p in r ==> (p.isKillable <==> p.bundleIdentifier != ownBundleIdentifier))
            && (forall p :: p in r ==> 0.0 <= p.cpuUsage <= 100.0)
  {
    var pass := SamplePass(table, apps, numCPUs, ownBundleIdentifier, firstId);
    var r := SortProcessesByName(pass.processes);
    var listed := Filter(apps, IsListed);
    SamplePassAnnotates(table, apps, numCPUs, ownBundleIdentifier, firstId);
    assert |pass.processes| == |listed|;
    assert |r| == |multiset(r)| == |multiset(pass.processes)| == |pass.processes|;
    forall p | p in r
      ensures exists a :: a in apps && IsListed(a) && a.processIdentifier == p.pid && a.localizedName == Some(p.name)
      ensures p.isKillable <==> p.bundleIdentifier != ownBundleIdentifier
      ensures 0.0 <= p.cpuUsage <= 100.0
    {
      assert p in multiset(r);
      assert p in multiset(pass.processes);
      assert p in pass.processes;
      var i :| 0 <= i < |pass.processes| && pass.processes[i] == p;
      assert i < |listed|;
      var a := listed[i];
      assert a.processIdentifier == p.pid && a.localizedName == Some(p.name);
      assert p.isKillable <==> a.bundleIdentifier != ownBundleIdentifier;
      assert a in listed;
      assert a in apps && IsListed(a);
    }
  }

  // ---------------------------------------------------------------------------
  // Installed applications
  // ---------------------------------------------------------------------------

  /** What `Bundle(url:)` and its info dictionaries yield for one bundle (`None` for a missing or non-string value). */
  datatype BundleInfo = BundleInfo(
    bundleIdentifier: Option<string>,
    localizedDisplayName: Option<string>,  // CFBundleDisplayName in the localized dictionary
    displayName: Option<string>,           // CFBundleDisplayName in the info dictionary
    bundleName: Option<string>,            // CFBundleName in the info dictionary
    shortVersionString: Option<string>)    // CFBundleShortVersionString

  /**
   * One top-level entry of an application directory: its path, the bundle
   * read from it (`None` when `Bundle(url:)` fails) and what the deep
   * enumerator of `getDirectorySize` yields for it (`None` when there is none).
   */
  datatype DirectoryEntry = DirectoryEntry(path: string, bundle: Option<BundleInfo>, contents: Option<seq<FsItem>>)

  /** The part of a path after its last '/'. */
  function LastPathComponent(path: string): (name: string)
  {
    if path == [] then []
    else if path[|path| - 1] == '/' then []
    else LastPathComponent(path[..|path| - 1]) + [path[|path| - 1]]
  }

  /** The part of a file name after its last '.', or "" when the name has no '.' after its first character. */
  function NameExtension(name: string): (ext: string)
  {
    if |name| <= 1 then []
    else if name[|name| - 1] == '.' then []
    else
      var init := NameExtension(name[..|name| - 1]);
      if init == [] && '.' !in name[1..|name| - 1] then [] else init + [name[|name| - 1]]
  }

  /** The last path component is the suffix of the path after its last '/'. */
  lemma {:induction false} LastPathComponentIsSuffix(path: string)
    ensures var name := LastPathComponent(path);
            '/' !in name && |name| <= |path| && name == path[|path| - |name|..]
            && (|name| < |path| ==> path[|path| - |name| - 1] == '/')
  {
    if path != [] && path[|path| - 1] != '/' {
      var init, last := path[..|path| - 1], path[|path| - 1];
      LastPathComponentIsSuffix(init);
      var prefix := LastPathComponent(init);
      assert LastPathComponent(path) == prefix + [last];
      assert path[|path| - |prefix| - 1..] == init[|init| - |prefix|..] + [last];
      assert '/' !in prefix + [last];
      if |prefix| < |init| {
        assert path[|path| - |prefix| - 2] == init[|init| - |prefix| - 1];
      }
    }
  }

  /** The name after a final '/' is the last path component. */
  lemma {:induction false} LastPathComponentOfChild(dir: string, name: string)
    requires '/' !in name
    ensures LastPathComponent(dir + "/" + name) == name
  {
    var path := dir + "/" + name;
    if name != [] {
      var init := name[..|name| - 1];
      assert path[..|path| - 1] == dir + "/" + init;
      LastPathComponentOfChild(dir, init);
      assert init + [name[|name| - 1]] == name;
    }
  }

  /**
   * An extension holds no '.', is shorter than the name, and is what follows a
   * '.' in it; a name without one ends in '.' or has no '.' after its first
   * character.
   */
  lemma {:induction false} NameExtensionIsSuffix(name: string)
    ensures var ext := NameExtension(name);
            '.' !in ext && (ext == [] || (|ext| + 1 < |name| && name[|name| - |ext|..] == ext && name[|name| - |ext| - 1] == '.'))
    ensures var ext := NameExtension(name);
            ext == [] && |name| > 0 ==> name[|name| - 1] == '.' || '.' !in name[1..]
  {
    if |name| > 1 && name[|name| - 1] != '.' {
      var init := name[..|name| - 1];
      NameExtensionIsSuffix(init);
      var ext := NameExtension(init);
      if ext == [] && '.' !in name[1..|name| - 1] {
        assert name[1..] == name[1..|name| - 1] + [name[|name| - 1]];
      } else if ext == [] {
        assert init[|init| - 1] == '.';
      } else {
        assert name[|name| - |ext| - 1..] == name[|name| - |ext| - 1..|name| - 1] + [name[|name| - 1]];
      }
    }
  }

  /** `url.pathExtension == "app"`. */
  predicate IsAppBundlePath(path: string)
  {
    NameExtension(LastPathComponent(path)) == "app"
  }

  /** An application bundle path ends in ".app" after a nonempty base name. */
  lemma AppBundlePathEndsInApp(path: string)
    requires IsAppBundlePath(path)
    ensures |path| >= 5 && path[|path| - 4..] == ".app" && path[|path| - 5] != '/'
  {
    var name := LastPathComponent(path);
    LastPathComponentIsSuffix(path);
    NameExtensionIsSuffix(name);
    assert name[|name| - 4..] == ".app" by {
      assert name[|name| - 3..] == "app";
    }
    assert path[|path| - 4..] == name[|name| - 4..];
    assert path[|path| - 5] == name[|name| - 5];
  }

  /** Whatever follows the last '.' of a name with a nonempty base is its extension. */
  lemma {:induction false} NameExtensionOf(base: string, ext: string)
    requires base != [] && ext != [] && '.' !in ext
    ensures NameExtension(base + "." + ext) == ext
  {
    var name := base + "." + ext;
    var init := name[..|name| - 1];
    assert init == base + "." + ext[..|ext| - 1];
    if |ext| == 1 {
      assert init[|init| - 1] == '.';
      assert name[1..|name| - 1][|base| - 1] == '.';
    } else {
      NameExtensionOf(base, ext[..|ext| - 1]);
    }
    assert ext[..|ext| - 1] + [ext[|ext| - 1]] == ext;
  }

  /** A file name has extension "app" exactly when it is a nonempty base followed by ".app". */
  lemma AppExtensionIff(name: string)
    ensures NameExtension(name) == "app" <==> |name| >= 5 && name[|name| - 4..] == ".app"
  {
    if NameExtension(name) == "app" {
      NameExtensionIsSuffix(name);
      assert name[|name| - 4..] == ".app" by {
        assert name[|name| - 3..] == "app";
      }
    }
    if |name| >= 5 && name[|name| - 4..] == ".app" {
      var base := name[..|name| - 4];
      assert name == base + "." + "app";
      NameExtensionOf(base, "app");
    }
  }

  /** A path is an application bundle exactly when its last component is a nonempty name followed by ".app". */
  lemma AppBundlePathIff(path: string)
    ensures var name := LastPathComponent(path);
            IsAppBundlePath(path) <==> |name| >= 5 && name[|name| - 4..] == ".app"
  {
    AppExtensionIff(LastPathComponent(path));
  }

  /** An entry named `base.app` in any directory is an application bundle. */
  lemma AppPathIsAppBundle(dir: string, base: string)
    requires base != [] && '/' !in base
    ensures IsAppBundlePath(dir + "/" + base + ".app")
  {
    var name := base + ".app";
    assert dir + "/" + base + ".app" == dir + "/" + name;
    LastPathComponentOfChild(dir, name);
    assert name == base + "." + "app";
    NameExtensionOf(base, "app");
  }

  predicate StartsWith(s: string, prefix: string)
  {
    |prefix| <= |s| && s[..|prefix|] == prefix
  }

  /** The uninstall policy: only bundles outside /System/ and /usr/. */
  predicate CanUninstall(path: string)
  {
    !StartsWith(path, "/System/") && !StartsWith(path, "/usr/")
  }

  /** The display name fallback chain: localized display name, then display name, then bundle name. */
  function BundleDisplayName(bundle: BundleInfo): (name: Option<string>)
    ensures bundle.localizedDisplayName.Some? ==> name == bundle.localizedDisplayName
    ensures bundle.localizedDisplayName.None? && bundle.displayName.Some? ==> name == bundle.displayName
    ensures bundle.localizedDisplayName.None? && bundle.displayName.None? ==> name == bundle.bundleName
  {
    bundle.localizedDisplayName.OrElse(bundle.displayName).OrElse(bundle.bundleName)
  }

  /** The guard of `createInstalledApplication`: a bundle with an identifier and some name. */
  predicate Resolves(entry: DirectoryEntry)
  {
    entry.bundle.Some? && entry.bundle.value.bundleIdentifier.Some? && BundleDisplayName(entry.bundle.value).Some?
  }

  /** `createInstalledApplication`, with the fresh id the new entry is given. */
  function MakeApplication(entry: DirectoryEntry, runningBundleIds: set<string>, id: Uuid): (app: Option<InstalledApplication>)
    ensures app.Some? <==> Resolves(entry)
    ensures app.Some? ==>
              && app.value.id == id
              && app.value.path == entry.path
              && Some(app.value.bundleIdentifier) == entry.bundle.value.bundleIdentifier
              && Some(app.value.name) == BundleDisplayName(entry.bundle.value)
              && app.value.version == entry.bundle.value.shortVersionString
              && app.value.storageSize == DirectorySize(entry.contents)
              && (app.value.isRunning <==> app.value.bundleIdentifier in runningBundleIds)
              && (app.value.canUninstall <==> CanUninstall(entry.path))
  {
    if !Resolves(entry) then None
    else
      var bundle := entry.bundle.value;
      var bundleId := bundle.bundleIdentifier.value;
      Some(InstalledApplication(
        id, BundleDisplayName(bundle).value, bundleId, bundle.shortVersionString, entry.path,
        DirectorySize(entry.contents), bundleId in runningBundleIds, CanUninstall(entry.path)))
  }

  /** The state of the scanning loop: the applications so far and the next fresh id. */
  datatype Scan = Scan(applications: seq<InstalledApplication>, nextId: Uuid)

  /** One iteration of the scanning loop: an `.app` entry that resolves is appended with the next id. */
  function ScanStep(before: Scan, entry: DirectoryEntry, runningBundleIds: set<string>): Scan
  {
    if !IsAppBundlePath(entry.path) then before
    else
      match MakeApplication(entry, runningBundleIds, before.nextId)
      case None => before
      case Some(app) => Scan(before.applications + [app], before.nextId + 1)
  }

  /** The scanning loop over the enumerated entries, in order. */
  function ScanEntries(entries: seq<DirectoryEntry>, runningBundleIds: set<string>, firstId: Uuid): (r: Scan)
    ensures r.nextId == firstId + |r.applications|
    ensures forall i :: 0 <= i < |r.applications| ==> r.applications[i].id == firstId + i
  {
    if entries == [] then Scan([], firstId)
    else ScanStep(ScanEntries(entries[..|entries| - 1], runningBundleIds, firstId), entries[|entries| - 1], runningBundleIds)
  }

  lemma ScanEntriesSnoc(entries: seq<DirectoryEntry>, entry: DirectoryEntry, runningBundleIds: set<string>, firstId: Uuid)
    ensures ScanEntries(entries + [entry], runningBundleIds, firstId) ==
            ScanStep(ScanEntries(entries, runningBundleIds, firstId), entry, runningBundleIds)
  {
    assert (entries + [entry])[..|entries|] == entries;
  }

  /** Every application the scan lists was built from an `.app` entry it visited. */
  lemma {:induction false} ScanEntriesSound(entries: seq<DirectoryEntry>, runningBundleIds: set<string>, firstId: Uuid, a: InstalledApplication)
    requires a in ScanEntries(entries, runningBundleIds, firstId).applications
    ensures exists e :: e in entries && IsAppBundlePath(e.path) && MakeApplication(e, runningBundleIds, a.id) == Some(a)
  {
    var init := entries[..|entries| - 1];
    var entry := entries[|entries| - 1];
    var before := ScanEntries(init, runningBundleIds, firstId);
    assert entries == init + [entry];
    if a in before.applications {
      ScanEntriesSound(init, runningBundleIds, firstId, a);
      var e :| e in init && IsAppBundlePath(e.path) && MakeApplication(e, runningBundleIds, a.id) == Some(a);
      assert e in entries;
    } else {
      assert MakeApplication(entry, runningBundleIds, a.id) == Some(a);
    }
  }

  /** Every `.app` entry whose bundle resolves is listed, as the application built from it. */
  lemma {:induction false} ScanEntriesComplete(entries: seq<DirectoryEntry>, runningBundleIds: set<string>, firstId: Uuid, e: DirectoryEntry)
    requires e in entries && IsAppBundlePath(e.path) && Resolves(e)
    ensures exists a :: a in ScanEntries(entries, runningBundleIds, firstId).applications && MakeApplication(e, runningBundleIds, a.id) == Some(a)
  {
    var init := entries[..|entries| - 1];
    var entry := entries[|entries| - 1];
    var before := ScanEntries(init, runningBundleIds, firstId);
    var k :| 0 <= k < |entries| && entries[k] == e;
    if k == |entries| - 1 {
      var app := MakeApplication(entry, runningBundleIds, before.nextId).value;
      assert app in ScanEntries(entries, runningBundleIds, firstId).applications;
    } else {
      assert init[k] == e;
      ScanEntriesComplete(init, runningBundleIds, firstId, e);
      var a :| a in before.applications && MakeApplication(e, runningBundleIds, a.id) == Some(a);
      assert a in ScanEntries(entries, runningBundleIds, firstId).applications;
    }
  }

  /** The directories searched, in order: system-wide, system-reserved and the user's own. */
  function ApplicationDirectories(home: string): seq<string>
  {
    ["/Applications", "/System/Applications", home + "/Applications"]
  }

  /** The top-level listing of `dir`; a directory without an enumerator is skipped. */
  function DirectoryListing(volumes: map<string, seq<DirectoryEntry>>, dir: string): seq<DirectoryEntry>
  {
    if dir in volumes then volumes[dir] else []
  }

  /** Every entry the scan visits, directory after directory. */
  function Candidates(volumes: map<string, seq<DirectoryEntry>>, dirs: seq<string>): seq<DirectoryEntry>
  {
    if dirs == [] then [] else Candidates(volumes, dirs[..|dirs| - 1]) + DirectoryListing(volumes, dirs[|dirs| - 1])
  }

  /** The bundle ids of the given processes: `Set(processes.compactMap { $0.bundleIdentifier })`. */
  function RunningBundleIds(processes: seq<RunningProcess>): (ids: set<string>)
    ensures forall b :: b in ids <==> exists p :: p in processes && p.bundleIdentifier == Some(b)
  {
    set p | p in processes && p.bundleIdentifier.Some? :: p.bundleIdentifier.value
  }

  /** `$0.name < $1.name` on applications. */
  predicate AppNameLess(a: InstalledApplication, b: InstalledApplication)
  {
    StringLess(a.name, b.name)
  }

  lemma AppNameLessStrictOrder()
    ensures StrictOrder(AppNameLess)
  {
    forall a ensures !AppNameLess(a, a) {
      StringLessIrreflexive(a.name);
    }
    forall a, b, c | AppNameLess(a, b) && AppNameLess(b, c) ensures AppNameLess(a, c) {
      StringLessTransitive(a.name, b.name, c.name);
    }
  }

  /** `applications.sorted { $0.name < $1.name }`. */
  function SortApplicationsByName(applications: seq<InstalledApplication>): (r: seq<InstalledApplication>)
    ensures multiset(r) == multiset(applications)
    ensures forall i, j :: 0 <= i < j < |r| ==> !StringLess(r[j].name, r[i].name)
  {
    AppNameLessStrictOrder();
    SortSorted(applications, AppNameLess);
    Sort(applications, AppNameLess)
  }

  /** The value `fetchInstalledApplications` returns for the given listings and running bundle ids. */
  function InstalledApplications(volumes: map<string, seq<DirectoryEntry>>, home: string,
                                 runningBundleIds: set<string>, firstId: Uuid): seq<InstalledApplication>
  {
    SortApplicationsByName(ScanEntries(Candidates(volumes, ApplicationDirectories(home)), runningBundleIds, firstId).applications)
  }

  /**
   * What the scan promises of every application it lists: it was found as an
   * `.app` entry of one of the three directories, it is running iff its bundle
   * id is among the given ones, and it can be uninstalled iff its path lies
   * outside /System/ and /usr/. So an application moved to the trash, and no
   * longer listed, does not come back.
   */
  lemma {:induction false} InstalledApplicationsProperties(volumes: map<string, seq<DirectoryEntry>>, home: string,
                                                           runningBundleIds: set<string>, firstId: Uuid)
    ensures forall a :: a in InstalledApplications(volumes, home, runningBundleIds, firstId) ==>
              && (exists d, e :: d in ApplicationDirectories(home) && e in DirectoryListing(volumes, d) && e.path == a.path &&
                                 IsAppBundlePath(e.path))
              && (a.isRunning <==> a.bundleIdentifier in runningBundleIds)
              && (a.canUninstall <==> CanUninstall(a.path))
  {
    var dirs := ApplicationDirectories(home);
    var scan := ScanEntries(Candidates(volumes, dirs), runningBundleIds, firstId);
    forall a | a in InstalledApplications(volumes, home, runningBundleIds, firstId)
      ensures exists d, e :: d in dirs && e in DirectoryListing(volumes, d) && e.path == a.path && IsAppBundlePath(e.path)
      ensures a.isRunning <==> a.bundleIdentifier in runningBundleIds
      ensures a.canUninstall <==> CanUninstall(a.path)
    {
      assert a in multiset(scan.applications);
      ScanEntriesSound(Candidates(volumes, dirs), runningBundleIds, firstId, a);
      var e :| e in Candidates(volumes, dirs) && IsAppBundlePath(e.path) && MakeApplication(e, runningBundleIds, a.id) == Some(a);
      CandidateFromDirectory(volumes, dirs, e);
    }
  }

  /**
   * And conversely: every `.app` entry of the three directories whose bundle
   * resolves is listed, as the application built from it.
   */
  lemma InstalledApplicationsComplete(volumes: map<string, seq<DirectoryEntry>>, home: string,
                                      runningBundleIds: set<string>, firstId: Uuid, d: string, e: DirectoryEntry)
    requires d in ApplicationDirectories(home) && e in DirectoryListing(volumes, d)
    requires IsAppBundlePath(e.path) && Resolves(e)
    ensures exists a :: a in InstalledApplications(volumes, home, runningBundleIds, firstId) && MakeApplication(e, runningBundleIds, a.id) == Some(a)
  {
    var dirs := ApplicationDirectories(home);
    var scan := ScanEntries(Candidates(volumes, dirs), runningBundleIds, firstId);
    CandidatesCoverListings(volumes, dirs, d, e);
    ScanEntriesComplete(Candidates(volumes, dirs), runningBundleIds, firstId, e);
    var a :| a in scan.applications && MakeApplication(e, runningBundleIds, a.id) == Some(a);
    assert a in multiset(scan.applications);
    assert a in multiset(InstalledApplications(volumes, home, runningBundleIds, firstId));
  }

  /** Every entry of every searched directory is a candidate. */
  lemma {:induction false} CandidatesCoverListings(volumes: map<string, seq<DirectoryEntry>>, dirs: seq<string>, d: string, e: DirectoryEntry)
    requires d in dirs && e in DirectoryListing(volumes, d)
    ensures e in Candidates(volumes, dirs)
  {
    var init := dirs[..|dirs| - 1];
    if d != dirs[|dirs| - 1] {
      assert d in init;
      CandidatesCoverListings(volumes, init, d, e);
    }
  }

  lemma {:induction false} CandidateFromDirectory(volumes: map<string, seq<DirectoryEntry>>, dirs: seq<string>, e: DirectoryEntry)
    requires e in Candidates(volumes, dirs)
    ensures exists d :: d in dirs && e in DirectoryListing(volumes, d)
  {
    var init := dirs[..|dirs| - 1];
    if e in Candidates(volumes, init) {
      CandidateFromDirectory(volumes, init, e);
      var d :| d in init && e in DirectoryListing(volumes, d);
      assert d in dirs;
    } else {
      assert e in DirectoryListing(volumes, dirs[|dirs| - 1]);
    }
  }
}
