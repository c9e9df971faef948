/**
 * The list the "Running" tab shows (MissionBar/RunningProcessesView.swift):
 * the published processes, filtered by the search text, then sorted by the
 * chosen option.
 */
module ProcessesView {
  import opened Wrappers
  import opened Models
  import opened Sorting
  import opened Listing

  /** The sort menu's options; the raw values are the enum's `String` backing. */
  datatype ProcessSortOption = Name | Cpu | Memory {

    function RawValue(): (raw: string)
    {
      match this
      case Name => "name"
      case Cpu => "cpu"
      case Memory => "memory"
    }

    /** The label shown in the sort menu. */
    function DisplayName(): (text: string)
    {
      match this
      case Name => "Name"
      case Cpu => "CPU"
      case Memory => "Memory"
    }
  }

  /** `ProcessSortOption.allCases`: the menu entries in declaration order. */
  function ProcessSortOptionAllCases(): (cases: seq<ProcessSortOption>)
    ensures |cases| == 3 && cases[0] == Name && cases[1] == Cpu && cases[2] == Memory
  {
    [Name, Cpu, Memory]
  }

  lemma ProcessSortOptionAllCasesComplete(option: ProcessSortOption)
    ensures option in ProcessSortOptionAllCases()
  {
  }

  /** `ProcessSortOption(rawValue:)`. */
  function ProcessSortOptionFromRawValue(raw: string): (option: Option<ProcessSortOption>)
    ensures option.Some? ==> option.value.RawValue() == raw
    ensures option.None? ==> forall o: ProcessSortOption :: o.RawValue() != raw
  {
    if raw == "name" then Some(Name)
    else if raw == "cpu" then Some(Cpu)
    else if raw == "memory" then Some(Memory)
    else None
  }

  lemma ProcessSortOptionRawValueRoundTrip(option: ProcessSortOption)
    ensures ProcessSortOptionFromRawValue(option.RawValue()) == Some(option)
  {
  }

  /** No two menu entries carry the same label. */
  lemma ProcessSortOptionDisplayNamesDistinct(a: ProcessSortOption, b: ProcessSortOption)
    ensures a.DisplayName() == b.DisplayName() ==> a == b
  {
  }

  /** The `.cpu` comparator: busier processes first. */
  predicate ProcessCpuGreater(a: RunningProcess, b: RunningProcess)
  {
    a.cpuUsage > b.cpuUsage
  }

  /** The `.memory` comparator: larger footprints first. */
  predicate ProcessMemoryGreater(a: RunningProcess, b: RunningProcess)
  {
    a.memoryUsage > b.memoryUsage
  }

  /** The comparator the `switch sortBy` selects. */
  function ProcessComparator(sortBy: ProcessSortOption): (RunningProcess, RunningProcess) -> bool
  {
    match sortBy
    case Name => ProcessNameLess
    case Cpu => ProcessCpuGreater
    case Memory => ProcessMemoryGreater
  }

  /** Every comparator the view can select is a strict order, as `sorted(by:)` demands. */
  lemma ProcessComparatorStrictOrder(sortBy: ProcessSortOption)
    ensures StrictOrder(ProcessComparator(sortBy))
  {
    if sortBy == Name {
      ProcessNameLessStrictOrder();
    }
  }

  /** Whether the search text lets `process` through. */
  predicate SearchSelects(process: RunningProcess, searchText: string, matches: (string, string) -> bool)
  {
    searchText == [] || matches(process.name, searchText)
  }

  /**
   * `filteredProcesses`. `matches(name, text)` stands for
   * `name.localizedCaseInsensitiveContains(text)`.
   */
  function FilteredProcesses(processes: seq<RunningProcess>, searchText: string, sortBy: ProcessSortOption,
                             matches: (string, string) -> bool): (r: seq<RunningProcess>)
    // a permutation of the matching processes: nothing else is dropped, added or duplicated
    ensures forall p :: multiset(r)[p] == if SearchSelects(p, searchText, matches) then multiset(processes)[p] else 0
    ensures sortBy == Name ==>
              forall i, j :: 0 <= i < j < |r| ==> r[i].name == r[j].name || StringLess(r[i].name, r[j].name)
    ensures sortBy == Cpu ==> forall i, j :: 0 <= i < j < |r| ==> r[i].cpuUsage >= r[j].cpuUsage
    ensures sortBy == Memory ==> forall i, j :: 0 <= i < j < |r| ==> r[i].memoryUsage >= r[j].memoryUsage
  {
    var filtered := if searchText == [] then processes
                    else Filter(processes, (p: RunningProcess) => matches(p.name, searchText));
    var sorted := Sort(filtered, ProcessComparator(sortBy));
    ProcessComparatorStrictOrder(sortBy);
    SortSorted(filtered, ProcessComparator(sortBy));
    forall i, j | 0 <= i < j < |sorted| ensures StringLess(sorted[i].name, sorted[j].name) || sorted[i].name == sorted[j].name || StringLess(sorted[j].name, sorted[i].name) {
      StringLessTotal(sorted[i].name, sorted[j].name);
    }
    sorted
  }

  /** With no search text, the tab shows exactly the published processes, reordered. */
  lemma EmptySearchShowsAll(processes: seq<RunningProcess>, sortBy: ProcessSortOption, matches: (string, string) -> bool)
    ensures multiset(FilteredProcesses(processes, "", sortBy, matches)) == multiset(processes)
    ensures |FilteredProcesses(processes, "", sortBy, matches)| == |processes|
  {
    var r := FilteredProcesses(processes, "", sortBy, matches);
    forall p ensures multiset(r)[p] == multiset(processes)[p] {
      assert SearchSelects(p, "", matches);
    }
    assert |multiset(r)| == |multiset(processes)|;
  }

  /** With search text, every shown process matches it and no matching process is dropped. */
  lemma SearchShowsExactlyMatches(processes: seq<RunningProcess>, searchText: string, sortBy: ProcessSortOption,
                                  matches: (string, string) -> bool)
    requires searchText != []
    ensures var r := FilteredProcesses(processes, searchText, sortBy, matches);
            forall p :: p in r <==> p in processes && matches(p.name, searchText)
  {
    var r := FilteredProcesses(processes, searchText, sortBy, matches);
    forall p ensures p in r <==> p in processes && matches(p.name, searchText) {
      assert p in r <==> multiset(r)[p] > 0;
      assert p in processes <==> multiset(processes)[p] > 0;
    }
  }
}
