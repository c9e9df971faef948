/**
 * The list the "Applications" tab shows (MissionBar/AllApplicationsView.swift):
 * the published applications, filtered by the search text and the
 * "User Apps Only" toggle, then sorted by the chosen option.
 */
module ApplicationsView {
  import opened Wrappers
  import opened Models
  import opened Sorting
  import opened Listing

  /** The sort menu's options; the raw values are the enum's `String` backing. */
  datatype AppSortOption = Name | Size | Status {

    function RawValue(): (raw: string)
    {
      match this
      case Name => "name"
      case Size => "size"
      case Status => "status"
    }

    /** The label shown in the sort menu. */
    function DisplayName(): (text: string)
    {
      match this
      case Name => "Name"
      case Size => "Size"
      case Status => "Status"
    }
  }

  /** `AppSortOption.allCases`: the menu entries in declaration order. */
  function AppSortOptionAllCases(): (cases: seq<AppSortOption>)
    ensures |cases| == 3 && cases[0] == Name && cases[1] == Size && cases[2] == Status
  {
    [Name, Size, Status]
  }

  lemma AppSortOptionAllCasesComplete(option: AppSortOption)
    ensures option in AppSortOptionAllCases()
  {
  }

  /** `AppSortOption(rawValue:)`. */
  function AppSortOptionFromRawValue(raw: string): (option: Option<AppSortOption>)
    ensures option.Some? ==> option.value.RawValue() == raw
    ensures option.None? ==> forall o: AppSortOption :: o.RawValue() != raw
  {
    if raw == "name" then Some(Name)
    else if raw == "size" then Some(Size)
    else if raw == "status" then Some(Status)
    else None
  }

  lemma AppSortOptionRawValueRoundTrip(option: AppSortOption)
    ensures AppSortOptionFromRawValue(option.RawValue()) == Some(option)
  {
  }

  /** No two menu entries carry the same label. */
  lemma AppSortOptionDisplayNamesDistinct(a: AppSortOption, b: AppSortOption)
    ensures a.DisplayName() == b.DisplayName() ==> a == b
  {
  }

  /** The `.size` comparator: larger bundles first. */
  predicate AppSizeGreater(a: InstalledApplication, b: InstalledApplication)
  {
    a.storageSize > b.storageSize
  }

  /** The `.status` comparator: running before not running, then by name. */
  predicate AppStatusBefore(a: InstalledApplication, b: InstalledApplication)
  {
    if a.isRunning != b.isRunning then a.isRunning && !b.isRunning
    else StringLess(a.name, b.name)
  }

  /** The comparator the `switch sortBy` selects. */
  function AppComparator(sortBy: AppSortOption): (InstalledApplication, InstalledApplication) -> bool
  {
    match sortBy
    case Name => AppNameLess
    case Size => AppSizeGreater
    case Status => AppStatusBefore
  }

  /** Every comparator the view can select is a strict order, as `sorted(by:)` demands. */
  lemma AppComparatorStrictOrder(sortBy: AppSortOption)
    ensures StrictOrder(AppComparator(sortBy))
  {
    match sortBy
    case Name => AppNameLessStrictOrder();
    case Size =>
    case Status =>
      forall a ensures !AppStatusBefore(a, a) {
        StringLessIrreflexive(a.name);
      }
      forall a, b, c | AppStatusBefore(a, b) && AppStatusBefore(b, c) ensures AppStatusBefore(a, c) {
        if a.isRunning == b.isRunning == c.isRunning {
          StringLessTransitive(a.name, b.name, c.name);
        }
      }
  }

  /** Whether the search text and the toggle let `app` through. */
  predicate Selected(app: InstalledApplication, searchText: string, showOnlyUserApps: bool,
                     matches: (string, string) -> bool)
  {
    && (searchText == [] || matches(app.name, searchText))
    && (!showOnlyUserApps || app.canUninstall)
  }

  /**
   * `filteredApplications`. `matches(name, text)` stands for
   * `name.localizedCaseInsensitiveContains(text)`.
   */
  function FilteredApplications(apps: seq<InstalledApplication>, searchText: string, showOnlyUserApps: bool,
                                sortBy: AppSortOption, matches: (string, string) -> bool): (r: seq<InstalledApplication>)
    // a permutation of the selected applications: nothing else is dropped, added or duplicated
    ensures forall a :: multiset(r)[a] == if Selected(a, searchText, showOnlyUserApps, matches) then multiset(apps)[a] else 0
    ensures sortBy == Name ==>
              forall i, j :: 0 <= i < j < |r| ==> r[i].name == r[j].name || StringLess(r[i].name, r[j].name)
    ensures sortBy == Size ==>
              forall i, j :: 0 <= i < j < |r| ==> r[i].storageSize >= r[j].storageSize
    ensures sortBy == Status ==>
              forall i, j :: 0 <= i < j < |r| ==>
                (r[j].isRunning ==> r[i].isRunning) &&
                (r[i].isRunning == r[j].isRunning ==> r[i].name == r[j].name || StringLess(r[i].name, r[j].name))
  {
    var bySearch := if searchText != [] then Filter(apps, (a: InstalledApplication) => matches(a.name, searchText)) else apps;
    var byOwner := if showOnlyUserApps then Filter(bySearch, (a: InstalledApplication) => a.canUninstall) else bySearch;
    var sorted := Sort(byOwner, AppComparator(sortBy));
    AppComparatorStrictOrder(sortBy);
    SortSorted(byOwner, AppComparator(sortBy));
    forall i, j | 0 <= i < j < |sorted| ensures StringLess(sorted[i].name, sorted[j].name) || sorted[i].name == sorted[j].name || StringLess(sorted[j].name, sorted[i].name) {
      StringLessTotal(sorted[i].name, sorted[j].name);
    }
    sorted
  }

  /** With no search text and the toggle off, the tab shows every application. */
  lemma NoFilterShowsAll(apps: seq<InstalledApplication>, sortBy: AppSortOption, matches: (string, string) -> bool)
    ensures multiset(FilteredApplications(apps, "", false, sortBy, matches)) == multiset(apps)
  {
    var r := FilteredApplications(apps, "", false, sortBy, matches);
    forall a ensures multiset(r)[a] == multiset(apps)[a] {
      assert Selected(a, "", false, matches);
    }
  }

  /** With search text, every shown application matches it, and every matching one that passes the toggle is shown. */
  lemma SearchSelectsMatches(apps: seq<InstalledApplication>, searchText: string, showOnlyUserApps: bool,
                             sortBy: AppSortOption, matches: (string, string) -> bool)
    requires searchText != []
    ensures var r := FilteredApplications(apps, searchText, showOnlyUserApps, sortBy, matches);
            && (forall a :: a in r ==> matches(a.name, searchText))
            && (forall a :: a in apps && matches(a.name, searchText) && (!showOnlyUserApps || a.canUninstall) ==> a in r)
  {
    var r := FilteredApplications(apps, searchText, showOnlyUserApps, sortBy, matches);
    forall a | a in r ensures matches(a.name, searchText) {
      assert multiset(r)[a] > 0;
    }
    forall a | a in apps && matches(a.name, searchText) && (!showOnlyUserApps || a.canUninstall) ensures a in r {
      assert multiset(r)[a] == multiset(apps)[a] > 0;
    }
  }

  /** With the toggle on, every shown application can be uninstalled; with it off, none is dropped for that reason. */
  lemma UserAppsToggle(apps: seq<InstalledApplication>, searchText: string, sortBy: AppSortOption,
                       matches: (string, string) -> bool)
    ensures forall a :: a in FilteredApplications(apps, searchText, true, sortBy, matches) ==> a.canUninstall
    ensures forall a :: a in apps && !a.canUninstall && (searchText == [] || matches(a.name, searchText)) ==>
              a in FilteredApplications(apps, searchText, false, sortBy, matches)
  {
    var on := FilteredApplications(apps, searchText, true, sortBy, matches);
    forall a | a in on ensures a.canUninstall {
      assert multiset(on)[a] > 0;
    }
    var off := FilteredApplications(apps, searchText, false, sortBy, matches);
    forall a | a in apps && !a.canUninstall && (searchText == [] || matches(a.name, searchText)) ensures a in off {
      assert multiset(off)[a] == multiset(apps)[a] > 0;
    }
  }
}
