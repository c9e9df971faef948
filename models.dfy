/** The record and enum types of MissionBar/Models.swift. */
module Models {
  import opened Wrappers

  /** Swift's `Int32`, the type of a process identifier. */
  type Int32 = x: int | -0x8000_0000 <= x < 0x8000_0000

  /** A UUID. Only identity matters; `UuidSource` hands out fresh ones. */
  type Uuid = nat

  /** One currently running, user-visible process. The icon is not modelled. */
  datatype RunningProcess = RunningProcess(
    id: Uuid,
    pid: Int32,
    name: string,
    bundleIdentifier: Option<string>,  // optional for a process
    cpuUsage: real,
    memoryUsage: nat,                  // bytes
    isKillable: bool)

  /** One application bundle on disk. The icon is not modelled. */
  datatype InstalledApplication = InstalledApplication(
    id: Uuid,
    name: string,
    bundleIdentifier: string,          // mandatory for an application
    version: Option<string>,
    path: string,
    storageSize: nat,                  // bytes
    isRunning: bool,
    canUninstall: bool)

  /** The two tabs of the menu-bar window, in declaration order. */
  datatype AppTab = Running | All {

    function RawValue(): (raw: string)
    {
      match this
      case Running => "Running"
      case All => "Applications"
    }

    function Icon(): (symbol: string)
    {
      match this
      case Running => "play.circle"
      case All => "square.grid.2x2"
    }
  }

  /** `AppTab.allCases`: the cases in declaration order. */
  function AppTabAllCases(): (cases: seq<AppTab>)
    ensures |cases| == 2 && cases[0] == Running && cases[1] == All
  {
    [Running, All]
  }

  lemma AppTabAllCasesComplete(tab: AppTab)
    ensures tab in AppTabAllCases()
  {
  }

  /** `AppTab(rawValue:)`, the failable initialiser of a String-backed enum. */
  function AppTabFromRawValue(raw: string): (tab: Option<AppTab>)
    ensures tab.Some? ==> tab.value.RawValue() == raw
    ensures tab.None? ==> forall t: AppTab :: t.RawValue() != raw
  {
    if raw == "Running" then Some(Running)
    else if raw == "Applications" then Some(All)
    else None
  }

  lemma AppTabRawValueRoundTrip(tab: AppTab)
    ensures AppTabFromRawValue(tab.RawValue()) == Some(tab)
  {
  }

  /** Each tab has its own raw value and its own icon. */
  lemma AppTabValuesDistinct(a: AppTab, b: AppTab)
    ensures a.RawValue() == b.RawValue() ==> a == b
    ensures a.Icon() == b.Icon() ==> a == b
  {
  }

  /** The supply of fresh UUIDs: every id handed out so far is below `next`. */
  class UuidSource {
    var next: Uuid

    constructor ()
      ensures next == 0
    {
      next := 0;
    }

    method Fresh() returns (id: Uuid)
      modifies this
      ensures id == old(next) && next == old(next) + 1
    {
      id := next;
      next := next + 1;
    }
  }
}
