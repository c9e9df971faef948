/** The memory estimate of `getMemoryUsage` (MissionBar/SystemMonitor.swift). */
module MemoryUsage {
  import opened Wrappers

  /** The fields of `proc_taskinfo` the monitor reads. */
  datatype TaskInfo = TaskInfo(totalUser: nat, totalSystem: nat, residentSize: nat, virtualSize: nat)

  /** Resident size plus an eighth of the non-resident virtual size, capped at a quarter of the resident size. */
  function MemoryEstimate(residentSize: nat, virtualSize: nat): (bytes: nat)
    ensures virtualSize > residentSize ==> residentSize <= bytes <= residentSize + residentSize / 4
    ensures virtualSize > residentSize ==> bytes <= residentSize + (virtualSize - residentSize) / 8
    ensures virtualSize > residentSize ==>
              bytes == residentSize + residentSize / 4 || bytes == residentSize + (virtualSize - residentSize) / 8
    ensures virtualSize <= residentSize ==> bytes == residentSize
  {
    if virtualSize > residentSize then
      var allocatedVirtual := virtualSize - residentSize;
      var additionalMemory := if allocatedVirtual / 8 <= residentSize / 4 then allocatedVirtual / 8 else residentSize / 4;
      residentSize + additionalMemory
    else residentSize
  }

  /**
   * `getMemoryUsage`, given the results of its two queries: the
   * all-info query and the basic one (`None` where a query failed).
   */
  function GetMemoryUsage(allInfo: Option<TaskInfo>, basicInfo: Option<TaskInfo>): (bytes: nat)
    ensures allInfo.Some? ==> bytes == MemoryEstimate(allInfo.value.residentSize, allInfo.value.virtualSize)
    ensures allInfo.None? && basicInfo.Some? ==> bytes == basicInfo.value.residentSize
    ensures allInfo.None? && basicInfo.None? ==> bytes == 0
  {
    match allInfo
    case Some(info) => MemoryEstimate(info.residentSize, info.virtualSize)
    case None =>
      match basicInfo
      case Some(info) => info.residentSize
      case None => 0
  }

  /** The estimate is never below the resident size of the query that produced it. */
  lemma MemoryNeverBelowResident(allInfo: Option<TaskInfo>, basicInfo: Option<TaskInfo>)
    requires allInfo.Some? || basicInfo.Some?
    ensures GetMemoryUsage(allInfo, basicInfo) >=
              (if allInfo.Some? then allInfo.value.residentSize else basicInfo.value.residentSize)
  {
  }
}
