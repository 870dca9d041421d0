/**
 * The types of server/device.go, and the process-wide state of the server
 * (the registry `deviceCenter`, the csv directory that `mu` guards, and the
 * loaded `setting`) as one object.
 */
module Device {
  import opened Common

  /**
   * One device's entry in every per-device map of `devices`, plus the
   * `LatestSet` map that the handlers write but the struct does not declare.
   * Times are whole seconds.
   */
  datatype Record = Record(
    deviceSet: int,          // DeviceSet: the number of the set being recorded
    deviceTime: int,         // DeviceTime: last contact
    isNewDeviceSet: bool,    // IsNewDeviceSet: a rotation not yet acknowledged
    isDeviceRecording: bool, // IsDeviceRecording
    isDeviceCheckedIn: bool, // IsDeviceCheckedIn
    latestSet: Option<int>)  // LatestSet: None stands for Go's zero time

  /** `chart`: a histogram of events per bucket key. */
  datatype Chart = Chart(deviceName: string, timeMeasure: string, axises: map<int, int>)

  /** `chartRow` as the handlers build it. */
  datatype ChartRow = ChartRow(deviceName: string, numOfSets: int, latestSet: Option<int>)

  /** `settings`; `timeOut` is in seconds. */
  datatype Settings = Settings(ipAddress: string, port: string, password: string, https: bool, timeOut: int)

  ghost predicate Distinct(names: seq<string>)
  {
    forall i, j :: 0 <= i < j < |names| ==> names[i] != names[j]
  }

  /** `DeviceNames` lists every device of the maps exactly once, and nothing else. */
  ghost predicate Registered(names: seq<string>, recs: map<string, Record>)
  {
    && Distinct(names)
    && (forall i :: 0 <= i < |names| ==> names[i] in recs)
    && (forall n :: n in recs ==> n in names)
  }

  /** Every set number is at least 1: it starts at 1 and is only incremented. */
  ghost predicate SetsPositive(recs: map<string, Record>)
  {
    forall n :: n in recs ==> recs[n].deviceSet >= 1
  }

  class Server {
    /** `deviceCenter.DeviceNames`, in registration order. */
    var names: seq<string>
    /** The per-device maps of `deviceCenter`, keyed by device name. */
    var recs: map<string, Record>
    /** The active log `csv/<name>.csv` of each device that has one. */
    var active: map<string, string>
    /** The archive directory `csv/sets/<name>/` of each device that has one: file name to contents. */
    var sets: map<string, map<string, string>>
    /** The loaded `setting`. */
    var setting: Settings

    ghost predicate Valid()
      reads this
    {
      Registered(names, recs) && SetsPositive(recs)
    }

    /** The state right after `initGlobalVariables` made the empty maps, over an existing csv directory. */
    constructor (setting: Settings, active: map<string, string>, sets: map<string, map<string, string>>)
      ensures Valid()
      ensures this.names == [] && this.recs == map[]
      ensures this.active == active && this.sets == sets && this.setting == setting
    {
      this.names := [];
      this.recs := map[];
      this.active := active;
      this.sets := sets;
      this.setting := setting;
    }
  }
}
