/**
 * The device-facing and dashboard-facing handlers of server/api.go, each as
 * a method on the server state: check-in, recording mode, set rotation,
 * readings, device status and the status summary.
 */
module Api {
  import opened Common
  import opened Text
  import opened Device
  import opened Helpers
  import opened Archive

  // ---------------------------------------------------------------------------
  // Check-in

  /** The entry a device gets the first time it checks in. */
  function NewDevice(now: int): (r: Record)
    ensures r.deviceSet == 1 && r.deviceTime == now && r.latestSet.None?
    ensures !r.isNewDeviceSet && r.isDeviceRecording && r.isDeviceCheckedIn
  {
    Record(1, now, false, true, true, None)
  }

  /**
   * `os.MkdirAll("csv/sets/<name>")`: an existing directory is left as it is;
   * the empty name joins to "csv/sets" itself, which exists.
   */
  function MkdirAll(sets: map<string, map<string, string>>, name: string): (out: map<string, map<string, string>>)
    ensures name != "" ==> name in out && out[name] == (if name in sets then sets[name] else map[])
    ensures forall n :: n in sets ==> n in out && out[n] == sets[n]
    ensures forall n :: n in out && n != name ==> n in sets
  {
    if name == "" || name in sets then sets else sets[name := map[]]
  }

  /**
   * `deviceCheckInHandler`: a new name is registered recording, checked in,
   * in set 1; a known name that is not checked in is checked in again; a
   * checked-in name is refused. A failing database statement exits.
   */
  method DeviceCheckIn(s: Server, req: Request, deviceName: string, now: int, db: Db) returns (resp: Response)
    requires s.Valid()
    modifies s`names, s`recs, s`sets
    ensures s.Valid()
    ensures HandlePostRequests(req, s.setting).Some? ==>
              resp == HandlePostRequests(req, s.setting).value && unchanged(s)
    ensures HandlePostRequests(req, s.setting).None? && deviceName in old(s.recs)
              && old(s.recs)[deviceName].isDeviceCheckedIn ==>
              resp == Reply(StatusNotAcceptable, Plain("Already checked in")) && unchanged(s)
    ensures HandlePostRequests(req, s.setting).None? && deviceName in old(s.recs)
              && !old(s.recs)[deviceName].isDeviceCheckedIn ==>
              var r := old(s.recs)[deviceName].(deviceTime := now, isDeviceCheckedIn := true);
              && s.names == old(s.names)
              && s.recs == old(s.recs)[deviceName := r]
              && (ExecTxQuery(db).err ==> resp == Exited && s.sets == old(s.sets))
              && (!ExecTxQuery(db).err ==>
                    && resp == Reply(StatusOK, CheckInPayload(r.isNewDeviceSet, r.isDeviceRecording, r.deviceSet))
                    && s.sets == MkdirAll(old(s.sets), deviceName))
    ensures HandlePostRequests(req, s.setting).None? && deviceName !in old(s.recs) ==>
              && s.names == old(s.names) + [deviceName]
              && s.recs == old(s.recs)[deviceName := NewDevice(now)]
              && (ExecTxQuery(db).err ==> resp == Exited && s.sets == old(s.sets))
              && (!ExecTxQuery(db).err ==>
                    && resp == Reply(StatusOK, CheckInPayload(false, true, 1))
                    && s.sets == MkdirAll(old(s.sets), deviceName))
  {
    var gate := HandlePostRequests(req, s.setting);
    if gate.Some? {
      return gate.value;
    }
    var i := 0;
    while i < |s.names| && s.names[i] != deviceName
      invariant 0 <= i <= |s.names|
      invariant deviceName !in s.names[..i]
    {
      i := i + 1;
    }
    if i == |s.names| {
      assert s.names[..i] == s.names;
    }
    var doesNameExist := i < |s.names|;
    var alreadyCheckedIn := doesNameExist && s.recs[deviceName].isDeviceCheckedIn;
    if alreadyCheckedIn {
      return Reply(StatusNotAcceptable, Plain("Already checked in"));
    }
    var tx := ExecTxQuery(db);
    if doesNameExist {
      s.recs := s.recs[deviceName := s.recs[deviceName].(deviceTime := now, isDeviceCheckedIn := true)];
    } else {
      s.names := s.names + [deviceName];
      s.recs := s.recs[deviceName := NewDevice(now)];
    }
    if tx.err {
      return Exited;
    }
    var r := s.recs[deviceName];
    resp := Reply(StatusOK, CheckInPayload(r.isNewDeviceSet, r.isDeviceRecording, r.deviceSet));
    s.sets := MkdirAll(s.sets, deviceName);
  }

  // ---------------------------------------------------------------------------
  // Recording mode

  /** The maps after setting the recording flag of every registered device named in `devices` to `on`. */
  function WithRecording(recs: map<string, Record>, devices: seq<string>, on: bool): (out: map<string, Record>)
    ensures out.Keys == recs.Keys
  {
    map n | n in recs :: if n in devices then recs[n].(isDeviceRecording := on) else recs[n]
  }

  /** The `IsDeviceRecording` map that `recordModeHandler` sends back. */
  function RecordingFlags(recs: map<string, Record>): (flags: map<string, bool>)
    ensures flags.Keys == recs.Keys
    ensures forall n :: n in flags ==> flags[n] == recs[n].isDeviceRecording
  {
    map n | n in recs :: recs[n].isDeviceRecording
  }

  /**
   * After a change of mode, the named registered devices record exactly when
   * `on`, every other device keeps its flag, and no other field moves.
   */
  lemma WithRecordingFlags(recs: map<string, Record>, devices: seq<string>, on: bool, n: string)
    requires n in recs
    ensures RecordingFlags(WithRecording(recs, devices, on))[n] == if n in devices then on else recs[n].isDeviceRecording
    ensures WithRecording(recs, devices, on)[n].(isDeviceRecording := recs[n].isDeviceRecording) == recs[n]
  {
  }

  /** Repeating a change of mode changes nothing more. */
  lemma WithRecordingIdempotent(recs: map<string, Record>, devices: seq<string>, on: bool)
    ensures WithRecording(WithRecording(recs, devices, on), devices, on) == WithRecording(recs, devices, on)
  {
  }

  /** `r.Form.Get(key)`: the first value given for the key, or "" when there is none. */
  function FormGet(values: seq<string>): (v: string)
    ensures values == [] ==> v == ""
    ensures values != [] ==> v == values[0]
  {
    if values == [] then "" else values[0]
  }

  /**
   * `recordModeHandler`, with the values of "record-device" and the value of
   * "record-mode": every registered device named is set to record exactly
   * when the mode is "true"; unregistered names are skipped.
   */
  method RecordMode(s: Server, req: Request, record: string, devices: seq<string>) returns (resp: Response)
    requires s.Valid()
    modifies s`recs
    ensures s.Valid()
    ensures HandlePostRequests(req, s.setting).Some? ==>
              resp == HandlePostRequests(req, s.setting).value && unchanged(s)
    ensures HandlePostRequests(req, s.setting).None? && FormGet(devices) == "" ==>
              resp == Reply(StatusNotAcceptable, Plain("Must select at least one device to change mode for"))
              && unchanged(s)
    ensures HandlePostRequests(req, s.setting).None? && FormGet(devices) != "" && record == "" ==>
              resp == Reply(StatusNotAcceptable, Plain("Must choose whether to record or not")) && unchanged(s)
    ensures HandlePostRequests(req, s.setting).None? && FormGet(devices) != "" && record != "" ==>
              && s.recs == WithRecording(old(s.recs), devices, record == "true")
              && resp == Reply(StatusOK, RecordingPayload(RecordingFlags(s.recs)))
  {
    var gate := HandlePostRequests(req, s.setting);
    if gate.Some? {
      return gate.value;
    }
    if FormGet(devices) == "" {
      return Reply(StatusNotAcceptable, Plain("Must select at least one device to change mode for"));
    }
    if record == "" {
      return Reply(StatusNotAcceptable, Plain("Must choose whether to record or not"));
    }
    s.recs := SetRecording(s.recs, devices, record == "true");
    resp := Reply(StatusOK, RecordingPayload(RecordingFlags(s.recs)));
  }

  /** The loop of `recordModeHandler` over the requested names, on the maps. */
  method SetRecording(before: map<string, Record>, devices: seq<string>, on: bool) returns (recs: map<string, Record>)
    ensures recs == WithRecording(before, devices, on)
  {
    recs := before;
    var i := 0;
    while i < |devices|
      invariant 0 <= i <= |devices|
      invariant recs.Keys == before.Keys
      invariant forall n :: n in before ==>
                  recs[n] == if n in devices[..i] then before[n].(isDeviceRecording := on) else before[n]
    {
      var n := devices[i];
      assert devices[..i + 1] == devices[..i] + [n];
      if n in recs {
        recs := recs[n := recs[n].(isDeviceRecording := on)];
      }
      i := i + 1;
    }
    assert devices[..i] == devices;
  }

  // ---------------------------------------------------------------------------
  // New sets

  /** The reasons `newSetHandler` gives for skipping a device, each after the device's name. */
  const NotRegistered := " is not registered <br /> "
  const StillRecording := " is recording.  Can only start new set when device is NOT recording <br /> "
  const StillPending := " still hasn't reset to new set <br /> "

  /**
   * What `newSetHandler` has built after some of the requested devices: the
   * state, the accumulated message and chart rows; or the process has
   * exited, leaving the registry, the logs and the archives as the devices
   * before the failing one left them.
   */
  datatype Batch =
    | Batch(recs: map<string, Record>, active: map<string, string>, sets: map<string, map<string, string>>,
            message: string, chartArray: seq<ChartRow>)
    | Fatal(recs: map<string, Record>, active: map<string, string>, sets: map<string, map<string, string>>)

  /**
   * The handler's treatment of one requested device: a message for a device
   * that is unregistered, recording, or still in a new set; otherwise its
   * active log is copied into the next archive, emptied, and the device is
   * moved to a new set. A missing directory or log, or an archive number
   * with no successor, exits before anything of this device is touched.
   */
  ghost function NewSetStep(b: Batch, deviceName: string, now: int): (after: Batch)
    requires b.Batch?
    ensures after.recs.Keys == b.recs.Keys && after.active.Keys == b.active.Keys && after.sets.Keys == b.sets.Keys
    ensures after.Fatal? ==> after.recs == b.recs && after.active == b.active && after.sets == b.sets
  {
    if deviceName !in b.recs then
      b.(message := b.message + deviceName + NotRegistered)
    else if b.recs[deviceName].isDeviceRecording then
      b.(message := b.message + deviceName + StillRecording)
    else if b.recs[deviceName].isNewDeviceSet then
      b.(message := b.message + deviceName + StillPending)
    else if deviceName !in b.sets || deviceName !in b.active then Fatal(b.recs, b.active, b.sets)
    else
      match NextNumber(b.sets[deviceName].Keys)
      case None => Fatal(b.recs, b.active, b.sets)
      case Some(n) => Rotate(b, deviceName, n, now)
  }

  /** The rotation of one device into archive `n`; every other device is left as it was. */
  function Rotate(b: Batch, deviceName: string, n: int, now: int): (after: Batch)
    requires b.Batch? && deviceName in b.recs && deviceName in b.active && deviceName in b.sets
    ensures after.Batch?
    ensures after.recs.Keys == b.recs.Keys && after.active.Keys == b.active.Keys && after.sets.Keys == b.sets.Keys
    ensures forall o :: o in b.recs && o != deviceName ==> after.recs[o] == b.recs[o]
    ensures forall o :: o in b.active && o != deviceName ==> after.active[o] == b.active[o]
    ensures forall o :: o in b.sets && o != deviceName ==> after.sets[o] == b.sets[o]
  {
    var r := b.recs[deviceName];
    Batch(b.recs[deviceName := r.(isNewDeviceSet := true, deviceSet := r.deviceSet + 1, latestSet := Some(now))],
          b.active[deviceName := ""],
          b.sets[deviceName := b.sets[deviceName][ArchiveName(n) := b.active[deviceName]]],
          b.message,
          b.chartArray + [ChartRow(deviceName, n, Some(now))])
  }

  /** The request for a registered device that is neither recording nor pending, and has its directory and log. */
  predicate Rotatable(b: Batch, deviceName: string)
    requires b.Batch?
  {
    && deviceName in b.recs && !b.recs[deviceName].isDeviceRecording && !b.recs[deviceName].isNewDeviceSet
    && deviceName in b.sets && deviceName in b.active
  }

  /** A device that is unregistered, recording or pending adds exactly its one reason to the message, and nothing else changes. */
  lemma NewSetStepRejects(b: Batch, deviceName: string, now: int)
    requires b.Batch?
    requires deviceName !in b.recs || b.recs[deviceName].isDeviceRecording || b.recs[deviceName].isNewDeviceSet
    ensures var after := NewSetStep(b, deviceName, now);
            && after.Batch?
            && after.recs == b.recs && after.active == b.active && after.sets == b.sets
            && after.chartArray == b.chartArray
            && (deviceName !in b.recs ==>
                  after.message == b.message + deviceName + NotRegistered)
            && (deviceName in b.recs && b.recs[deviceName].isDeviceRecording ==>
                  after.message == b.message + deviceName + StillRecording)
            && (deviceName in b.recs && !b.recs[deviceName].isDeviceRecording ==>
                  after.message == b.message + deviceName + StillPending)
  {
  }

  /**
   * A registered device that is neither recording nor pending exits exactly
   * when its directory or its log is missing or no next number exists.
   * Otherwise it is rotated: it is marked pending in the next set with the
   * rotation time, its log goes to a fresh archive and is emptied, its other
   * archives stay, and its row is added to the chart; the message is kept.
   */
  lemma NewSetStepRotates(b: Batch, deviceName: string, now: int)
    requires b.Batch? && deviceName in b.recs
    requires !b.recs[deviceName].isDeviceRecording && !b.recs[deviceName].isNewDeviceSet
    ensures var after := NewSetStep(b, deviceName, now);
            after.Fatal? <==>
              deviceName !in b.sets || deviceName !in b.active || NextNumber(b.sets[deviceName].Keys).None?
    ensures var after := NewSetStep(b, deviceName, now);
            after.Batch? ==>
              var r := b.recs[deviceName];
              var n := NextNumber(b.sets[deviceName].Keys).value;
              && after.recs[deviceName].isNewDeviceSet && after.recs[deviceName].latestSet == Some(now)
              && after.recs[deviceName].deviceSet == r.deviceSet + 1
              && after.recs[deviceName].deviceTime == r.deviceTime
              && !after.recs[deviceName].isDeviceRecording
              && after.recs[deviceName].isDeviceCheckedIn == r.isDeviceCheckedIn
              && ArchiveName(n) !in b.sets[deviceName]
              && after.sets[deviceName].Keys == b.sets[deviceName].Keys + {ArchiveName(n)}
              && after.sets[deviceName][ArchiveName(n)] == b.active[deviceName]
              && (forall f :: f in b.sets[deviceName] ==> after.sets[deviceName][f] == b.sets[deviceName][f])
              && after.active[deviceName] == ""
              && after.message == b.message
              && after.chartArray == b.chartArray + [ChartRow(deviceName, n, Some(now))]
  {
    if deviceName in b.sets && deviceName in b.active && NextNumber(b.sets[deviceName].Keys).Some? {
      NextNumberFresh(b.sets[deviceName].Keys);
    }
  }

  /** A step touches no other device: its entry, its log and its archives stay as they were. */
  lemma NewSetStepOthersUntouched(b: Batch, deviceName: string, now: int, other: string)
    requires b.Batch? && other != deviceName
    ensures var after := NewSetStep(b, deviceName, now);
            && (other in b.recs ==> after.recs[other] == b.recs[other])
            && (other in b.active ==> after.active[other] == b.active[other])
            && (other in b.sets ==> after.sets[other] == b.sets[other])
  {
    if Rotatable(b, deviceName) && NextNumber(b.sets[deviceName].Keys).Some? {
      assert NewSetStep(b, deviceName, now) == Rotate(b, deviceName, NextNumber(b.sets[deviceName].Keys).value, now);
    }
  }

  /** The requested devices treated in order, from `b`. */
  ghost function NewSetBatch(b: Batch, devices: seq<string>, now: int): (after: Batch)
    requires b.Batch?
    ensures after.recs.Keys == b.recs.Keys && after.active.Keys == b.active.Keys && after.sets.Keys == b.sets.Keys
    decreases |devices|
  {
    if devices == [] then b
    else
      var before := NewSetBatch(b, devices[..|devices| - 1], now);
      if before.Fatal? then before else NewSetStep(before, devices[|devices| - 1], now)
  }

  /** Once the process has exited, the later devices change nothing. */
  lemma {:induction false} FatalSticks(b: Batch, devices: seq<string>, j: nat, now: int)
    requires b.Batch? && j <= |devices|
    requires NewSetBatch(b, devices[..j], now).Fatal?
    ensures NewSetBatch(b, devices, now) == NewSetBatch(b, devices[..j], now)
    decreases |devices|
  {
    if j < |devices| {
      var shorter := devices[..|devices| - 1];
      assert shorter[..j] == devices[..j];
      FatalSticks(b, shorter, j, now);
    } else {
      assert devices[..j] == devices;
    }
  }

  /**
   * An exit keeps what the devices before the failing one did: the state it
   * leaves is the state reached after them.
   */
  lemma {:induction false} FatalKeepsEarlierDevices(b: Batch, devices: seq<string>, now: int)
    requires b.Batch? && NewSetBatch(b, devices, now).Fatal?
    ensures exists j :: 0 <= j < |devices| && FailsAt(b, devices, now, j)
    decreases |devices|
  {
    var init := devices[..|devices| - 1];
    var before := NewSetBatch(b, init, now);
    if before.Fatal? {
      FatalKeepsEarlierDevices(b, init, now);
      var j :| 0 <= j < |init| && FailsAt(b, init, now, j);
      assert init[..j] == devices[..j];
      assert FailsAt(b, devices, now, j);
    } else {
      assert devices[..|devices| - 1] == init;
      assert FailsAt(b, devices, now, |devices| - 1);
    }
  }

  /** The devices before `j` leave a batch, device `j` exits there, and the whole request ends with that state. */
  ghost predicate FailsAt(b: Batch, devices: seq<string>, now: int, j: int)
    requires b.Batch? && 0 <= j < |devices|
  {
    var before := NewSetBatch(b, devices[..j], now);
    && before.Batch?
    && NewSetStep(before, devices[j], now).Fatal?
    && NewSetBatch(b, devices, now) == Fatal(before.recs, before.active, before.sets)
  }

  /** A device that is not requested is untouched by the whole request. */
  lemma {:induction false} NewSetBatchOthersUntouched(b: Batch, devices: seq<string>, now: int, other: string)
    requires b.Batch? && other !in devices
    ensures var after := NewSetBatch(b, devices, now);
            && (other in b.recs ==> after.recs[other] == b.recs[other])
            && (other in b.active ==> after.active[other] == b.active[other])
            && (other in b.sets ==> after.sets[other] == b.sets[other])
    decreases |devices|
  {
    if devices != [] {
      var init := devices[..|devices| - 1];
      assert other !in init;
      NewSetBatchOthersUntouched(b, init, now, other);
      var before := NewSetBatch(b, init, now);
      if before.Batch? {
        NewSetStepOthersUntouched(before, devices[|devices| - 1], now, other);
      }
    }
  }

  /** A step only adds to the reply: at most one chart row, for the device itself, and text after the message. */
  lemma NewSetStepReplyGrows(b: Batch, deviceName: string, now: int)
    requires b.Batch?
    ensures var after := NewSetStep(b, deviceName, now);
            after.Batch? ==>
              && b.message <= after.message
              && b.chartArray <= after.chartArray && |after.chartArray| <= |b.chartArray| + 1
              && (forall k :: |b.chartArray| <= k < |after.chartArray| ==> after.chartArray[k].deviceName == deviceName)
  {
    if Rotatable(b, deviceName) && NextNumber(b.sets[deviceName].Keys).Some? {
      assert NewSetStep(b, deviceName, now) == Rotate(b, deviceName, NextNumber(b.sets[deviceName].Keys).value, now);
    }
  }

  /**
   * A request that does not exit keeps the message and chart rows it started
   * with, adds at most one row per requested name, and every row it adds
   * names a requested device.
   */
  lemma {:induction false} NewSetBatchReplyGrows(b: Batch, devices: seq<string>, now: int)
    requires b.Batch?
    ensures var after := NewSetBatch(b, devices, now);
            after.Batch? ==>
              && b.message <= after.message
              && b.chartArray <= after.chartArray && |after.chartArray| <= |b.chartArray| + |devices|
              && (forall k :: |b.chartArray| <= k < |after.chartArray| ==> after.chartArray[k].deviceName in devices)
    decreases |devices|
  {
    if devices != [] {
      var init := devices[..|devices| - 1];
      var before := NewSetBatch(b, init, now);
      NewSetBatchReplyGrows(b, init, now);
      if before.Batch? {
        NewSetStepReplyGrows(before, devices[|devices| - 1], now);
        var after := NewSetBatch(b, devices, now);
        if after.Batch? {
          forall k | |b.chartArray| <= k < |after.chartArray|
            ensures after.chartArray[k].deviceName in devices
          {
            if k < |before.chartArray| {
              assert after.chartArray[k] == before.chartArray[k];
              assert before.chartArray[k].deviceName in init;
            } else {
              assert after.chartArray[k].deviceName == devices[|devices| - 1];
            }
          }
        }
      }
    }
  }

  /** A step keeps every set number at least 1. */
  lemma NewSetStepKeepsSetsPositive(b: Batch, deviceName: string, now: int)
    requires b.Batch? && SetsPositive(b.recs)
    ensures SetsPositive(NewSetStep(b, deviceName, now).recs)
  {
    if Rotatable(b, deviceName) && NextNumber(b.sets[deviceName].Keys).Some? {
      assert NewSetStep(b, deviceName, now) == Rotate(b, deviceName, NextNumber(b.sets[deviceName].Keys).value, now);
    }
  }

  /**
   * The archive directory of each device holds exactly the sets it has
   * finished, "1.csv" to "<DeviceSet - 1>.csv", and those fit in 64 bits.
   */
  ghost predicate ArchivesFollowSets(recs: map<string, Record>, sets: map<string, map<string, string>>)
  {
    forall n :: n in recs && n in sets ==>
      1 <= recs[n].deviceSet && recs[n].deviceSet - 1 <= Int64Max
      && sets[n].Keys == Archives(recs[n].deviceSet - 1)
  }

  /**
   * When a device's archives are the sets it has finished (1 to
   * DeviceSet - 1), a rotation stores its active log as the archive of its
   * current set, keeps every earlier archive, empties the log, and reports
   * that set's number; afterwards the archives are again the finished sets.
   */
  lemma RotationExtendsArchives(b: Batch, deviceName: string, now: int)
    requires b.Batch? && deviceName in b.recs && deviceName in b.sets && deviceName in b.active
    requires !b.recs[deviceName].isDeviceRecording && !b.recs[deviceName].isNewDeviceSet
    requires 1 <= b.recs[deviceName].deviceSet <= Int64Max
    requires b.sets[deviceName].Keys == Archives(b.recs[deviceName].deviceSet - 1)
    ensures NewSetStep(b, deviceName, now).Batch?
    ensures var after := NewSetStep(b, deviceName, now);
            && deviceName in after.sets && deviceName in after.active && deviceName in after.recs
            && after.recs[deviceName].deviceSet == b.recs[deviceName].deviceSet + 1
            && after.recs[deviceName].isNewDeviceSet && after.recs[deviceName].latestSet == Some(now)
            && after.sets[deviceName].Keys == Archives(after.recs[deviceName].deviceSet - 1)
            && ArchiveName(b.recs[deviceName].deviceSet) in after.sets[deviceName]
            && after.sets[deviceName][ArchiveName(b.recs[deviceName].deviceSet)] == b.active[deviceName]
            && (forall f :: f in b.sets[deviceName] ==>
                  f in after.sets[deviceName] && after.sets[deviceName][f] == b.sets[deviceName][f])
            && after.active[deviceName] == ""
            && after.chartArray == b.chartArray + [ChartRow(deviceName, b.recs[deviceName].deviceSet, Some(now))]
  {
    var k := b.recs[deviceName].deviceSet - 1;
    NextNumberConsecutive(k);
    NextNumberFresh(Archives(k));
    ArchivesGrow(k);
  }

  /** A step keeps every directory in line with its device's set number. */
  lemma NewSetStepKeepsArchivesFollowing(b: Batch, deviceName: string, now: int)
    requires b.Batch? && ArchivesFollowSets(b.recs, b.sets)
    ensures ArchivesFollowSets(NewSetStep(b, deviceName, now).recs, NewSetStep(b, deviceName, now).sets)
  {
    if Rotatable(b, deviceName) && NextNumber(b.sets[deviceName].Keys).Some? {
      var after := Rotate(b, deviceName, NextNumber(b.sets[deviceName].Keys).value, now);
      assert NewSetStep(b, deviceName, now) == after;
      RotatedDeviceFollows(b, deviceName, now);
      OneDeviceFollows(b.recs, b.sets, after.recs, after.sets, deviceName);
    }
  }

  /** Changing one device, whose directory is then in line with its set number, keeps every directory in line. */
  lemma OneDeviceFollows(recs: map<string, Record>, sets: map<string, map<string, string>>,
                         recs2: map<string, Record>, sets2: map<string, map<string, string>>, d: string)
    requires ArchivesFollowSets(recs, sets)
    requires recs2.Keys == recs.Keys && sets2.Keys == sets.Keys
    requires forall o :: o in recs && o != d ==> recs2[o] == recs[o]
    requires forall o :: o in sets && o != d ==> sets2[o] == sets[o]
    requires d in recs2 && d in sets2 ==>
               1 <= recs2[d].deviceSet && recs2[d].deviceSet - 1 <= Int64Max
               && sets2[d].Keys == Archives(recs2[d].deviceSet - 1)
    ensures ArchivesFollowSets(recs2, sets2)
  {
  }

  /** The rotated device's directory again holds exactly its finished sets. */
  lemma RotatedDeviceFollows(b: Batch, deviceName: string, now: int)
    requires b.Batch? && ArchivesFollowSets(b.recs, b.sets) && Rotatable(b, deviceName)
    requires NextNumber(b.sets[deviceName].Keys).Some?
    ensures var after := NewSetStep(b, deviceName, now);
            && 1 <= after.recs[deviceName].deviceSet && after.recs[deviceName].deviceSet - 1 <= Int64Max
            && after.sets[deviceName].Keys == Archives(after.recs[deviceName].deviceSet - 1)
  {
    var k := b.recs[deviceName].deviceSet - 1;
    assert 0 <= k <= Int64Max && b.sets[deviceName].Keys == Archives(k);
    if k == Int64Max {
      NoNumberAfterLast(k);
      assert false;
    }
    RotationExtendsArchives(b, deviceName, now);
  }

  /** The whole request keeps every directory in line with its device's set number, even when it exits. */
  lemma {:induction false} NewSetBatchKeepsArchivesFollowing(b: Batch, devices: seq<string>, now: int)
    requires b.Batch? && ArchivesFollowSets(b.recs, b.sets)
    ensures ArchivesFollowSets(NewSetBatch(b, devices, now).recs, NewSetBatch(b, devices, now).sets)
    decreases |devices|
  {
    if devices != [] {
      var before := NewSetBatch(b, devices[..|devices| - 1], now);
      NewSetBatchKeepsArchivesFollowing(b, devices[..|devices| - 1], now);
      if before.Batch? {
        NewSetStepKeepsArchivesFollowing(before, devices[|devices| - 1], now);
      }
    }
  }

  /** A change that moves no set number and touches no directory keeps the directories in line. */
  lemma SetNumbersKeptFollow(recs: map<string, Record>, recs2: map<string, Record>, sets: map<string, map<string, string>>)
    requires ArchivesFollowSets(recs, sets)
    requires forall n :: n in recs2 && n in sets ==> n in recs && recs2[n].deviceSet == recs[n].deviceSet
    ensures ArchivesFollowSets(recs2, sets)
  {
  }

  /**
   * The mode change, the sweep, a status query and an accepted reading move
   * no set number and touch no directory, so the directories stay in line.
   */
  lemma HandlersKeepArchivesFollowing(recs: map<string, Record>, sets: map<string, map<string, string>>,
                                      devices: seq<string>, on: bool, now: int, timeOut: int, name: string)
    requires ArchivesFollowSets(recs, sets)
    ensures ArchivesFollowSets(WithRecording(recs, devices, on), sets)
    ensures ArchivesFollowSets(Swept(recs, now, timeOut), sets)
    ensures name in recs ==> ArchivesFollowSets(recs[name := recs[name].(deviceTime := now)], sets)
    ensures name in recs ==>
              ArchivesFollowSets(recs[name := recs[name].(deviceTime := now, isNewDeviceSet := false)], sets)
  {
    SetNumbersKeptFollow(recs, WithRecording(recs, devices, on), sets);
    SetNumbersKeptFollow(recs, Swept(recs, now, timeOut), sets);
    if name in recs {
      SetNumbersKeptFollow(recs, recs[name := recs[name].(deviceTime := now)], sets);
      SetNumbersKeptFollow(recs, recs[name := recs[name].(deviceTime := now, isNewDeviceSet := false)], sets);
    }
  }

  /**
   * Check-in keeps the directories in line when a new name has no directory
   * yet, and when a known name already has one.
   */
  lemma CheckInKeepsArchivesFollowing(recs: map<string, Record>, sets: map<string, map<string, string>>,
                                      name: string, now: int)
    requires ArchivesFollowSets(recs, sets)
    ensures name !in recs && name !in sets ==>
              && ArchivesFollowSets(recs[name := NewDevice(now)], MkdirAll(sets, name))
              && ArchivesFollowSets(recs[name := NewDevice(now)], sets)
    ensures name in recs && name in sets ==>
              ArchivesFollowSets(recs[name := recs[name].(deviceTime := now, isDeviceCheckedIn := true)],
                                 MkdirAll(sets, name))
  {
    assert Archives(0) == {};
  }

  /**
   * A new name whose directory is left over with archives in it breaks the
   * invariant: `MkdirAll` keeps the files, and the device starts in set 1.
   */
  lemma CheckInOverOldDirectory(recs: map<string, Record>, sets: map<string, map<string, string>>,
                                name: string, now: int)
    requires name !in recs && name in sets && sets[name] != map[]
    ensures !ArchivesFollowSets(recs[name := NewDevice(now)], MkdirAll(sets, name))
  {
    assert Archives(0) == {};
    var f :| f in sets[name];
    assert f in MkdirAll(sets, name)[name].Keys;
  }

  /** The whole batch keeps every set number at least 1. */
  lemma {:induction false} NewSetBatchKeepsSetsPositive(b: Batch, devices: seq<string>, now: int)
    requires b.Batch? && SetsPositive(b.recs)
    ensures SetsPositive(NewSetBatch(b, devices, now).recs)
    decreases |devices|
  {
    if devices != [] {
      var before := NewSetBatch(b, devices[..|devices| - 1], now);
      NewSetBatchKeepsSetsPositive(b, devices[..|devices| - 1], now);
      if before.Batch? {
        NewSetStepKeepsSetsPositive(before, devices[|devices| - 1], now);
      }
    }
  }

  /** The body of the handler's loop for one device. */
  method NewSetDevice(b: Batch, deviceName: string, now: int) returns (after: Batch)
    requires b.Batch?
    ensures after == NewSetStep(b, deviceName, now)
  {
    if deviceName !in b.recs {
      return b.(message := b.message + deviceName + NotRegistered);
    }
    var r := b.recs[deviceName];
    if r.isDeviceRecording {
      return b.(message := b.message + deviceName + StillRecording);
    }
    if r.isNewDeviceSet {
      return b.(message := b.message + deviceName + StillPending);
    }
    if deviceName !in b.sets || deviceName !in b.active {
      return Fatal(b.recs, b.active, b.sets);
    }
    var n := NextArchiveNumber(b.sets[deviceName].Keys);
    if n.None? {
      return Fatal(b.recs, b.active, b.sets);
    }
    after := Batch(b.recs[deviceName := r.(isNewDeviceSet := true, deviceSet := r.deviceSet + 1, latestSet := Some(now))],
                   b.active[deviceName := ""],
                   b.sets[deviceName := b.sets[deviceName][ArchiveName(n.value) := b.active[deviceName]]],
                   b.message,
                   b.chartArray + [ChartRow(deviceName, n.value, Some(now))]);
  }

  /** The handler's loop over the requested devices, on the state as values. */
  method NewSetDevices(start: Batch, devices: seq<string>, now: int) returns (b: Batch)
    requires start.Batch?
    ensures b == NewSetBatch(start, devices, now)
  {
    b := start;
    var i := 0;
    while i < |devices|
      invariant 0 <= i <= |devices|
      invariant b.Batch? && b == NewSetBatch(start, devices[..i], now)
    {
      assert devices[..i + 1][..i] == devices[..i];
      b := NewSetDevice(b, devices[i], now);
      if b.Fatal? {
        FatalSticks(start, devices, i + 1, now);
        return;
      }
      i := i + 1;
    }
    assert devices[..i] == devices;
  }

  /**
   * `newSetHandler`, with the values of "new-set": the requested devices are
   * treated one after the other as `NewSetStep` says, and the reply lists
   * the rotations made and the messages for the devices skipped.
   */
  method NewSet(s: Server, req: Request, devices: seq<string>, now: int) returns (resp: Response)
    requires s.Valid()
    modifies s`recs, s`active, s`sets
    ensures s.Valid()
    ensures HandlePostRequests(req, s.setting).Some? ==>
              resp == HandlePostRequests(req, s.setting).value && unchanged(s)
    ensures HandlePostRequests(req, s.setting).None? && FormGet(devices) == "" ==>
              resp == Reply(StatusNotAcceptable, Plain("Must select at least one device to start new set"))
              && unchanged(s)
    ensures HandlePostRequests(req, s.setting).None? && FormGet(devices) != "" ==>
              var after := NewSetBatch(Batch(old(s.recs), old(s.active), old(s.sets), "", []), devices, now);
              && s.recs == after.recs && s.active == after.active && s.sets == after.sets
              && (after.Fatal? ==> resp == Exited)
              && (after.Batch? ==> resp == Reply(StatusOK, NewSetPayload(after.chartArray, after.message)))
  {
    var gate := HandlePostRequests(req, s.setting);
    if gate.Some? {
      return gate.value;
    }
    if FormGet(devices) == "" {
      return Reply(StatusNotAcceptable, Plain("Must select at least one device to start new set"));
    }
    var start := Batch(s.recs, s.active, s.sets, "", []);
    var after := NewSetDevices(start, devices, now);
    NewSetBatchKeepsSetsPositive(start, devices, now);
    s.recs, s.active, s.sets := after.recs, after.active, after.sets;
    if after.Fatal? {
      return Exited;
    }
    resp := Reply(StatusOK, NewSetPayload(after.chartArray, after.message));
  }

  // ---------------------------------------------------------------------------
  // Readings

  /** The sensor endpoint accepts a device only if its last contact is strictly after `now - timeOut`. */
  predicate SensorAccepts(r: Record, now: int, timeOut: int)
  {
    r.deviceTime > now - timeOut
  }

  /**
   * The sweep and the sensor endpoint draw the line differently: a device
   * last heard from exactly `timeOut` seconds ago stays checked in, yet its
   * readings are refused.
   */
  lemma SweepAndSensorDisagreeAtBoundary(r: Record, now: int, timeOut: int)
    requires r.deviceTime == now - timeOut
    ensures HeardFrom(r, now, timeOut) && !SensorAccepts(r, now, timeOut)
  {
  }

  /** The active logs after appending `line` to the log of `name`, creating it if missing. */
  function AppendLog(active: map<string, string>, name: string, line: string): (out: map<string, string>)
    ensures out.Keys == active.Keys + {name}
    ensures name in active ==> out[name] == active[name] + line
    ensures name !in active ==> out[name] == line
    ensures forall n :: n in active && n != name ==> out[n] == active[n]
  {
    active[name := (if name in active then active[name] else "") + line]
  }

  /** The reply to an accepted reading: whether the device is to keep recording. */
  function RecordingReply(r: Record): (text: string)
    ensures text == "Record," <==> r.isDeviceRecording
    ensures text == "Stop Recording," <==> !r.isDeviceRecording
  {
    if r.isDeviceRecording then "Record," else "Stop Recording,"
  }

  /**
   * `sensorHandler`, with the form value "timeStamp": a reading
   * "<name>,<date>,<time>,<movement>" from a device heard from recently
   * renews its last contact and acknowledges any new set; it is appended to
   * the device's active log when the movement field is true. Fewer than
   * four fields panic and an unparsable movement field exits, both after
   * the registry was updated.
   */
  method Sensor(s: Server, req: Request, timeStamp: string, now: int) returns (resp: Response)
    requires s.Valid()
    modifies s`recs, s`active
    ensures s.Valid()
    ensures HandlePostRequests(req, s.setting).Some? ==>
              resp == HandlePostRequests(req, s.setting).value && unchanged(s)
    ensures HandlePostRequests(req, s.setting).None? ==>
              var name := Split(timeStamp, ',')[0];
              var fields := Split(timeStamp, ',');
              if name in old(s.recs) && SensorAccepts(old(s.recs)[name], now, s.setting.timeOut) then
                var r := old(s.recs)[name];
                && s.recs == old(s.recs)[name := r.(deviceTime := now, isNewDeviceSet := false)]
                && (|fields| < 4 ==> resp == Panicked && s.active == old(s.active))
                && (|fields| >= 4 && ParseBool(TrimRightNewlines(fields[3])).None? ==>
                      resp == Exited && s.active == old(s.active))
                && (|fields| >= 4 && ParseBool(TrimRightNewlines(fields[3])).Some? ==>
                      && resp == Reply(StatusOK, Plain(RecordingReply(r)))
                      && s.active == if ParseBool(TrimRightNewlines(fields[3])).value
                                     then AppendLog(old(s.active), name, timeStamp) else old(s.active))
              else
                resp == Reply(StatusNotAcceptable, Plain("Device does not exist")) && unchanged(s)
  {
    var gate := HandlePostRequests(req, s.setting);
    if gate.Some? {
      return gate.value;
    }
    var fields := Split(timeStamp, ',');
    var name := fields[0];
    if name !in s.recs || !(s.recs[name].deviceTime > now - s.setting.timeOut) {
      return Reply(StatusNotAcceptable, Plain("Device does not exist"));
    }
    var r := s.recs[name];
    s.recs := s.recs[name := r.(deviceTime := now, isNewDeviceSet := false)];
    if |fields| < 4 {
      return Panicked;
    }
    var movement := ParseBool(TrimRightNewlines(fields[3]));
    if movement.None? {
      return Exited;
    }
    if movement.value {
      s.active := AppendLog(s.active, name, timeStamp);
    }
    resp := Reply(StatusOK, Plain(RecordingReply(r)));
  }

  // ---------------------------------------------------------------------------
  // Device status

  /** The reply to a status query: the recording instruction, then the set instruction. */
  function StatusReply(r: Record): (text: string)
    ensures |text| > |RecordingReply(r)| && text[..|RecordingReply(r)|] == RecordingReply(r)
    ensures text[|RecordingReply(r)|..] == "New Set" <==> r.isNewDeviceSet
    ensures text[|RecordingReply(r)|..] == "Continue Set" <==> !r.isNewDeviceSet
  {
    RecordingReply(r) + (if r.isNewDeviceSet then "New Set" else "Continue Set")
  }

  /** A status reply tells the two flags apart: each is recovered from the text. */
  lemma StatusReplyDecodes(a: Record, b: Record)
    requires StatusReply(a) == StatusReply(b)
    ensures a.isDeviceRecording == b.isDeviceRecording && a.isNewDeviceSet == b.isNewDeviceSet
  {
  }

  /**
   * `deviceStatusHandler`, with the query value "deviceName" (no password
   * gate): a registered device renews its last contact and learns whether
   * to record and whether to start a new set.
   */
  method DeviceStatus(s: Server, deviceName: string, now: int) returns (resp: Response)
    requires s.Valid()
    modifies s`recs
    ensures s.Valid()
    ensures deviceName == "" ==> resp == Reply(StatusNotAcceptable, Plain("Must give device name,")) && unchanged(s)
    ensures deviceName != "" && deviceName in old(s.recs) ==>
              && s.recs == old(s.recs)[deviceName := old(s.recs)[deviceName].(deviceTime := now)]
              && resp == Reply(StatusOK, Plain(StatusReply(old(s.recs)[deviceName])))
    ensures deviceName != "" && deviceName !in old(s.recs) ==>
              resp == Reply(StatusNotFound, Plain("Device name does not exist")) && unchanged(s)
  {
    if deviceName == "" {
      return Reply(StatusNotAcceptable, Plain("Must give device name,"));
    }
    if deviceName !in s.recs {
      return Reply(StatusNotFound, Plain("Device name does not exist"));
    }
    var r := s.recs[deviceName];
    s.recs := s.recs[deviceName := r.(deviceTime := now)];
    resp := Reply(StatusOK, Plain(StatusReply(r)));
  }

  // ---------------------------------------------------------------------------
  // Status summary

  /**
   * `updateStatusHandler`: one chart row per device in registration order,
   * giving the number of finished sets and the time of the latest rotation,
   * and the last contact of every device not checked in.
   */
  method UpdateStatus(s: Server) returns (resp: Response)
    requires s.Valid()
    ensures resp.Reply? && resp.code == StatusOK && resp.body.StatusPayload?
    ensures |resp.body.chartRows| == |s.names|
    ensures forall i :: 0 <= i < |s.names| ==>
              resp.body.chartRows[i] ==
                ChartRow(s.names[i], s.recs[s.names[i]].deviceSet - 1, s.recs[s.names[i]].latestSet)
    ensures resp.body.devicesNotHeardFrom.Keys == set n | n in s.recs && !s.recs[n].isDeviceCheckedIn
    ensures forall n :: n in resp.body.devicesNotHeardFrom ==>
              resp.body.devicesNotHeardFrom[n] == s.recs[n].deviceTime
  {
    var notHeard: map<string, int> := map[];
    var rows: seq<ChartRow> := [];
    var i := 0;
    while i < |s.names|
      invariant 0 <= i <= |s.names|
      invariant |rows| == i
      invariant forall j :: 0 <= j < i ==>
                  rows[j] == ChartRow(s.names[j], s.recs[s.names[j]].deviceSet - 1, s.recs[s.names[j]].latestSet)
      invariant notHeard.Keys == set n | n in s.names[..i] && !s.recs[n].isDeviceCheckedIn
      invariant forall n :: n in notHeard ==> n in s.recs && notHeard[n] == s.recs[n].deviceTime
    {
      var name := s.names[i];
      assert s.names[..i + 1] == s.names[..i] + [name];
      if !s.recs[name].isDeviceCheckedIn {
        notHeard := notHeard[name := s.recs[name].deviceTime];
      }
      rows := rows + [ChartRow(name, s.recs[name].deviceSet - 1, s.recs[name].latestSet)];
      i := i + 1;
    }
    assert s.names[..i] == s.names;
    resp := Reply(StatusOK, StatusPayload(rows, notHeard));
  }
}
