/**
 * server/helper_functions.go: the request gate, the outcome of a database
 * transaction, the settings checks, loading the registry from its table and
 * one pass of the check-in sweep.
 */
module Helpers {
  import opened Common
  import opened Text
  import opened Device

  // ---------------------------------------------------------------------------
  // Replies

  const StatusOK := 200
  const StatusForbidden := 403
  const StatusNotFound := 404
  const StatusMethodNotAllowed := 405
  const StatusNotAcceptable := 406

  /** What a handler writes back: plain text or one of the JSON payloads. */
  datatype Body =
    | Plain(text: string)
    | CheckInPayload(hasNewSetNotRecording: bool, isRecording: bool, deviceSet: int)
    | RecordingPayload(isDeviceRecording: map<string, bool>)
    | NewSetPayload(chartArray: seq<ChartRow>, message: string)
    | StatusPayload(chartRows: seq<ChartRow>, devicesNotHeardFrom: map<string, int>)

  /**
   * How a request ends: a reply, a panic that net/http recovers from (the
   * connection is dropped), or the whole process exiting (`log.Fatal`, or
   * `checkError` with exit set).
   */
  datatype Response = Reply(code: int, body: Body) | Panicked | Exited

  /** The parts of an HTTP request the gate looks at. */
  datatype Request = Request(verb: string, password: string)

  /**
   * `handlePostRequests`: None stands for the nil error (go on); otherwise the
   * reply the gate has already written.
   */
  function HandlePostRequests(req: Request, setting: Settings): (r: Option<Response>)
    ensures r.None? <==> req.verb == "POST" && req.password == setting.password
    ensures req.verb != "POST" ==> r == Some(Reply(StatusMethodNotAllowed, Plain("Request method is not post")))
    ensures req.verb == "POST" && req.password != setting.password ==>
              r == Some(Reply(StatusForbidden, Plain("Wrong Password")))
  {
    if req.verb != "POST" then Some(Reply(StatusMethodNotAllowed, Plain("Request method is not post")))
    else if req.password != setting.password then Some(Reply(StatusForbidden, Plain("Wrong Password")))
    else None
  }

  // ---------------------------------------------------------------------------
  // Transactions

  /** Which steps of `execTXQuery` the database lets succeed. */
  datatype Db = Db(prepareOk: bool, beginOk: bool, execOk: bool)

  /** What `execTXQuery` reports and whether its statement took effect. */
  datatype TxOutcome = TxOutcome(err: bool, committed: bool)

  /**
   * `execTXQuery`: an error only when preparing or beginning fails; a failed
   * `Exec` is rolled back and still reported as success.
   */
  function ExecTxQuery(db: Db): (r: TxOutcome)
    ensures r.err <==> !db.prepareOk || !db.beginOk
    ensures r.committed ==> !r.err
    ensures !r.err && !r.committed <==> db.prepareOk && db.beginOk && !db.execOk
  {
    if !db.prepareOk || !db.beginOk then TxOutcome(true, false)
    else TxOutcome(false, db.execOk)
  }

  // ---------------------------------------------------------------------------
  // Settings

  datatype SettingsResult = Loaded(setting: Settings) | ExitWith(message: string)

  /**
   * The checks of `loadSettingsFile` over the keys of the ini file's DEFAULT
   * section, in the order the source makes them; the first failure exits.
   */
  function LoadSettings(ini: map<string, string>): (r: SettingsResult)
    ensures r.Loaded? ==>
              && "ip_address" in ini && "password" in ini && "port" in ini
              && "https" in ini && ParseBool(ini["https"]) == Some(r.setting.https)
              && "time_out" in ini && ParseInt(ini["time_out"], Int32Min, Int32Max) == Some(r.setting.timeOut)
              && (r.setting.https ==> "cert_file" in ini && "key_file" in ini)
              && r.setting == Settings(ini["ip_address"], ini["port"], ini["password"], r.setting.https, r.setting.timeOut)
    ensures r.Loaded? ==> Int32Min <= r.setting.timeOut <= Int32Max
  {
    if "ip_address" !in ini then ExitWith("ip address setting not set")
    else if "password" !in ini then ExitWith("password setting is not set")
    else if "https" !in ini then ExitWith("https setting not set")
    else if ParseBool(ini["https"]).None? then ExitWith("https setting is not bool")
    else if "time_out" !in ini then ExitWith("time_out setting not set")
    else if ParseInt(ini["time_out"], Int32Min, Int32Max).None? then ExitWith("timeout is not an int")
    else if "port" !in ini then ExitWith("port setting is not set")
    else
      var https := ParseBool(ini["https"]).value;
      if https && "cert_file" !in ini then ExitWith("If https setting is true, cert_file must be set")
      else if https && "key_file" !in ini then ExitWith("If https setting is true, key_file must be set")
      else Loaded(Settings(ini["ip_address"], ini["port"], ini["password"], https,
                           ParseInt(ini["time_out"], Int32Min, Int32Max).value))
  }

  /** Every setting the file can be missing or get wrong stops the server with a message. */
  lemma LoadSettingsRejects(ini: map<string, string>)
    ensures "https" in ini && ParseBool(ini["https"]).None? ==> LoadSettings(ini).ExitWith?
    ensures "time_out" in ini && ParseInt(ini["time_out"], Int32Min, Int32Max).None? ==> LoadSettings(ini).ExitWith?
    ensures "https" in ini && ParseBool(ini["https"]) == Some(true) && "cert_file" !in ini ==> LoadSettings(ini).ExitWith?
  {
  }

  /** The certificate and key files matter only when https is on. */
  lemma CertificatesOnlyForHttps(ini: map<string, string>)
    requires "https" in ini && ParseBool(ini["https"]) == Some(false)
    ensures LoadSettings(ini - {"cert_file", "key_file"}) == LoadSettings(ini)
  {
    var stripped := ini - {"cert_file", "key_file"};
    assert forall k :: k in ini && k != "cert_file" && k != "key_file" ==> k in stripped && stripped[k] == ini[k];
  }

  // ---------------------------------------------------------------------------
  // Loading the registry

  /** A row of `device_status` as `initGlobalVariables` scans it. */
  datatype Row = Row(deviceName: string, deviceSet: int, deviceTime: int, isNewSet: bool, isRecording: bool,
                     isDeviceCheckedIn: bool)

  /** The record a row becomes: the stored time is replaced by the load time. */
  function RecordOf(row: Row, now: int): (r: Record)
    ensures r.deviceTime == now && r.latestSet == None
    ensures r.deviceSet == row.deviceSet && r.isNewDeviceSet == row.isNewSet
    ensures r.isDeviceRecording == row.isRecording && r.isDeviceCheckedIn == row.isDeviceCheckedIn
  {
    Record(row.deviceSet, now, row.isNewSet, row.isRecording, row.isDeviceCheckedIn, None)
  }

  function RowNames(rows: seq<Row>): (names: seq<string>)
    ensures |names| == |rows| && forall i :: 0 <= i < |rows| ==> names[i] == rows[i].deviceName
  {
    seq(|rows|, i requires 0 <= i < |rows| => rows[i].deviceName)
  }

  /** The per-device maps after scanning `rows` in order; a later row with the same name overwrites. */
  function LoadedRecords(rows: seq<Row>, now: int): map<string, Record>
  {
    if rows == [] then map[]
    else
      var last := rows[|rows| - 1];
      LoadedRecords(rows[..|rows| - 1], now)[last.deviceName := RecordOf(last, now)]
  }

  /** The devices loaded are exactly the devices named by the rows. */
  lemma {:induction false} LoadedRecordsKeys(rows: seq<Row>, now: int)
    ensures LoadedRecords(rows, now).Keys == set i | 0 <= i < |rows| :: rows[i].deviceName
  {
    if rows != [] {
      var init := rows[..|rows| - 1];
      LoadedRecordsKeys(init, now);
      assert (set i | 0 <= i < |rows| :: rows[i].deviceName)
          == (set i | 0 <= i < |init| :: init[i].deviceName) + {rows[|rows| - 1].deviceName};
    }
  }

  /** With distinct names, each row's device holds exactly that row's values, and no other device appears. */
  lemma {:induction false} LoadedRecordsAt(rows: seq<Row>, now: int)
    requires Distinct(RowNames(rows))
    ensures LoadedRecords(rows, now).Keys == set i | 0 <= i < |rows| :: rows[i].deviceName
    ensures forall i :: 0 <= i < |rows| ==> LoadedRecords(rows, now)[rows[i].deviceName] == RecordOf(rows[i], now)
  {
    LoadedRecordsKeys(rows, now);
    if rows != [] {
      var init := rows[..|rows| - 1];
      assert RowNames(init) == RowNames(rows)[..|rows| - 1];
      LoadedRecordsAt(init, now);
      var m := LoadedRecords(rows, now);
      forall i | 0 <= i < |rows| ensures m[rows[i].deviceName] == RecordOf(rows[i], now) {
        if i < |rows| - 1 {
          assert RowNames(rows)[i] != RowNames(rows)[|rows| - 1];
          assert init[i] == rows[i];
        }
      }
    }
  }

  /** Rows with distinct names and positive set numbers load into a consistent registry. */
  lemma LoadIsConsistent(rows: seq<Row>, now: int)
    requires Distinct(RowNames(rows))
    requires forall i :: 0 <= i < |rows| ==> rows[i].deviceSet >= 1
    ensures Registered(RowNames(rows), LoadedRecords(rows, now))
    ensures SetsPositive(LoadedRecords(rows, now))
  {
    LoadedRecordsAt(rows, now);
    var names := RowNames(rows);
    var m := LoadedRecords(rows, now);
    forall n | n in m ensures n in names {
      var i :| 0 <= i < |rows| && rows[i].deviceName == n;
      assert names[i] == n;
    }
    forall n | n in m ensures m[n].deviceSet >= 1 {
      var i :| 0 <= i < |rows| && rows[i].deviceName == n;
    }
  }

  /** The row stored for a device: the columns of `device_status`. */
  function RowFor(name: string, r: Record): (row: Row)
    ensures row.deviceName == name && row.deviceSet == r.deviceSet
  {
    Row(name, r.deviceSet, r.deviceTime, r.isNewDeviceSet, r.isDeviceRecording, r.isDeviceCheckedIn)
  }

  /** The table holding every registered device's current values, in registration order. */
  function Persisted(names: seq<string>, recs: map<string, Record>): (rows: seq<Row>)
    requires forall i :: 0 <= i < |names| ==> names[i] in recs
    ensures RowNames(rows) == names
  {
    seq(|names|, i requires 0 <= i < |names| => RowFor(names[i], recs[names[i]]))
  }

  /**
   * Storing a registry and loading it back after a restart gives the same
   * devices with the same set numbers and flags; the check-in time becomes
   * the load time and the latest-set time is lost (the table has no column
   * for it). The rows here are those written from the registry itself: the
   * UPDATE that `newSetHandler` issues after a rotation names that missing
   * `latest_set` column, so it fails, and a stored row keeps the set number
   * and the pending flag it had before the rotation.
   */
  lemma ReloadKeepsDevices(names: seq<string>, recs: map<string, Record>, now: int)
    requires Registered(names, recs)
    ensures RowNames(Persisted(names, recs)) == names
    ensures LoadedRecords(Persisted(names, recs), now).Keys == recs.Keys
    ensures forall n :: n in recs ==>
              LoadedRecords(Persisted(names, recs), now)[n] == recs[n].(deviceTime := now, latestSet := None)
  {
    var rows := Persisted(names, recs);
    LoadedRecordsAt(rows, now);
    var m := LoadedRecords(rows, now);
    forall n | n in recs ensures n in m && m[n] == recs[n].(deviceTime := now, latestSet := None) {
      var i :| 0 <= i < |names| && names[i] == n;
      assert rows[i].deviceName == n;
    }
    forall n | n in m ensures n in recs {
      var i :| 0 <= i < |rows| && rows[i].deviceName == n;
    }
  }

  /**
   * The row-scanning loop of `initGlobalVariables`: each row appends its name
   * to `DeviceNames` and writes its values into the maps, with the load time
   * as the device time.
   */
  method InitGlobalVariables(s: Server, rows: seq<Row>, now: int)
    requires s.names == [] && s.recs == map[]
    requires Distinct(RowNames(rows))  // `device_name` is a UNIQUE column
    // Every row the server writes has device_set 1 (the check-in INSERT,
    // server/api.go:286), and the new-set UPDATE (server/api.go:333, 441)
    // fails on its missing column, so a stored set is never below 1.
    requires forall i :: 0 <= i < |rows| ==> rows[i].deviceSet >= 1
    modifies s
    ensures s.names == RowNames(rows) && s.recs == LoadedRecords(rows, now)
    ensures s.active == old(s.active) && s.sets == old(s.sets) && s.setting == old(s.setting)
    ensures s.Valid()
  {
    var i := 0;
    while i < |rows|
      invariant 0 <= i <= |rows|
      invariant s.names == RowNames(rows[..i]) && s.recs == LoadedRecords(rows[..i], now)
      invariant s.active == old(s.active) && s.sets == old(s.sets) && s.setting == old(s.setting)
    {
      var row := rows[i];
      assert rows[..i + 1][..i] == rows[..i];
      s.names := s.names + [row.deviceName];
      s.recs := s.recs[row.deviceName := Record(row.deviceSet, now, row.isNewSet, row.isRecording,
                                                row.isDeviceCheckedIn, None)];
      i := i + 1;
    }
    assert rows[..i] == rows;
    LoadIsConsistent(rows, now);
  }

  // ---------------------------------------------------------------------------
  // The check-in sweep

  /** A device counts as heard from unless its last contact is strictly before `now - timeOut`. */
  predicate HeardFrom(r: Record, now: int, timeOut: int)
  {
    !(r.deviceTime < now - timeOut)
  }

  /** The maps after one sweep: only the checked-in flag changes, and it is recomputed for every device. */
  function Swept(recs: map<string, Record>, now: int, timeOut: int): (out: map<string, Record>)
    ensures out.Keys == recs.Keys
  {
    map n | n in recs :: recs[n].(isDeviceCheckedIn := HeardFrom(recs[n], now, timeOut))
  }

  /**
   * A sweep marks stale devices not checked in and re-marks fresh ones
   * checked in, leaving every other field alone.
   */
  lemma SweptFlags(recs: map<string, Record>, now: int, timeOut: int, n: string)
    requires n in recs
    ensures Swept(recs, now, timeOut)[n].isDeviceCheckedIn <==> !(recs[n].deviceTime < now - timeOut)
    ensures Swept(recs, now, timeOut)[n].(isDeviceCheckedIn := recs[n].isDeviceCheckedIn) == recs[n]
  {
  }

  /** Sweeping twice at the same instant is sweeping once. */
  lemma SweepIdempotent(recs: map<string, Record>, now: int, timeOut: int)
    ensures Swept(Swept(recs, now, timeOut), now, timeOut) == Swept(recs, now, timeOut)
  {
  }

  /** A sweep keeps the registry consistent. */
  lemma SweepKeepsRegistry(names: seq<string>, recs: map<string, Record>, now: int, timeOut: int)
    requires Registered(names, recs) && SetsPositive(recs)
    ensures Registered(names, Swept(recs, now, timeOut)) && SetsPositive(Swept(recs, now, timeOut))
  {
  }

  /**
   * The first loop of a pass of `updateCheckIn`: every device heard from is
   * marked checked in, the others are collected with their last contact.
   */
  method MarkHeardFrom(before: map<string, Record>, now: int, timeOut: int)
    returns (recs: map<string, Record>, devicesNotHeardFrom: map<string, int>)
    ensures recs.Keys == before.Keys
    ensures devicesNotHeardFrom.Keys == set n | n in before && !HeardFrom(before[n], now, timeOut)
    ensures forall n :: n in devicesNotHeardFrom ==> devicesNotHeardFrom[n] == before[n].deviceTime
    ensures forall n :: n in before ==>
              recs[n] == if HeardFrom(before[n], now, timeOut) then before[n].(isDeviceCheckedIn := true) else before[n]
  {
    devicesNotHeardFrom := map[];
    recs := before;
    var todo := before.Keys;
    while todo != {}
      invariant todo <= before.Keys && recs.Keys == before.Keys
      invariant forall n :: n in todo ==> recs[n] == before[n]
      invariant forall n :: n in before && n !in todo ==>
                  recs[n] == if HeardFrom(before[n], now, timeOut) then before[n].(isDeviceCheckedIn := true) else before[n]
      invariant devicesNotHeardFrom.Keys == set n | n in before && n !in todo && !HeardFrom(before[n], now, timeOut)
      invariant forall n :: n in devicesNotHeardFrom ==> devicesNotHeardFrom[n] == before[n].deviceTime
      decreases todo
    {
      var n :| n in todo;
      if recs[n].deviceTime < now - timeOut {
        devicesNotHeardFrom := devicesNotHeardFrom[n := recs[n].deviceTime];
      } else {
        recs := recs[n := recs[n].(isDeviceCheckedIn := true)];
      }
      todo := todo - {n};
    }
  }

  /** The second loop of a pass of `updateCheckIn`: every collected device is marked not checked in. */
  method MarkNotHeardFrom(before: map<string, Record>, devicesNotHeardFrom: map<string, int>)
    returns (recs: map<string, Record>)
    requires devicesNotHeardFrom.Keys <= before.Keys
    ensures recs.Keys == before.Keys
    ensures forall n :: n in before ==>
              recs[n] == if n in devicesNotHeardFrom then before[n].(isDeviceCheckedIn := false) else before[n]
  {
    recs := before;
    var stale := devicesNotHeardFrom.Keys;
    while stale != {}
      invariant stale <= devicesNotHeardFrom.Keys && recs.Keys == before.Keys
      invariant forall n :: n in before ==>
                  recs[n] == if n in devicesNotHeardFrom && n !in stale then before[n].(isDeviceCheckedIn := false)
                             else before[n]
      decreases stale
    {
      var n :| n in stale;
      recs := recs[n := recs[n].(isDeviceCheckedIn := false)];
      stale := stale - {n};
    }
  }

  /**
   * One pass of the loop in `updateCheckIn` at time `now`, with the timeout
   * of the settings; the sleep between passes is left to the caller.
   */
  method UpdateCheckIn(s: Server, now: int)
    requires s.Valid()
    modifies s`recs
    ensures s.recs == Swept(old(s.recs), now, s.setting.timeOut)
    ensures s.Valid()
  {
    var marked, devicesNotHeardFrom := MarkHeardFrom(s.recs, now, s.setting.timeOut);
    var recs := MarkNotHeardFrom(marked, devicesNotHeardFrom);
    SweepInTwoLoops(s.recs, now, s.setting.timeOut, marked, devicesNotHeardFrom, recs);
    SweepKeepsRegistry(s.names, s.recs, now, s.setting.timeOut);
    s.recs := recs;
  }

  /** Marking the fresh devices, then the collected stale ones, is one sweep. */
  lemma SweepInTwoLoops(before: map<string, Record>, now: int, timeOut: int, marked: map<string, Record>,
                        devicesNotHeardFrom: map<string, int>, recs: map<string, Record>)
    requires marked.Keys == before.Keys && recs.Keys == before.Keys
    requires devicesNotHeardFrom.Keys == set n | n in before && !HeardFrom(before[n], now, timeOut)
    requires forall n :: n in before ==>
               marked[n] == if HeardFrom(before[n], now, timeOut) then before[n].(isDeviceCheckedIn := true) else before[n]
    requires forall n :: n in before ==>
               recs[n] == if n in devicesNotHeardFrom then marked[n].(isDeviceCheckedIn := false) else marked[n]
    ensures recs == Swept(before, now, timeOut)
  {
    var swept := Swept(before, now, timeOut);
    forall n | n in before
      ensures recs[n] == swept[n]
    {
      assert n in devicesNotHeardFrom <==> !HeardFrom(before[n], now, timeOut);
    }
  }
}
