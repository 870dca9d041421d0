/**
 * The Raspberry Pi client: client/client.py and client/test_client.py. Both
 * read a `configparser` file into a `Device`, check the device in with the
 * server, and then loop: a recording device logs a movement reading locally
 * and posts it to the sensor endpoint; a device that is not recording polls
 * the status endpoint. Each reply is a comma-separated list of tokens that
 * the loop acts on.
 *
 * The two scripts differ in small ways, so every operation takes the
 * `Script` it models. HTTP calls are replaced by their outcome (`Reply`),
 * the random movement bit and the clock by fields of `Exchange`, and the
 * `float` conversion of the sleep setting by a function parameter.
 */
module Client {
  import opened Common
  import opened Text
  import opened PiDevice
  import Archive
  import opened IniFile

  datatype Script = ClientPy | TestClientPy

  // ---------------------------------------------------------------------------
  // Reading the configuration (`_get_pi_device`)

  /**
   * A client.ini as `configparser` has read it: the DEFAULT section, and the
   * "device" section when there is one. The values are the stored text,
   * before any substitution.
   */
  datatype Config = Config(defaults: map<string, string>, device: Option<map<string, string>>)

  /**
   * `CONFIG["device"][key]` before substitution: None where `configparser`
   * raises KeyError. A key the device section lacks is looked up in DEFAULT.
   */
  function DeviceValue(cfg: Config, key: string): (v: Option<string>)
    ensures v.Some? <==> cfg.device.Some? && (key in cfg.device.value || key in cfg.defaults)
  {
    match cfg.device
    case None => None
    case Some(section) =>
      if key in section then Some(section[key])
      else if key in cfg.defaults then Some(cfg.defaults[key])
      else None
  }

  /** One lookup of `_get_pi_device`: `CONFIG["DEFAULT"][key]` or `CONFIG["device"][key]`. */
  datatype Setting = Default(key: string) | InDevice(key: string)

  /** The lookups each script makes, in order; only client.py reads "port". */
  function Reads(script: Script): seq<Setting>
  {
    (if script == ClientPy then [Default("device_name"), Default("ip_address"), Default("port")]
     else [Default("device_name"), Default("ip_address")])
    + [Default("sleep"), Default("https"), Default("password"),
       InDevice("has_internet"), InDevice("had_internet_before"), InDevice("has_new_set_not_recording"),
       InDevice("is_recording"), InDevice("device_set")]
  }

  /** The stored text a lookup finds; None where it raises KeyError. */
  function Raw(cfg: Config, s: Setting): Option<string>
  {
    match s
    case Default(k) => if k in cfg.defaults then Some(cfg.defaults[k]) else None
    case InDevice(k) => DeviceValue(cfg, k)
  }

  /** The values a substitution may refer to: DEFAULT, under the device section's own for a device lookup. */
  function Scope(cfg: Config, s: Setting): map<string, string>
  {
    if s.InDevice? && cfg.device.Some? then cfg.defaults + cfg.device.value else cfg.defaults
  }

  /** What a lookup gives: the value, a KeyError, or an `InterpolationError`. */
  datatype Looked = Found(v: string) | NoKey | BadValue

  function Lookup(cfg: Config, s: Setting): Looked
  {
    match Raw(cfg, s)
    case None => NoKey
    case Some(text) =>
      match Interpolate(text, Scope(cfg, s), 1)
      case None => BadValue
      case Some(v) => Found(v)
  }

  /** Every lookup the script makes finds its key. */
  predicate Complete(script: Script, cfg: Config)
  {
    forall s :: s in Reads(script) ==> Raw(cfg, s).Some?
  }

  /** The outcome of the first lookup in `lookups` that raises; None when none does. */
  function FirstFailure(cfg: Config, lookups: seq<Setting>): (f: Option<Looked>)
    ensures f.None? <==> forall i :: 0 <= i < |lookups| ==> Lookup(cfg, lookups[i]).Found?
    ensures f.Some? ==>
              exists i :: && 0 <= i < |lookups| && f.value == Lookup(cfg, lookups[i]) && !f.value.Found?
                          && forall j :: 0 <= j < i ==> Lookup(cfg, lookups[j]).Found?
    decreases |lookups|
  {
    if lookups == [] then None
    else if !Lookup(cfg, lookups[0]).Found? then
      Some(Lookup(cfg, lookups[0]))
    else
      var f := FirstFailure(cfg, lookups[1..]);
      if f.None? then f
      else
        var i :| && 0 <= i < |lookups[1..]| && f.value == Lookup(cfg, lookups[1..][i]) && !f.value.Found?
                 && forall j :: 0 <= j < i ==> Lookup(cfg, lookups[1..][j]).Found?;
        assert forall j :: 0 <= j < i + 1 ==> Lookup(cfg, lookups[j]).Found? by {
          forall j | 0 <= j < i + 1 ensures Lookup(cfg, lookups[j]).Found? {
            if j > 0 {
              assert lookups[j] == lookups[1..][j - 1];
            }
          }
        }
        assert lookups[i + 1] == lookups[1..][i];
        f
  }

  /** `CONFIG["DEFAULT"][key]` after substitution ("" where the lookup raises, which `FirstFailure` rules out where it matters). */
  function Entry(cfg: Config, key: string): string
  {
    match Lookup(cfg, Default(key))
    case Found(v) => v
    case _ => ""
  }

  /** `CONFIG["device"][key]` after substitution, "" likewise. */
  function DeviceEntry(cfg: Config, key: string): string
  {
    match Lookup(cfg, InDevice(key))
    case Found(v) => v
    case _ => ""
  }

  /** Python's `bool` on a string: every non-empty string is true, "False" included. */
  predicate Truthy(s: string)
  {
    s != ""
  }

  /** Every check that sets `error`, given the value `float` made of the sleep setting. */
  predicate Invalid(script: Script, cfg: Config, sleep: real)
  {
    var deviceSet := DeviceEntry(cfg, "device_set");
    var https := Lower(Entry(cfg, "https"));
    || Entry(cfg, "device_name") == ""
    || Entry(cfg, "ip_address") == ""
    || (script == ClientPy && Entry(cfg, "port") == "")
    || Entry(cfg, "sleep") == "" || sleep < 0.0
    || DeviceEntry(cfg, "has_internet") == ""
    || DeviceEntry(cfg, "had_internet_before") == ""
    || DeviceEntry(cfg, "has_new_set_not_recording") == ""
    || DeviceEntry(cfg, "is_recording") == ""
    || deviceSet == "" || PyInt(deviceSet).None? || PyInt(deviceSet).value < 1
    || Entry(cfg, "password") == "" || |Entry(cfg, "password")| < 5
    || (https != "true" && https != "false")
  }

  /** The arguments `_get_pi_device` passes to `Device`; "port" is read but not passed on. */
  datatype DeviceArgs = DeviceArgs(
    deviceName: string, ipAddress: string, sleep: real,
    isRecording: bool, hasInternet: bool, hadInternetBefore: bool, hasNewSetNotRecording: bool,
    currentSet: int, password: string, https: bool)

  /** The device arguments; `sys.exit(2)`; or an exception nothing catches. */
  datatype Validation = Accepted(args: DeviceArgs) | Rejected | Raised

  /**
   * `_get_pi_device`. The first lookup that raises decides: a KeyError exits
   * in client.py, which catches it, and escapes in test_client.py, which does
   * not; an `InterpolationError` is no KeyError, so it escapes in both. A
   * sleep value `float` cannot read escapes in both too: the handler sets
   * `error`, but the `float(sleep) < 0` check right after it converts the
   * text again.
   */
  function ValidatePiDevice(script: Script, cfg: Config, float: string -> Option<real>): (v: Validation)
    ensures var f := FirstFailure(cfg, Reads(script));
            v.Raised? <==>
              || f == Some(BadValue) || (f == Some(NoKey) && script == TestClientPy)
              || (f.None? && float(Entry(cfg, "sleep")).None?)
    ensures var f := FirstFailure(cfg, Reads(script));
            v.Rejected? <==>
              || (f == Some(NoKey) && script == ClientPy)
              || (f.None? && float(Entry(cfg, "sleep")).Some? && Invalid(script, cfg, float(Entry(cfg, "sleep")).value))
    ensures v.Accepted? ==>
              && v.args.deviceName == Entry(cfg, "device_name") != ""
              && v.args.ipAddress == Entry(cfg, "ip_address") != ""
              && Some(v.args.sleep) == float(Entry(cfg, "sleep")) && v.args.sleep >= 0.0
              && v.args.isRecording && v.args.hasInternet && v.args.hadInternetBefore && v.args.hasNewSetNotRecording
              && Some(v.args.currentSet) == PyInt(DeviceEntry(cfg, "device_set")) && v.args.currentSet >= 1
              && v.args.password == Entry(cfg, "password") && |v.args.password| >= 5
              && (v.args.https <==> Lower(Entry(cfg, "https")) == "true")
              && (!v.args.https <==> Lower(Entry(cfg, "https")) == "false")
  {
    var f := FirstFailure(cfg, Reads(script));
    if f == Some(NoKey) then
      if script == ClientPy then Rejected else Raised
    else if f.Some? then Raised
    else
      var sleep := float(Entry(cfg, "sleep"));
      if sleep.None? then Raised
      else if Invalid(script, cfg, sleep.value) then Rejected
      else
        Accepted(DeviceArgs(
          Entry(cfg, "device_name"), Entry(cfg, "ip_address"), sleep.value,
          Truthy(DeviceEntry(cfg, "is_recording")), Truthy(DeviceEntry(cfg, "has_internet")),
          Truthy(DeviceEntry(cfg, "had_internet_before")), Truthy(DeviceEntry(cfg, "has_new_set_not_recording")),
          PyInt(DeviceEntry(cfg, "device_set")).value, Entry(cfg, "password"),
          Lower(Entry(cfg, "https")) == "true"))
  }

  /** A KeyError comes first exactly in a file that lacks a key the script reads, unless a value raises before it. */
  lemma KeyErrorWhenIncomplete(script: Script, cfg: Config)
    ensures FirstFailure(cfg, Reads(script)) == Some(NoKey) ==> !Complete(script, cfg)
    ensures !Complete(script, cfg) ==> FirstFailure(cfg, Reads(script)).Some?
  {
    var lookups := Reads(script);
    var f := FirstFailure(cfg, lookups);
    if f == Some(NoKey) {
      var i :| 0 <= i < |lookups| && f.value == Lookup(cfg, lookups[i]);
      assert lookups[i] in lookups;
    }
    if !Complete(script, cfg) {
      var s :| s in lookups && Raw(cfg, s).None?;
      var i :| 0 <= i < |lookups| && lookups[i] == s;
      assert !Lookup(cfg, lookups[i]).Found?;
    }
  }

  /** A complete file with a value that substitution rejects makes both scripts raise. */
  lemma BadValueRaises(script: Script, cfg: Config, float: string -> Option<real>, s: Setting)
    requires Complete(script, cfg) && s in Reads(script) && Lookup(cfg, s).BadValue?
    ensures ValidatePiDevice(script, cfg, float).Raised?
  {
    var lookups := Reads(script);
    var i :| 0 <= i < |lookups| && lookups[i] == s;
    assert !Lookup(cfg, lookups[i]).Found?;
    var f := FirstFailure(cfg, lookups);
    var k :| 0 <= k < |lookups| && f.value == Lookup(cfg, lookups[k]) && !f.value.Found?;
    assert lookups[k] in lookups;
  }

  /**
   * In a file whose values hold no '%', substitution changes nothing: the
   * lookups give the stored text, and the outcome depends only on whether a
   * key is missing and on the checks.
   */
  lemma PlainFileValidates(script: Script, cfg: Config, float: string -> Option<real>)
    requires forall s :: s in Reads(script) && Raw(cfg, s).Some? ==> '%' !in Raw(cfg, s).value
    ensures forall s :: s in Reads(script) && Raw(cfg, s).Some? ==> Lookup(cfg, s) == Found(Raw(cfg, s).value)
    ensures var v := ValidatePiDevice(script, cfg, float);
            && (v.Raised? <==> if Complete(script, cfg) then float(Entry(cfg, "sleep")).None? else script == TestClientPy)
            && (v.Rejected? <==>
                  if Complete(script, cfg) then
                    float(Entry(cfg, "sleep")).Some? && Invalid(script, cfg, float(Entry(cfg, "sleep")).value)
                  else script == ClientPy)
  {
    PlainFileFailure(script, cfg);
  }

  /** In a file whose values hold no '%', only a missing key can make a lookup fail. */
  lemma PlainFileFailure(script: Script, cfg: Config)
    requires forall s :: s in Reads(script) && Raw(cfg, s).Some? ==> '%' !in Raw(cfg, s).value
    ensures forall s :: s in Reads(script) && Raw(cfg, s).Some? ==> Lookup(cfg, s) == Found(Raw(cfg, s).value)
    ensures FirstFailure(cfg, Reads(script)) == if Complete(script, cfg) then None else Some(NoKey)
  {
    forall s | s in Reads(script) && Raw(cfg, s).Some? ensures Lookup(cfg, s) == Found(Raw(cfg, s).value) {
      LookupPlain(cfg, s, Raw(cfg, s).value);
    }
    KeyErrorWhenIncomplete(script, cfg);
    var lookups := Reads(script);
    var f := FirstFailure(cfg, lookups);
    if f.Some? {
      var k :| 0 <= k < |lookups| && f.value == Lookup(cfg, lookups[k]) && !f.value.Found?;
      assert lookups[k] in lookups;
    }
    if Complete(script, cfg) {
      forall i | 0 <= i < |lookups| ensures Lookup(cfg, lookups[i]).Found? {
        assert lookups[i] in lookups;
      }
    }
  }

  /** `_get_pi_device`, building the `Device` when the settings pass. */
  method GetPiDevice(script: Script, cfg: Config, float: string -> Option<real>) returns (v: Validation, d: Device?)
    ensures v == ValidatePiDevice(script, cfg, float)
    ensures v.Accepted? <==> d != null
    ensures v.Accepted? ==>
              && fresh(d)
              && d.deviceName == v.args.deviceName && d.ipAddress == v.args.ipAddress && d.sleep == v.args.sleep
              && d.csvFile == CsvFile(v.args.deviceName) && d.protocol == Protocol(v.args.https)
              && d.isRecording == v.args.isRecording && d.hasInternet == v.args.hasInternet
              && d.hadInternetBefore == v.args.hadInternetBefore
              && d.hasNewSetNotRecording == v.args.hasNewSetNotRecording
              && d.currentSet == v.args.currentSet && d.password == v.args.password
              && !d.isCheckedIn && d.port == None
  {
    v := ValidatePiDevice(script, cfg, float);
    d := null;
    if v.Accepted? {
      var a := v.args;
      d := new Device(deviceName := a.deviceName, ipAddress := a.ipAddress, sleep := a.sleep,
                      isRecording := a.isRecording, hasInternet := a.hasInternet,
                      hadInternetBefore := a.hadInternetBefore, hasNewSetNotRecording := a.hasNewSetNotRecording,
                      currentSet := a.currentSet, password := a.password, https := a.https);
    }
  }

  /** A first-run answer, an empty one taking the default. */
  function Answer(typed: string, default: string): string
  {
    if typed == "" then default else typed
  }

  /**
   * The client.ini that client.py's first run writes from the four answers
   * it asks for, as `configparser` reads it back: each answer, or its
   * default, without its surrounding white space.
   */
  function FirstRunConfig(name: string, ip: string, port: string, password: string): Config
  {
    FirstRunFile(StoredValue(Answer(name, "Device")), StoredValue(Answer(ip, "localhost")),
                 StoredValue(Answer(port, ":8003")), StoredValue(Answer(password, "password")))
  }

  /** The file `_init_file_system` writes, given the text it stores for the four answers. */
  function FirstRunFile(name: string, ip: string, port: string, password: string): Config
  {
    Config(
      map["device_name" := name, "password" := password, "ip_address" := ip, "port" := port,
          "sleep" := "2", "https" := "False"],
      Some(map["has_internet" := "True", "had_internet_before" := "True",
               "has_new_set_not_recording" := "False", "is_recording" := "True",
               "device_set" := "1", "is_checked_in" := "True"]))
  }

  /**
   * A file holding what a first run stores: the four answers as they read
   * back, and the fixed settings.
   */
  predicate WrittenFirstRun(cfg: Config, name: string, ip: string, port: string, password: string)
  {
    && Raw(cfg, Default("device_name")) == Some(name) && Raw(cfg, Default("ip_address")) == Some(ip)
    && Raw(cfg, Default("port")) == Some(port) && Raw(cfg, Default("password")) == Some(password)
    && Raw(cfg, Default("sleep")) == Some("2") && Raw(cfg, Default("https")) == Some("False")
    && Raw(cfg, InDevice("has_internet")) == Some("True") && Raw(cfg, InDevice("had_internet_before")) == Some("True")
    && Raw(cfg, InDevice("has_new_set_not_recording")) == Some("False")
    && Raw(cfg, InDevice("is_recording")) == Some("True") && Raw(cfg, InDevice("device_set")) == Some("1")
  }

  lemma FirstRunWritten(name: string, ip: string, port: string, password: string)
    ensures WrittenFirstRun(FirstRunFile(name, ip, port, password), name, ip, port, password)
  {
  }

  /** A first-run file has every key client.py reads, so it never exits for a missing one. */
  lemma FirstRunComplete(name: string, ip: string, port: string, password: string)
    ensures Complete(ClientPy, FirstRunConfig(name, ip, port, password))
  {
    var n, i, p, pw := StoredValue(Answer(name, "Device")), StoredValue(Answer(ip, "localhost")),
                       StoredValue(Answer(port, ":8003")), StoredValue(Answer(password, "password"));
    FirstRunWritten(n, i, p, pw);
    WrittenComplete(FirstRunFile(n, i, p, pw), n, i, p, pw);
  }

  lemma WrittenComplete(cfg: Config, name: string, ip: string, port: string, password: string)
    requires WrittenFirstRun(cfg, name, ip, port, password)
    ensures Complete(ClientPy, cfg)
  {
  }

  /**
   * In a file that has every key the script reads, the first lookup that
   * fails can only be a value that substitution rejects.
   */
  lemma CompleteFailure(script: Script, cfg: Config)
    requires Complete(script, cfg)
    ensures FirstFailure(cfg, Reads(script)).None? <==> !exists s :: s in Reads(script) && Lookup(cfg, s).BadValue?
    ensures FirstFailure(cfg, Reads(script)) != Some(NoKey)
  {
    var lookups := Reads(script);
    var f := FirstFailure(cfg, lookups);
    if exists s :: s in lookups && Lookup(cfg, s).BadValue? {
      var s :| s in lookups && Lookup(cfg, s).BadValue?;
      var i :| 0 <= i < |lookups| && lookups[i] == s;
      assert !Lookup(cfg, lookups[i]).Found?;
    }
    if f.Some? {
      var k :| 0 <= k < |lookups| && f.value == Lookup(cfg, lookups[k]) && !f.value.Found?;
      assert lookups[k] in lookups;
    }
  }

  /** A stored value with no '%' is handed back as stored. */
  lemma LookupPlain(cfg: Config, s: Setting, text: string)
    requires Raw(cfg, s) == Some(text) && '%' !in text
    ensures Lookup(cfg, s) == Found(text)
  {
    InterpolatePlain(text, Scope(cfg, s), 1);
  }

  /** The fixed settings read back as written; an answer with no '%' reads back as stored. */
  lemma WrittenLookups(cfg: Config, name: string, ip: string, port: string, password: string)
    requires WrittenFirstRun(cfg, name, ip, port, password)
    ensures Lookup(cfg, Default("sleep")) == Found("2") && Lookup(cfg, Default("https")) == Found("False")
    ensures Lookup(cfg, InDevice("has_internet")) == Found("True")
    ensures Lookup(cfg, InDevice("had_internet_before")) == Found("True")
    ensures Lookup(cfg, InDevice("has_new_set_not_recording")) == Found("False")
    ensures Lookup(cfg, InDevice("is_recording")) == Found("True")
    ensures Lookup(cfg, InDevice("device_set")) == Found("1")
    ensures '%' !in name ==> Lookup(cfg, Default("device_name")) == Found(name)
    ensures '%' !in ip ==> Lookup(cfg, Default("ip_address")) == Found(ip)
    ensures '%' !in port ==> Lookup(cfg, Default("port")) == Found(port)
    ensures '%' !in password ==> Lookup(cfg, Default("password")) == Found(password)
  {
    LookupPlain(cfg, Default("sleep"), "2");
    LookupPlain(cfg, Default("https"), "False");
    LookupPlain(cfg, InDevice("has_internet"), "True");
    LookupPlain(cfg, InDevice("had_internet_before"), "True");
    LookupPlain(cfg, InDevice("has_new_set_not_recording"), "False");
    LookupPlain(cfg, InDevice("is_recording"), "True");
    LookupPlain(cfg, InDevice("device_set"), "1");
    if '%' !in name { LookupPlain(cfg, Default("device_name"), name); }
    if '%' !in ip { LookupPlain(cfg, Default("ip_address"), ip); }
    if '%' !in port { LookupPlain(cfg, Default("port"), port); }
    if '%' !in password { LookupPlain(cfg, Default("password"), password); }
  }

  /** Of the checks `_get_pi_device` makes, a first-run file can fail only those on the four answers. */
  lemma WrittenInvalid(cfg: Config, name: string, ip: string, port: string, password: string)
    requires WrittenFirstRun(cfg, name, ip, port, password)
    ensures Invalid(ClientPy, cfg, 2.0) <==>
              || Entry(cfg, "device_name") == "" || Entry(cfg, "ip_address") == "" || Entry(cfg, "port") == ""
              || |Entry(cfg, "password")| < 5
    ensures Entry(cfg, "sleep") == "2" && DeviceEntry(cfg, "has_new_set_not_recording") == "False"
    ensures PyInt(DeviceEntry(cfg, "device_set")) == Some(1)
    ensures Lower(Entry(cfg, "https")) == "false"
  {
    WrittenLookups(cfg, name, ip, port, password);
    FixedTexts();
  }

  /** How `int` and `str.lower` read the texts a first run stores for "device_set" and "https". */
  lemma FixedTexts()
    ensures PyInt("1") == Some(1) && Lower("False") == "false"
  {
    PyIntItoa(1);
    assert Itoa(1) == "1";
    var l := Lower("False");
    assert l[0] == 'f' && l[1] == 'a' && l[2] == 'l' && l[3] == 's' && l[4] == 'e';
  }

  /**
   * `_get_pi_device` on a first-run file: it raises exactly when a lookup
   * rejects a value, and otherwise passes exactly when the name, the address
   * and the port are non-empty and the password is at least five long.
   */
  lemma WrittenValidates(cfg: Config, name: string, ip: string, port: string, password: string,
                         float: string -> Option<real>)
    requires WrittenFirstRun(cfg, name, ip, port, password) && float("2") == Some(2.0)
    ensures var v := ValidatePiDevice(ClientPy, cfg, float);
            && (v.Raised? <==> exists s :: s in Reads(ClientPy) && Lookup(cfg, s).BadValue?)
            && (v.Accepted? <==>
                  && !v.Raised?
                  && Entry(cfg, "device_name") != "" && Entry(cfg, "ip_address") != "" && Entry(cfg, "port") != ""
                  && |Entry(cfg, "password")| >= 5)
            && (v.Accepted? ==> v.args.hasNewSetNotRecording && v.args.currentSet == 1 && !v.args.https)
  {
    WrittenComplete(cfg, name, ip, port, password);
    CompleteFailure(ClientPy, cfg);
    if FirstFailure(cfg, Reads(ClientPy)).None? {
      WrittenAccepts(cfg, name, ip, port, password, float);
    }
  }

  /** When no lookup fails, a first-run file passes exactly when its four answers pass the checks. */
  lemma WrittenAccepts(cfg: Config, name: string, ip: string, port: string, password: string,
                       float: string -> Option<real>)
    requires WrittenFirstRun(cfg, name, ip, port, password) && float("2") == Some(2.0)
    requires FirstFailure(cfg, Reads(ClientPy)).None?
    ensures var v := ValidatePiDevice(ClientPy, cfg, float);
            && !v.Raised?
            && (v.Accepted? <==>
                  && Entry(cfg, "device_name") != "" && Entry(cfg, "ip_address") != "" && Entry(cfg, "port") != ""
                  && |Entry(cfg, "password")| >= 5)
            && (v.Accepted? ==> v.args.hasNewSetNotRecording && v.args.currentSet == 1 && !v.args.https)
  {
    WrittenInvalid(cfg, name, ip, port, password);
  }

  /**
   * The file a first run writes reads back with each answer stripped. It
   * raises when a stored answer holds a '%' that substitution rejects.
   * Otherwise it passes exactly when the name, the address and the port
   * read back non-empty and the password at least five characters long;
   * and it comes back with a pending new set although it says "False",
   * since `bool("False")` is true.
   */
  lemma FirstRunAccepted(name: string, ip: string, port: string, password: string, float: string -> Option<real>)
    requires float("2") == Some(2.0)
    ensures var cfg := FirstRunConfig(name, ip, port, password);
            var v := ValidatePiDevice(ClientPy, cfg, float);
            && (v.Raised? <==> exists s :: s in Reads(ClientPy) && Lookup(cfg, s).BadValue?)
            && (v.Accepted? <==>
                  && !v.Raised?
                  && Entry(cfg, "device_name") != "" && Entry(cfg, "ip_address") != "" && Entry(cfg, "port") != ""
                  && |Entry(cfg, "password")| >= 5)
            && (v.Accepted? ==> v.args.hasNewSetNotRecording && v.args.currentSet == 1 && !v.args.https)
  {
    var n, i, p, pw := StoredValue(Answer(name, "Device")), StoredValue(Answer(ip, "localhost")),
                       StoredValue(Answer(port, ":8003")), StoredValue(Answer(password, "password"));
    FirstRunWritten(n, i, p, pw);
    WrittenValidates(FirstRunFile(n, i, p, pw), n, i, p, pw, float);
  }

  /** The defaults client.py's first run offers hold no '%'. */
  lemma DefaultAnswersPlain()
    ensures '%' !in "Device" && '%' !in "localhost" && '%' !in ":8003" && '%' !in "password"
  {
  }

  /** Stripping keeps no character the text did not have. */
  lemma StoredValueWithin(text: string, c: char)
    requires c !in text
    ensures c !in StoredValue(text)
  {
    var v := StoredValue(text);
    var i :| InfixAt(text, v, i);
    forall k | 0 <= k < |v| ensures v[k] != c {
      assert v[k] == text[i + k];
    }
  }

  /** An answer with no '%', over a default with none, is stored stripped and still without '%'. */
  lemma AnswerPlain(typed: string, default: string)
    requires '%' !in typed && '%' !in default
    ensures StoredValue(Answer(typed, default)) == Strip(Answer(typed, default))
    ensures '%' !in StoredValue(Answer(typed, default))
  {
    StoredValueWithin(Answer(typed, default), '%');
  }

  /** An answer with no '%' reads back as typed, without its surrounding white space. */
  lemma FirstRunEntries(name: string, ip: string, port: string, password: string)
    ensures var cfg := FirstRunConfig(name, ip, port, password);
            && ('%' !in name ==> Entry(cfg, "device_name") == Strip(Answer(name, "Device")))
            && ('%' !in ip ==> Entry(cfg, "ip_address") == Strip(Answer(ip, "localhost")))
            && ('%' !in port ==> Entry(cfg, "port") == Strip(Answer(port, ":8003")))
            && ('%' !in password ==> Entry(cfg, "password") == Strip(Answer(password, "password")))
  {
    var n, i, p, pw := StoredValue(Answer(name, "Device")), StoredValue(Answer(ip, "localhost")),
                       StoredValue(Answer(port, ":8003")), StoredValue(Answer(password, "password"));
    FirstRunWritten(n, i, p, pw);
    DefaultAnswersPlain();
    if '%' !in name { AnswerPlain(name, "Device"); }
    if '%' !in ip { AnswerPlain(ip, "localhost"); }
    if '%' !in port { AnswerPlain(port, ":8003"); }
    if '%' !in password { AnswerPlain(password, "password"); }
    WrittenLookups(FirstRunFile(n, i, p, pw), n, i, p, pw);
  }

  /** The settings a first run writes itself read back as written. */
  lemma FirstRunFixedEntries(name: string, ip: string, port: string, password: string)
    ensures var cfg := FirstRunConfig(name, ip, port, password);
            && Entry(cfg, "sleep") == "2" && Entry(cfg, "https") == "False"
            && DeviceEntry(cfg, "has_internet") == "True" && DeviceEntry(cfg, "had_internet_before") == "True"
            && DeviceEntry(cfg, "has_new_set_not_recording") == "False" && DeviceEntry(cfg, "is_recording") == "True"
            && DeviceEntry(cfg, "device_set") == Itoa(1)
  {
    var n, i, p, pw := StoredValue(Answer(name, "Device")), StoredValue(Answer(ip, "localhost")),
                       StoredValue(Answer(port, ":8003")), StoredValue(Answer(password, "password"));
    FirstRunWritten(n, i, p, pw);
    WrittenLookups(FirstRunFile(n, i, p, pw), n, i, p, pw);
    assert Itoa(1) == "1";
  }

  /**
   * Answers with no '%' never raise: the first run passes exactly when the
   * name, the address and the port are not blank and the password, stripped,
   * has at least five characters.
   */
  lemma FirstRunPlainAnswers(name: string, ip: string, port: string, password: string, float: string -> Option<real>)
    requires float("2") == Some(2.0)
    requires '%' !in name && '%' !in ip && '%' !in port && '%' !in password
    ensures var v := ValidatePiDevice(ClientPy, FirstRunConfig(name, ip, port, password), float);
            && !v.Raised?
            && (v.Accepted? <==>
                  && Strip(Answer(name, "Device")) != "" && Strip(Answer(ip, "localhost")) != ""
                  && Strip(Answer(port, ":8003")) != "" && |Strip(Answer(password, "password"))| >= 5)
  {
    var n, i, p, pw := StoredValue(Answer(name, "Device")), StoredValue(Answer(ip, "localhost")),
                       StoredValue(Answer(port, ":8003")), StoredValue(Answer(password, "password"));
    FirstRunWritten(n, i, p, pw);
    DefaultAnswersPlain();
    AnswerPlain(name, "Device");
    AnswerPlain(ip, "localhost");
    AnswerPlain(port, ":8003");
    AnswerPlain(password, "password");
    WrittenPlainValidates(FirstRunFile(n, i, p, pw), n, i, p, pw, float);
  }

  /** A first-run file whose stored answers hold no '%' never raises. */
  lemma WrittenPlainValidates(cfg: Config, name: string, ip: string, port: string, password: string,
                              float: string -> Option<real>)
    requires WrittenFirstRun(cfg, name, ip, port, password) && float("2") == Some(2.0)
    requires '%' !in name && '%' !in ip && '%' !in port && '%' !in password
    ensures var v := ValidatePiDevice(ClientPy, cfg, float);
            && !v.Raised?
            && (v.Accepted? <==> name != "" && ip != "" && port != "" && |password| >= 5)
  {
    WrittenPlainFound(cfg, name, ip, port, password);
    WrittenValidates(cfg, name, ip, port, password, float);
  }

  /** Every lookup of a first-run file whose answers hold no '%' finds its stored text. */
  lemma WrittenPlainFound(cfg: Config, name: string, ip: string, port: string, password: string)
    requires WrittenFirstRun(cfg, name, ip, port, password)
    requires '%' !in name && '%' !in ip && '%' !in port && '%' !in password
    ensures forall s :: s in Reads(ClientPy) ==> Lookup(cfg, s) == Found(Raw(cfg, s).value)
    ensures Entry(cfg, "device_name") == name && Entry(cfg, "ip_address") == ip
    ensures Entry(cfg, "port") == port && Entry(cfg, "password") == password
  {
    WrittenComplete(cfg, name, ip, port, password);
    forall s | s in Reads(ClientPy) ensures Lookup(cfg, s) == Found(Raw(cfg, s).value) {
      LookupPlain(cfg, s, Raw(cfg, s).value);
    }
  }

  /** A password typed with a trailing space, "abcd ", reads back as "abcd", which is too short. */
  lemma FirstRunPaddedPassword(float: string -> Option<real>)
    requires float("2") == Some(2.0)
    ensures ValidatePiDevice(ClientPy, FirstRunConfig("", "", "", "abcd "), float).Rejected?
  {
    assert Strip("abcd ") == Strip("abcd") == "abcd";
    FirstRunPlainAnswers("", "", "", "abcd ", float);
  }

  /** A name typed as a single space is not empty, so it is kept, but it reads back empty. */
  lemma FirstRunBlankName(float: string -> Option<real>)
    requires float("2") == Some(2.0)
    ensures ValidatePiDevice(ClientPy, FirstRunConfig(" ", "", "", ""), float).Rejected?
  {
    assert Strip(" ") == Strip("") == "";
    FirstRunPlainAnswers(" ", "", "", "", float);
  }

  /** A first-run password that substitution rejects makes the run raise, and nothing catches it. */
  lemma WrittenBadPassword(cfg: Config, name: string, ip: string, port: string, password: string,
                           float: string -> Option<real>)
    requires WrittenFirstRun(cfg, name, ip, port, password) && Interpolate(password, cfg.defaults, 1).None?
    ensures ValidatePiDevice(ClientPy, cfg, float).Raised?
  {
    WrittenComplete(cfg, name, ip, port, password);
    BadValueRaises(ClientPy, cfg, float, Default("password"));
  }

  /** A password typed as "ab%cdef" makes the lookup raise, and nothing catches it. */
  lemma FirstRunPercentPassword(float: string -> Option<real>)
    ensures ValidatePiDevice(ClientPy, FirstRunConfig("", "", "", "ab%cdef"), float).Raised?
  {
    var n, i, p := StoredValue(Answer("", "Device")), StoredValue(Answer("", "localhost")), StoredValue(Answer("", ":8003"));
    var pw := StoredValue(Answer("ab%cdef", "password"));
    assert pw == "ab%cdef";
    var cfg := FirstRunFile(n, i, p, pw);
    FirstRunWritten(n, i, p, pw);
    BarePercentExample(cfg.defaults);
    WrittenBadPassword(cfg, n, i, p, pw, float);
  }

  // ---------------------------------------------------------------------------
  // The client's state

  /** `CONFIG["device"]`, the device's csv log and its archive directory (file name to contents). */
  class Local {
    var config: map<string, string>
    var csv: string
    var sets: map<string, string>
  }

  /** What one pass of the loop can change, as a value. */
  datatype State = State(
    isRecording: bool, hasInternet: bool, hadInternetBefore: bool, hasNewSetNotRecording: bool,
    isCheckedIn: bool, currentSet: int, config: map<string, string>, csv: string, sets: map<string, string>)

  function StateOf(d: Device, l: Local): State
    reads d, l
  {
    State(d.isRecording, d.hasInternet, d.hadInternetBefore, d.hasNewSetNotRecording,
          d.isCheckedIn, d.currentSet, l.config, l.csv, l.sets)
  }

  /** The outcome of an HTTP request: the decoded body, or an exception from `requests`. */
  datatype Reply = Answered(text: string) | NoConnection

  /** The loop goes on, or an exception ended the program. */
  datatype Outcome = Running | Died

  /** The except blocks that note a lost connection on the device and in the configuration. */
  function WentOffline(s: State): (t: State)
    ensures !t.hasInternet && !t.hadInternetBefore
    ensures t.config == s.config["has_internet" := "False"]["had_internet_before" := "False"]
    ensures t.(hasInternet := s.hasInternet, hadInternetBefore := s.hadInternetBefore, config := s.config) == s
  {
    s.(hasInternet := false, hadInternetBefore := false,
       config := s.config["has_internet" := "False"]["had_internet_before" := "False"])
  }

  // ---------------------------------------------------------------------------
  // Checking in (`_check_in_device`)

  /** The effect of the check-in reply. */
  function CheckedIn(s: State, reply: Reply): (t: State)
    ensures t.isCheckedIn == (s.isCheckedIn || (reply.Answered? && reply.text != "Already checked in"))
    ensures reply.NoConnection? ==> t == WentOffline(s)
    ensures reply.Answered? ==> t.hasInternet == s.hasInternet && t.hadInternetBefore == s.hadInternetBefore
    ensures reply.Answered? ==>
              t.config == s.config["is_checked_in" := if reply.text == "Already checked in" then "False" else "True"]
    ensures t.isRecording == s.isRecording && t.hasNewSetNotRecording == s.hasNewSetNotRecording
    ensures t.currentSet == s.currentSet && t.csv == s.csv && t.sets == s.sets
  {
    match reply
    case NoConnection => WentOffline(s)
    case Answered(text) =>
      if text == "Already checked in" then s.(config := s.config["is_checked_in" := "False"])
      else s.(isCheckedIn := true, config := s.config["is_checked_in" := "True"])
  }

  /**
   * `_check_in_device`. client.py builds the URL from `pi_device.port` before
   * its try block, so on a device without that attribute it dies first.
   */
  method CheckInDevice(script: Script, d: Device, l: Local, reply: Reply) returns (o: Outcome)
    modifies d`isCheckedIn, d`hasInternet, d`hadInternetBefore, l`config
    ensures script == ClientPy && d.port.None? ==> o == Died && StateOf(d, l) == old(StateOf(d, l))
    ensures !(script == ClientPy && d.port.None?) ==> o == Running && StateOf(d, l) == CheckedIn(old(StateOf(d, l)), reply)
  {
    if script == ClientPy && d.port.None? {
      return Died;
    }
    match reply {
      case NoConnection =>
        d.hasInternet := false;
        d.hadInternetBefore := false;
        l.config := l.config["has_internet" := "False"]["had_internet_before" := "False"];
      case Answered(text) =>
        if text == "Already checked in" {
          l.config := l.config["is_checked_in" := "False"];
        } else {
          d.isCheckedIn := true;
          l.config := l.config["is_checked_in" := "True"];
        }
    }
    o := Running;
  }

  // ---------------------------------------------------------------------------
  // The recording branch of `init`

  /** What one pass of the loop learns from outside: the reload upload, the movement bit, the clock and the reply. */
  datatype Exchange = Exchange(reloadDelivered: bool, movement: bool, date: string, time: string, reply: Reply)

  /** The reading posted to the server; test_client.py ends it with a newline. */
  function TimeStamp(script: Script, name: string, date: string, time: string, movement: bool): string
  {
    var line := name + [','] + date + [','] + time + [','] + (if movement then "1" else "0");
    if script == ClientPy then line else line + "\n"
  }

  /** Without commas in its fields, a time stamp splits back into them. */
  lemma TimeStampFields(script: Script, name: string, date: string, time: string, movement: bool)
    requires ',' !in name && ',' !in date && ',' !in time
    ensures Split(TimeStamp(script, name, date, time, movement), ',') ==
            [name, date, time, (if movement then "1" else "0") + (if script == ClientPy then "" else "\n")]
  {
    var m := if movement then "1" else "0";
    var last := m + (if script == ClientPy then "" else "\n");
    assert ',' !in last by {
      if script == TestClientPy {
        assert last == [m[0], '\n'];
      }
    }
    assert TimeStamp(script, name, date, time, movement) == name + [','] + date + [','] + time + [','] + last;
    SplitFour(name, date, time, last, ',');
  }

  /**
   * The line appended to the local log. client.py re-splits the time stamp
   * and keeps its second and third fields; test_client.py writes it whole.
   */
  function LocalLine(script: Script, name: string, date: string, time: string, movement: bool): (line: string)
    ensures script == TestClientPy ==> line == TimeStamp(script, name, date, time, movement)
    ensures script == ClientPy && ',' !in name && ',' !in date && ',' !in time ==> line == date + "," + time + " \n"
  {
    var stamp := TimeStamp(script, name, date, time, movement);
    if script == TestClientPy then stamp
    else
      var rest := date + [','] + time + [','] + (if movement then "1" else "0");
      SplitLonger(time, if movement then "1" else "0", ',');
      SplitLonger(date, time + [','] + (if movement then "1" else "0"), ',');
      assert date + [','] + (time + [','] + (if movement then "1" else "0")) == rest;
      SplitLonger(name, rest, ',');
      assert stamp == name + [','] + rest;
      var fields := Split(stamp, ',');
      if ',' !in name && ',' !in date && ',' !in time then
        TimeStampFields(script, name, date, time, movement);
        fields[1] + "," + fields[2] + " \n"
      else
        fields[1] + "," + fields[2] + " \n"
  }

  /** The first position of `token`, or the length when it does not occur. */
  function FirstIndex(tokens: seq<string>, token: string): (k: nat)
    ensures k <= |tokens| && token !in tokens[..k]
    ensures k < |tokens| <==> token in tokens
    ensures k < |tokens| ==> tokens[k] == token
  {
    if tokens == [] then 0
    else if tokens[0] == token then 0
    else
      var k := 1 + FirstIndex(tokens[1..], token);
      assert tokens[..k] == [tokens[0]] + tokens[1..][..k - 1];
      k
  }

  /** A "Stop Recording" token stops the device and notes it in the configuration. */
  function Stopped(s: State, stop: bool): State
  {
    if stop then s.(isRecording := false, config := s.config["is_recording" := "False"]) else s
  }

  /**
   * The sensor reply handled token by token. In test_client.py a "New Set"
   * token bumps `current_set` and then raises (it stores an int in the
   * configuration), so the tokens after it are not read and the except
   * block marks the device offline.
   */
  function SensorReplyEffect(script: Script, tokens: seq<string>, s: State): (t: State)
    ensures script == ClientPy || "New Set" !in tokens ==>
              t.isRecording == (s.isRecording && "Stop Recording" !in tokens)
    ensures script == TestClientPy && "New Set" in tokens ==>
              t.isRecording == (s.isRecording && "Stop Recording" !in tokens[..FirstIndex(tokens, "New Set")])
    ensures script == ClientPy || "New Set" !in tokens ==> t.hasInternet && t.currentSet == s.currentSet
    ensures script == TestClientPy && "New Set" in tokens ==>
              t.currentSet == s.currentSet + 1 && !t.hasInternet && !t.hadInternetBefore
    ensures t.csv == s.csv && t.sets == s.sets && t.hasNewSetNotRecording == s.hasNewSetNotRecording
  {
    if script == TestClientPy && "New Set" in tokens then
      var k := FirstIndex(tokens, "New Set");
      var stopped := Stopped(s, "Stop Recording" in tokens[..k]);
      WentOffline(stopped.(currentSet := s.currentSet + 1))
    else
      var stopped := Stopped(s, "Stop Recording" in tokens);
      stopped.(hasInternet := true, config := stopped.config["has_internet" := "True"])
  }

  /**
   * One pass of the recording branch. It clears the pending-new-set flag,
   * re-uploads the log after the connection came back, appends a line when
   * there was movement, then either posts the reading or checks in.
   */
  function RecordingNext(script: Script, name: string, hasPort: bool, s: State, x: Exchange): (r: (Outcome, State))
    ensures !r.1.hasNewSetNotRecording
    ensures script == ClientPy && !hasPort ==> r.0 == Died
    ensures r.0 == Died <==> (script == ClientPy && !hasPort) || (s.hasInternet && !s.hadInternetBefore && !x.reloadDelivered)
    ensures r.1.csv == s.csv || (x.movement && r.1.csv == s.csv + LocalLine(script, name, x.date, x.time, x.movement))
    ensures r.0 == Running ==> r.1.csv == if x.movement then s.csv + LocalLine(script, name, x.date, x.time, x.movement) else s.csv
    ensures r.1.sets == s.sets
    ensures r.1.currentSet != s.currentSet ==> script == TestClientPy && r.1.currentSet == s.currentSet + 1 && !r.1.hasInternet
  {
    if Reloads(s) && ((script == ClientPy && !hasPort) || !x.reloadDelivered) then (Died, Cleared(s))
    else Posted(script, hasPort, Logged(script, name, s, x), x)
  }

  /** The request part of a recording pass: the reading is posted, or the device checks in. */
  function Posted(script: Script, hasPort: bool, s: State, x: Exchange): (r: (Outcome, State))
    ensures r.0 == Died <==> script == ClientPy && !hasPort
    ensures r.1.csv == s.csv && r.1.sets == s.sets && r.1.hasNewSetNotRecording == s.hasNewSetNotRecording
    ensures r.1.currentSet != s.currentSet ==> script == TestClientPy && r.1.currentSet == s.currentSet + 1 && !r.1.hasInternet
  {
    if script == ClientPy && !hasPort then (Died, s)
    else if !s.isCheckedIn then (Running, CheckedIn(s, x.reply))
    else match x.reply
      case NoConnection => (Running, WentOffline(s))
      case Answered(text) => (Running, SensorReplyEffect(script, Split(text, ','), s))
  }

  /** The recording branch's first step: no new set is pending any more. */
  function Cleared(s: State): State
  {
    s.(hasNewSetNotRecording := false,
       config := s.config["is_recording" := "True"]["has_new_set_not_recording" := "False"])
  }

  /** The connection came back since the last pass: the log is uploaded again. */
  predicate Reloads(s: State)
  {
    s.hasInternet && !s.hadInternetBefore
  }

  /** The state after the upload (when it succeeded) and the local log line, before any request. */
  function Logged(script: Script, name: string, s: State, x: Exchange): (t: State)
    ensures !t.hasNewSetNotRecording && t.currentSet == s.currentSet && t.sets == s.sets
    ensures t.csv == if x.movement then s.csv + LocalLine(script, name, x.date, x.time, x.movement) else s.csv
    ensures Reloads(s) ==> t.hadInternetBefore
  {
    var s1 := Cleared(s);
    var s2 := if Reloads(s) then s1.(hadInternetBefore := true, config := s1.config["had_internet_before" := "True"]) else s1;
    if x.movement then s2.(csv := s2.csv + LocalLine(script, name, x.date, x.time, x.movement)) else s2
  }

  /** Sets the device's loop fields and the local state to `t`. */
  method Store(d: Device, l: Local, t: State)
    modifies d`isRecording, d`hasInternet, d`hadInternetBefore, d`hasNewSetNotRecording, d`currentSet, d`isCheckedIn, l
    ensures StateOf(d, l) == t
  {
    d.isRecording, d.hasInternet, d.hadInternetBefore := t.isRecording, t.hasInternet, t.hadInternetBefore;
    d.hasNewSetNotRecording, d.isCheckedIn, d.currentSet := t.hasNewSetNotRecording, t.isCheckedIn, t.currentSet;
    l.config, l.csv, l.sets := t.config, t.csv, t.sets;
  }

  /** The `for item in response` loop over a sensor reply, and what follows it in the try block. */
  method HandleSensorReply(script: Script, tokens: seq<string>, s: State) returns (t: State)
    ensures t == SensorReplyEffect(script, tokens, s)
  {
    t := s;
    var i := 0;
    while i < |tokens|
      invariant 0 <= i <= |tokens|
      invariant script == TestClientPy ==> "New Set" !in tokens[..i]
      invariant t == Stopped(s, "Stop Recording" in tokens[..i])
    {
      assert tokens[..i + 1] == tokens[..i] + [tokens[i]];
      if tokens[i] == "Stop Recording" {
        t := t.(isRecording := false, config := t.config["is_recording" := "False"]);
      }
      if script == TestClientPy && tokens[i] == "New Set" {
        SensorReplyNewSetAt(tokens, s, i);
        t := t.(currentSet := t.currentSet + 1);
        // storing the int in the configuration raises; the except block runs
        return WentOffline(t);
      }
      i := i + 1;
    }
    assert tokens[..i] == tokens;
    SensorReplyWithoutNewSet(script, tokens, s);
    t := t.(hasInternet := true, config := t.config["has_internet" := "True"]);
  }

  /** In test_client.py the first "New Set" ends the reply: only the tokens before it are read. */
  lemma SensorReplyNewSetAt(tokens: seq<string>, s: State, i: nat)
    requires i < |tokens| && tokens[i] == "New Set" && "New Set" !in tokens[..i]
    ensures SensorReplyEffect(TestClientPy, tokens, s) ==
            WentOffline(Stopped(s, "Stop Recording" in tokens[..i]).(currentSet := s.currentSet + 1))
  {
    assert tokens[i] in tokens;
  }

  /** A reply read to its end stops the device on any "Stop Recording" and marks it online. */
  lemma SensorReplyWithoutNewSet(script: Script, tokens: seq<string>, s: State)
    requires script == ClientPy || "New Set" !in tokens
    ensures var stopped := Stopped(s, "Stop Recording" in tokens);
            SensorReplyEffect(script, tokens, s) ==
            stopped.(hasInternet := true, config := stopped.config["has_internet" := "True"])
  {
  }

  /** The local part of a recording pass: clear the flag, upload the log again if due, log the reading. */
  method LogReading(script: Script, d: Device, l: Local, x: Exchange) returns (o: Outcome)
    modifies d`hadInternetBefore, d`hasNewSetNotRecording, l`config, l`csv
    ensures var s := old(StateOf(d, l));
            if Reloads(s) && ((script == ClientPy && d.port.None?) || !x.reloadDelivered)
            then o == Died && StateOf(d, l) == Cleared(s)
            else o == Running && StateOf(d, l) == Logged(script, d.deviceName, s, x)
  {
    d.hasNewSetNotRecording := false;
    l.config := l.config["is_recording" := "True"]["has_new_set_not_recording" := "False"];
    if d.hasInternet && !d.hadInternetBefore {
      if (script == ClientPy && d.port.None?) || !x.reloadDelivered {
        return Died;
      }
      d.hadInternetBefore := true;
      l.config := l.config["had_internet_before" := "True"];
    }
    if x.movement {
      l.csv := l.csv + LocalLine(script, d.deviceName, x.date, x.time, x.movement);
    }
    o := Running;
  }

  /** The request part of a recording pass, on the device and the local state. */
  method PostReading(script: Script, d: Device, l: Local, x: Exchange) returns (o: Outcome)
    modifies d`isRecording, d`hasInternet, d`hadInternetBefore, d`hasNewSetNotRecording, d`currentSet, d`isCheckedIn, l
    ensures (o, StateOf(d, l)) == Posted(script, d.port.Some?, old(StateOf(d, l)), x)
  {
    if script == ClientPy && d.port.None? {
      return Died;
    }
    if !d.isCheckedIn {
      o := CheckInDevice(script, d, l, x.reply);
      return;
    }
    match x.reply {
      case NoConnection =>
        d.hasInternet := false;
        d.hadInternetBefore := false;
        l.config := l.config["has_internet" := "False"]["had_internet_before" := "False"];
      case Answered(text) =>
        var t := HandleSensorReply(script, Split(text, ','), StateOf(d, l));
        Store(d, l, t);
    }
    o := Running;
  }

  /** `RecordingNext` on the device and the local state. */
  method RecordingStep(script: Script, d: Device, l: Local, x: Exchange) returns (o: Outcome)
    modifies d`isRecording, d`hasInternet, d`hadInternetBefore, d`hasNewSetNotRecording, d`currentSet, d`isCheckedIn, l
    ensures (o, StateOf(d, l)) == RecordingNext(script, d.deviceName, d.port.Some?, old(StateOf(d, l)), x)
  {
    o := LogReading(script, d, l, x);
    if o == Died {
      return;
    }
    o := PostReading(script, d, l, x);
  }

  // ---------------------------------------------------------------------------
  // The not-recording branch of `init`

  /**
   * Where a finished set is archived, relative to the sets directory:
   * client.py keeps "<n>.csv" in ~/.raspberry_pi_client/csv/sets, and
   * test_client.py "<name>/<n>.csv" in csv/sets.
   */
  function ArchivePath(script: Script, name: string, n: int): string
  {
    if script == ClientPy then Archive.ArchiveName(n) else name + "/" + Archive.ArchiveName(n)
  }

  /** Different set numbers are archived under different paths. */
  lemma ArchivePathInjective(script: Script, name: string, m: int, n: int)
    requires ArchivePath(script, name, m) == ArchivePath(script, name, n)
    ensures m == n
  {
    var a := ArchivePath(script, name, m);
    if script == TestClientPy {
      assert Archive.ArchiveName(m) == a[|name| + 1..];
      assert Archive.ArchiveName(n) == a[|name| + 1..];
    }
    var b := Archive.ArchiveName(m);
    assert Itoa(m) == b[..|b| - 4];
    assert Itoa(n) == b[..|b| - 4];
    SignedDecimalItoa(m);
    SignedDecimalItoa(n);
  }

  /** `CONFIG["device"]` after the status tokens: the archive's keys, then "is_recording". */
  function NotRecordingConfig(config: map<string, string>, record: bool, archive: bool, next: int): map<string, string>
  {
    var c := if archive then config["device_set" := Itoa(next)]["has_new_set_not_recording" := "True"] else config;
    if record then c["is_recording" := "True"] else c
  }

  /**
   * The status reply handled token by token. "Record" starts recording.
   * "New Set" archives the log under the current set number, starts the
   * next set and empties the log, but only while no new set is pending,
   * so a second "New Set" changes nothing.
   */
  function StatusReplyEffect(script: Script, name: string, tokens: seq<string>, s: State): (t: State)
    ensures t.isRecording == (s.isRecording || "Record" in tokens)
    ensures t.hasNewSetNotRecording == (s.hasNewSetNotRecording || "New Set" in tokens)
    ensures s.hasNewSetNotRecording || "New Set" !in tokens ==>
              t.currentSet == s.currentSet && t.csv == s.csv && t.sets == s.sets
    ensures !s.hasNewSetNotRecording && "New Set" in tokens ==>
              && t.currentSet == s.currentSet + 1 && t.csv == ""
              && t.sets == s.sets[ArchivePath(script, name, s.currentSet) := s.csv]
              && "device_set" in t.config && PyInt(t.config["device_set"]) == Some(t.currentSet)
    ensures "is_recording" in s.config || "Record" in tokens ==>
              "is_recording" in t.config
              && t.config["is_recording"] == if "Record" in tokens then "True" else s.config["is_recording"]
    ensures t.hasInternet == s.hasInternet && t.hadInternetBefore == s.hadInternetBefore
    ensures t.isCheckedIn == s.isCheckedIn
  {
    var record := "Record" in tokens;
    var archive := "New Set" in tokens && !s.hasNewSetNotRecording;
    PyIntItoa(s.currentSet + 1);
    s.(isRecording := s.isRecording || record,
       hasNewSetNotRecording := s.hasNewSetNotRecording || archive,
       currentSet := if archive then s.currentSet + 1 else s.currentSet,
       config := NotRecordingConfig(s.config, record, archive, s.currentSet + 1),
       csv := if archive then "" else s.csv,
       sets := if archive then s.sets[ArchivePath(script, name, s.currentSet) := s.csv] else s.sets)
  }

  /**
   * One pass of the not-recording branch: poll the status endpoint. On an
   * exception the device is marked offline, but the except block only reads
   * the two configuration keys, so the configuration keeps saying online.
   */
  function NotRecordingNext(script: Script, name: string, hasPort: bool, s: State, reply: Reply): (t: State)
    ensures !s.isRecording ==>
              "is_recording" in t.config && t.config["is_recording"] == (if t.isRecording then "True" else "False")
    ensures (script == ClientPy && !hasPort) || reply.NoConnection? ==>
              && !t.hasInternet && !t.hadInternetBefore && t.config == s.config["is_recording" := "False"]
              && t.isRecording == s.isRecording && t.currentSet == s.currentSet && t.csv == s.csv && t.sets == s.sets
    ensures !((script == ClientPy && !hasPort) || reply.NoConnection?) ==>
              t.hasInternet == s.hasInternet && t.hadInternetBefore == s.hadInternetBefore
    ensures t.isCheckedIn == s.isCheckedIn
  {
    var s1 := s.(config := s.config["is_recording" := "False"]);
    if (script == ClientPy && !hasPort) || reply.NoConnection? then
      s1.(hasInternet := false, hadInternetBefore := false)
    else
      StatusReplyEffect(script, name, Split(reply.text, ','), s1)
  }

  /** The effect of one status token, as the loop body has it. */
  function StatusToken(script: Script, name: string, t: State, token: string): State
  {
    var t1 := if token == "Record" then t.(isRecording := true, config := t.config["is_recording" := "True"]) else t;
    if token == "New Set" && !t1.hasNewSetNotRecording then
      t1.(currentSet := t1.currentSet + 1, hasNewSetNotRecording := true,
          config := t1.config["device_set" := Itoa(t1.currentSet + 1)]["has_new_set_not_recording" := "True"],
          sets := t1.sets[ArchivePath(script, name, t1.currentSet) := t1.csv], csv := "")
    else t1
  }

  /** Handling the tokens one at a time is handling them all at once. */
  lemma StatusReplySnoc(script: Script, name: string, tokens: seq<string>, token: string, s: State)
    ensures StatusReplyEffect(script, name, tokens + [token], s) ==
            StatusToken(script, name, StatusReplyEffect(script, name, tokens, s), token)
  {
    if token == "Record" {
      RecordTokenSnoc(script, name, tokens, s);
    } else if token == "New Set" {
      NewSetTokenSnoc(script, name, tokens, s);
    } else {
      assert "Record" in tokens + [token] <==> "Record" in tokens;
      assert "New Set" in tokens + [token] <==> "New Set" in tokens;
    }
  }

  lemma RecordTokenSnoc(script: Script, name: string, tokens: seq<string>, s: State)
    ensures StatusReplyEffect(script, name, tokens + ["Record"], s) ==
            StatusToken(script, name, StatusReplyEffect(script, name, tokens, s), "Record")
  {
    var u := StatusReplyEffect(script, name, tokens + ["Record"], s);
    var v := StatusToken(script, name, StatusReplyEffect(script, name, tokens, s), "Record");
    assert "New Set" in tokens + ["Record"] <==> "New Set" in tokens;
    var archive := "New Set" in tokens && !s.hasNewSetNotRecording;
    RecordAfterConfig(s.config, "Record" in tokens, archive, s.currentSet + 1);
    assert u.config == v.config;
    assert u.currentSet == v.currentSet && u.csv == v.csv && u.sets == v.sets;
  }

  /** A later "Record" sets the recording entry over whatever configuration the reply built. */
  lemma RecordAfterConfig(config: map<string, string>, record: bool, archive: bool, next: int)
    ensures NotRecordingConfig(config, true, archive, next) ==
            NotRecordingConfig(config, record, archive, next)["is_recording" := "True"]
  {
  }

  lemma NewSetTokenSnoc(script: Script, name: string, tokens: seq<string>, s: State)
    ensures StatusReplyEffect(script, name, tokens + ["New Set"], s) ==
            StatusToken(script, name, StatusReplyEffect(script, name, tokens, s), "New Set")
  {
    if s.hasNewSetNotRecording || "New Set" in tokens {
      NewSetTokenWhilePending(script, name, tokens, s);
    } else {
      NewSetTokenArchives(script, name, tokens, s);
    }
  }

  /** With a new set already pending, or begun by an earlier token, a further "New Set" does nothing. */
  lemma NewSetTokenWhilePending(script: Script, name: string, tokens: seq<string>, s: State)
    requires s.hasNewSetNotRecording || "New Set" in tokens
    ensures StatusReplyEffect(script, name, tokens + ["New Set"], s) == StatusReplyEffect(script, name, tokens, s)
    ensures StatusReplyEffect(script, name, tokens, s).hasNewSetNotRecording
  {
    assert "Record" in tokens + ["New Set"] <==> "Record" in tokens;
    assert "New Set" in tokens + ["New Set"];
  }

  /** The first "New Set" of a reply, with none pending, archives as the loop body does. */
  lemma NewSetTokenArchives(script: Script, name: string, tokens: seq<string>, s: State)
    requires !s.hasNewSetNotRecording && "New Set" !in tokens
    ensures StatusReplyEffect(script, name, tokens + ["New Set"], s) ==
            StatusToken(script, name, StatusReplyEffect(script, name, tokens, s), "New Set")
  {
    var u := StatusReplyEffect(script, name, tokens + ["New Set"], s);
    var v := StatusToken(script, name, StatusReplyEffect(script, name, tokens, s), "New Set");
    assert "Record" in tokens + ["New Set"] <==> "Record" in tokens;
    assert "New Set" in tokens + ["New Set"];
    assert u.config == v.config by {
      var record := "Record" in tokens;
      var n := s.currentSet + 1;
      ArchiveConfigCommutes(s.config, record, n);
    }
    assert u.currentSet == v.currentSet && u.csv == v.csv && u.sets == v.sets;
  }

  /** Archiving before or after "is_recording" is set gives the same configuration. */
  lemma ArchiveConfigCommutes(config: map<string, string>, record: bool, next: int)
    ensures NotRecordingConfig(config, record, true, next) ==
            NotRecordingConfig(config, record, false, next)["device_set" := Itoa(next)]["has_new_set_not_recording" := "True"]
  {
    if record {
      var n := Itoa(next);
      assert config["device_set" := n]["has_new_set_not_recording" := "True"]["is_recording" := "True"] ==
             config["is_recording" := "True"]["device_set" := n]["has_new_set_not_recording" := "True"];
    }
  }

  /** The `for item in response` loop over a status reply. */
  method HandleStatusReply(script: Script, name: string, tokens: seq<string>, s: State) returns (t: State)
    ensures t == StatusReplyEffect(script, name, tokens, s)
  {
    t := s;
    var i := 0;
    while i < |tokens|
      invariant 0 <= i <= |tokens|
      invariant t == StatusReplyEffect(script, name, tokens[..i], s)
    {
      assert tokens[..i + 1] == tokens[..i] + [tokens[i]];
      StatusReplySnoc(script, name, tokens[..i], tokens[i], s);
      t := HandleStatusToken(script, name, t, tokens[i]);
      i := i + 1;
    }
    assert tokens[..i] == tokens;
  }

  /** The body of the loop over a status reply, for one token. */
  method HandleStatusToken(script: Script, name: string, t: State, token: string) returns (u: State)
    ensures u == StatusToken(script, name, t, token)
  {
    u := t;
    if token == "Record" {
      u := u.(isRecording := true, config := u.config["is_recording" := "True"]);
    }
    assert u == if token == "Record" then t.(isRecording := true, config := t.config["is_recording" := "True"]) else t;
    if token == "New Set" && !u.hasNewSetNotRecording {
      var path := ArchivePath(script, name, u.currentSet);
      u := u.(currentSet := u.currentSet + 1);
      u := u.(config := u.config["device_set" := Itoa(u.currentSet)]);
      u := u.(hasNewSetNotRecording := true, config := u.config["has_new_set_not_recording" := "True"]);
      u := u.(sets := u.sets[path := u.csv], csv := "");
    }
  }

  /** `NotRecordingNext` on the device and the local state. */
  method NotRecordingStep(script: Script, d: Device, l: Local, reply: Reply)
    modifies d`isRecording, d`hasInternet, d`hadInternetBefore, d`hasNewSetNotRecording, d`currentSet, d`isCheckedIn, l
    ensures StateOf(d, l) == NotRecordingNext(script, d.deviceName, d.port.Some?, old(StateOf(d, l)), reply)
  {
    l.config := l.config["is_recording" := "False"];
    if (script == ClientPy && d.port.None?) || reply.NoConnection? {
      d.hasInternet := false;
      d.hadInternetBefore := false;
      return;
    }
    var t := HandleStatusReply(script, d.deviceName, Split(reply.text, ','), StateOf(d, l));
    Store(d, l, t);
  }

  // ---------------------------------------------------------------------------
  // One pass of the loop

  /**
   * One pass of `init`'s loop. Without a `port` attribute, client.py dies on
   * every recording pass and loses the connection on every other one.
   */
  function NextState(script: Script, name: string, hasPort: bool, s: State, x: Exchange): (r: (Outcome, State))
    ensures !s.isRecording ==> r.0 == Running
    ensures script == ClientPy && !hasPort ==>
              if s.isRecording then r.0 == Died else !r.1.hasInternet && !r.1.isRecording && r.1.currentSet == s.currentSet
    ensures r.1.currentSet == s.currentSet || r.1.currentSet == s.currentSet + 1
  {
    if s.isRecording then RecordingNext(script, name, hasPort, s, x)
    else (Running, NotRecordingNext(script, name, hasPort, s, x.reply))
  }

  method Step(script: Script, d: Device, l: Local, x: Exchange) returns (o: Outcome)
    modifies d`isRecording, d`hasInternet, d`hadInternetBefore, d`hasNewSetNotRecording, d`currentSet, d`isCheckedIn, l
    ensures (o, StateOf(d, l)) == NextState(script, d.deviceName, d.port.Some?, old(StateOf(d, l)), x)
  {
    if d.isRecording {
      o := RecordingStep(script, d, l, x);
    } else {
      NotRecordingStep(script, d, l, x.reply);
      o := Running;
    }
  }

  /** Every archive holds a set numbered below the current one. */
  ghost predicate ArchivesBelow(script: Script, name: string, s: State)
  {
    forall n :: ArchivePath(script, name, n) in s.sets ==> n < s.currentSet
  }

  /** While archives stay below the current set, a new archive never overwrites one. */
  lemma NewArchiveIsFresh(script: Script, name: string, s: State)
    requires ArchivesBelow(script, name, s)
    ensures ArchivePath(script, name, s.currentSet) !in s.sets
  {
  }

  /** Every pass of the loop keeps the archives below the current set. */
  lemma StepKeepsArchivesBelow(script: Script, name: string, hasPort: bool, s: State, x: Exchange)
    requires ArchivesBelow(script, name, s)
    ensures ArchivesBelow(script, name, NextState(script, name, hasPort, s, x).1)
  {
    var t := NextState(script, name, hasPort, s, x).1;
    forall n | ArchivePath(script, name, n) in t.sets
      ensures n < t.currentSet
    {
      if ArchivePath(script, name, n) !in s.sets {
        ArchivePathInjective(script, name, n, s.currentSet);
      }
    }
  }

  /**
   * After a pass that saw "New Set" and left the device not recording, a
   * second "New Set" archives nothing: the pending flag guards it.
   */
  lemma NewSetArchivesOnce(script: Script, name: string, hasPort: bool, s: State, text1: string, text2: string)
    requires !((script == ClientPy && !hasPort))
    requires "New Set" in Split(text1, ',')
    ensures var t1 := NotRecordingNext(script, name, hasPort, s, Answered(text1));
            var t2 := NotRecordingNext(script, name, hasPort, t1, Answered(text2));
            && t1.hasNewSetNotRecording
            && t1.currentSet <= s.currentSet + 1
            && t2.currentSet == t1.currentSet && t2.sets == t1.sets && t2.csv == t1.csv
  {
    var s1 := s.(config := s.config["is_recording" := "False"]);
    var t1 := StatusReplyEffect(script, name, Split(text1, ','), s1);
    assert NotRecordingNext(script, name, hasPort, s, Answered(text1)) == t1;
    assert t1.hasNewSetNotRecording;
    var u1 := t1.(config := t1.config["is_recording" := "False"]);
    var t2 := StatusReplyEffect(script, name, Split(text2, ','), u1);
    assert NotRecordingNext(script, name, hasPort, t1, Answered(text2)) == t2;
  }

  /** A recording pass re-arms "New Set": the next not-recording pass archives again. */
  lemma RecordingRearmsNewSet(script: Script, name: string, hasPort: bool, s: State, x: Exchange, text: string)
    requires hasPort || script == TestClientPy
    requires "New Set" in Split(text, ',')
    requires RecordingNext(script, name, hasPort, s, x).0 == Running
    ensures var t := RecordingNext(script, name, hasPort, s, x).1;
            var u := NotRecordingNext(script, name, hasPort, t, Answered(text));
            && u.currentSet == t.currentSet + 1
            && u.sets == t.sets[ArchivePath(script, name, t.currentSet) := t.csv]
  {
  }

  // ---------------------------------------------------------------------------
  // test_client.py's file system set-up and wipe

  /** Directories and files, by path relative to the working directory. */
  datatype Disk = Disk(dirs: set<string>, files: map<string, string>)

  function SetsDir(name: string): string
  {
    "csv/sets/" + name
  }

  /**
   * `_init_file_system`: the device's archive directory (with its parents)
   * and an empty log, each made only when missing.
   */
  function InitFileSystem(name: string, disk: Disk): (after: Disk)
    ensures SetsDir(name) in after.dirs && CsvFile(name) in after.files
    ensures disk.dirs <= after.dirs
    ensures forall f :: f in disk.files ==> f in after.files && after.files[f] == disk.files[f]
    ensures after.files.Keys == disk.files.Keys + {CsvFile(name)}
    ensures CsvFile(name) !in disk.files ==> after.files[CsvFile(name)] == ""
  {
    var dirs := if SetsDir(name) in disk.dirs then disk.dirs else disk.dirs + {"csv", "csv/sets", SetsDir(name)};
    var files := if CsvFile(name) in disk.files then disk.files else disk.files[CsvFile(name) := ""];
    Disk(dirs, files)
  }

  /** Setting up the file system twice is setting it up once. */
  lemma InitFileSystemIdempotent(name: string, disk: Disk)
    ensures InitFileSystem(name, InitFileSystem(name, disk)) == InitFileSystem(name, disk)
  {
  }

  /** The wipe leaves the configuration alone, resets it, or dies in `shutil.rmtree`. */
  datatype WipeResult = Unchanged | Wiped(disk: Disk, config: map<string, string>) | WipeRaised(disk: Disk)

  /** `p` lies inside directory `dir`. */
  predicate Inside(dir: string, p: string)
  {
    dir + "/" <= p
  }

  /**
   * The -w/--wipe option of test_client.py. On "y" or "Y", and only when
   * the device's log exists, it deletes the log and the device's archive
   * directory and resets five configuration keys; `rmtree` raises when that
   * directory is missing.
   */
  function Wipe(name: string, answer: string, disk: Disk, config: map<string, string>): (r: WipeResult)
    ensures answer != "y" && answer != "Y" ==> r == Unchanged
    ensures r.Unchanged? <==> (answer != "y" && answer != "Y") || CsvFile(name) !in disk.files
    ensures r.WipeRaised? ==> SetsDir(name) !in disk.dirs && CsvFile(name) !in r.disk.files
    ensures r.Wiped? ==>
              && CsvFile(name) !in r.disk.files
              && SetsDir(name) !in r.disk.dirs
              && (forall p :: p in r.disk.files ==> !Inside(SetsDir(name), p))
              && (forall p :: p in disk.files && p != CsvFile(name) && !Inside(SetsDir(name), p) ==>
                    p in r.disk.files && r.disk.files[p] == disk.files[p])
              && r.config == config["has_internet" := "True"]["had_internet_before" := "True"]
                                   ["has_new_set_not_recording" := "False"]["is_recording" := "True"]["device_set" := "1"]
  {
    if answer != "y" && answer != "Y" then Unchanged
    else if CsvFile(name) !in disk.files then Unchanged
    else
      var files := disk.files - {CsvFile(name)};
      if SetsDir(name) !in disk.dirs then WipeRaised(Disk(disk.dirs, files))
      else
        var dir := SetsDir(name);
        Wiped(Disk(set p | p in disk.dirs && p != dir && !Inside(dir, p),
                   map p | p in files && !Inside(dir, p) :: files[p]),
              config["has_internet" := "True"]["had_internet_before" := "True"]
                    ["has_new_set_not_recording" := "False"]["is_recording" := "True"]["device_set" := "1"])
  }

  /** A wipe followed by the set-up leaves an empty log and no archives for the device. */
  lemma WipeThenInit(name: string, answer: string, disk: Disk, config: map<string, string>)
    requires Wipe(name, answer, disk, config).Wiped?
    ensures var after := InitFileSystem(name, Wipe(name, answer, disk, config).disk);
            && after.files[CsvFile(name)] == ""
            && SetsDir(name) in after.dirs
            && (forall p :: p in after.files ==> !Inside(SetsDir(name), p))
  {
    var wiped := Wipe(name, answer, disk, config).disk;
    var after := InitFileSystem(name, wiped);
    forall p | p in after.files
      ensures !Inside(SetsDir(name), p)
    {
      if p == CsvFile(name) {
        assert |SetsDir(name) + "/"| > |p|;
      }
    }
  }
}
