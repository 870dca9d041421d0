/**
 * client/device.py: the `Device` object a Raspberry Pi client keeps about
 * itself. The client loop updates its flags in place, so it is a class.
 */
module PiDevice {
  import opened Common

  /** The local log of a device: "csv/<name>.csv". */
  function CsvFile(deviceName: string): (path: string)
    ensures |path| == |deviceName| + 8
    ensures path[..4] == "csv/" && path[4..|path| - 4] == deviceName && path[|path| - 4..] == ".csv"
  {
    "csv/" + deviceName + ".csv"
  }

  /** The URL scheme the client talks to the server with. */
  function Protocol(https: bool): (scheme: string)
    ensures scheme == "https://" <==> https
    ensures scheme == "http://" <==> !https
  {
    if https then "https://" else "http://"
  }

  /** Two devices with different names never share a log file. */
  lemma CsvFileInjective(a: string, b: string)
    requires CsvFile(a) == CsvFile(b)
    ensures a == b
  {
    assert a == CsvFile(a)[4..|CsvFile(a)| - 4];
  }

  class Device {
    var deviceName: string
    var ipAddress: string
    var sleep: real
    var csvFile: string
    var isRecording: bool
    var hasInternet: bool
    var hadInternetBefore: bool
    var hasNewSetNotRecording: bool
    var currentSet: int
    var password: string
    var isCheckedIn: bool
    var protocol: string
    /**
     * The `port` attribute. Python lets any attribute be read; the
     * constructor never creates this one, so reading it raises
     * AttributeError, which `None` stands for.
     */
    var port: Option<string>

    /** `Device.__init__`, with its default arguments. */
    constructor (deviceName: string := "Client", ipAddress: string := "localhost:8003", sleep: real := 0.5,
                 isRecording: bool := true, hasInternet: bool := true, hadInternetBefore: bool := true,
                 hasNewSetNotRecording: bool := true, currentSet: int := 1, password: string := "test",
                 https: bool := true, isCheckedIn: bool := false)
      ensures this.deviceName == deviceName && this.ipAddress == ipAddress && this.sleep == sleep
      ensures this.csvFile == CsvFile(deviceName)
      ensures this.isRecording == isRecording && this.hasInternet == hasInternet
      ensures this.hadInternetBefore == hadInternetBefore && this.hasNewSetNotRecording == hasNewSetNotRecording
      ensures this.currentSet == currentSet && this.password == password && this.isCheckedIn == isCheckedIn
      ensures this.protocol == Protocol(https)
      ensures this.port == None
    {
      this.deviceName := deviceName;
      this.ipAddress := ipAddress;
      this.sleep := sleep;
      this.csvFile := "csv/" + deviceName + ".csv";
      this.isRecording := isRecording;
      this.hasInternet := hasInternet;
      this.hadInternetBefore := hadInternetBefore;
      this.hasNewSetNotRecording := hasNewSetNotRecording;
      this.currentSet := currentSet;
      this.password := password;
      this.isCheckedIn := isCheckedIn;
      if https {
        this.protocol := "https://";
      } else {
        this.protocol := "http://";
      }
      this.port := None;
    }
  }

  /** A device built with every default: "Client", checked out, with a pending new set, over https. */
  method DefaultDevice() returns (d: Device)
    ensures fresh(d)
    ensures d.deviceName == "Client" && d.ipAddress == "localhost:8003" && d.sleep == 0.5
    ensures d.csvFile == "csv/Client.csv" && d.protocol == "https://" && d.password == "test"
    ensures d.isRecording && d.hasInternet && d.hadInternetBefore && d.hasNewSetNotRecording
    ensures d.currentSet == 1 && !d.isCheckedIn
  {
    d := new Device();
  }
}
