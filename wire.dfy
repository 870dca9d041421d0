/**
 * What the client and the server say to each other: the time stamp a
 * recording client posts to the sensor endpoint, and the replies of the
 * sensor and status endpoints, read token by token on the client.
 */
module Wire {
  import opened Common
  import opened Text
  import Device
  import Api
  import Client

  /** The server reads back the device name and the movement bit of a client's time stamp. */
  lemma ServerReadsTimeStamp(script: Client.Script, name: string, date: string, time: string, movement: bool)
    requires ',' !in name && ',' !in date && ',' !in time
    ensures var fields := Split(Client.TimeStamp(script, name, date, time, movement), ',');
            && |fields| == 4
            && fields[0] == name
            && ParseBool(TrimRightNewlines(fields[3])) == Some(movement)
  {
    Client.TimeStampFields(script, name, date, time, movement);
    var m := if movement then "1" else "0";
    var fields := Split(Client.TimeStamp(script, name, date, time, movement), ',');
    assert TrimRightNewlines(m) == m;
    if script == Client.ClientPy {
      assert fields[3] == m + "" == m;
    } else {
      assert fields[3] == m + "\n";
      assert (m + "\n")[..|m + "\n"| - 1] == m;
      assert TrimRightNewlines(m + "\n") == TrimRightNewlines(m);
    }
  }

  /** The sensor reply splits into the recording instruction and an empty token. */
  lemma SensorReplyTokens(r: Device.Record)
    ensures Split(Api.RecordingReply(r), ',') ==
            [if r.isDeviceRecording then "Record" else "Stop Recording", ""]
  {
    var word := if r.isDeviceRecording then "Record" else "Stop Recording";
    assert Api.RecordingReply(r) == word + [','] + "";
    SplitAtSeparator(word, "", ',');
  }

  /**
   * A checked-in client that posts a reading keeps recording exactly when
   * the server's record says so, and never starts a new set from it: the
   * sensor reply carries no "New Set".
   */
  lemma SensorReplyDrivesClient(script: Client.Script, r: Device.Record, s: Client.State)
    ensures var t := Client.SensorReplyEffect(script, Split(Api.RecordingReply(r), ','), s);
            && t.isRecording == (s.isRecording && r.isDeviceRecording)
            && t.currentSet == s.currentSet && t.hasInternet
  {
    SensorReplyTokens(r);
  }

  /** The status reply splits into the recording instruction and the set instruction. */
  lemma StatusReplyTokens(r: Device.Record)
    ensures Split(Api.StatusReply(r), ',') ==
            [if r.isDeviceRecording then "Record" else "Stop Recording",
             if r.isNewDeviceSet then "New Set" else "Continue Set"]
  {
    var word := if r.isDeviceRecording then "Record" else "Stop Recording";
    var instruction := if r.isNewDeviceSet then "New Set" else "Continue Set";
    assert Api.StatusReply(r) == word + [','] + instruction;
    InstructionsWithoutComma();
    SplitPair(word, instruction);
  }

  /** No instruction the server sends contains the separator. */
  lemma InstructionsWithoutComma()
    ensures ',' !in "Record" && ',' !in "Stop Recording" && ',' !in "New Set" && ',' !in "Continue Set"
  {
  }

  /** Two separator-free words joined by a comma split back into the two words. */
  lemma SplitPair(a: string, b: string)
    requires ',' !in a && ',' !in b
    ensures Split(a + [','] + b, ',') == [a, b]
  {
    SplitWithoutSeparator(b, ',');
    SplitAtSeparator(a, b, ',');
  }

  /**
   * A client that is not recording resumes exactly when the server's record
   * is recording, and archives its log exactly when the server started a
   * new set and no new set is pending on the client.
   */
  lemma StatusReplyDrivesClient(script: Client.Script, name: string, r: Device.Record, s: Client.State)
    ensures var t := Client.StatusReplyEffect(script, name, Split(Api.StatusReply(r), ','), s);
            && t.isRecording == (s.isRecording || r.isDeviceRecording)
            && (t.currentSet == s.currentSet + 1 <==> r.isNewDeviceSet && !s.hasNewSetNotRecording)
            && (t.currentSet == s.currentSet <==> !(r.isNewDeviceSet && !s.hasNewSetNotRecording))
  {
    StatusReplyTokens(r);
  }
}
