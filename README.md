# Raspberry Pi motion logger, modelled in Dafny

The system is a small motion logger. Raspberry Pi clients record movement
readings and a Go server keeps a registry of the clients.

The server side:

- Clients check in with the server and post each reading to a sensor endpoint.
  The server appends readings with movement to the device's active log
  `csv/<name>.csv`.
- A dashboard can switch a device's recording on or off.
- A dashboard can start a new set. The server then copies the active log into
  the next numbered archive `csv/sets/<name>/<n>.csv` and empties it.
- A background sweep marks devices that have gone quiet as not checked in.
- A chart handler counts readings into hour and day buckets.

The client side:

- A client (`client.py`, and its variant `test_client.py`) reads its
  settings from an ini file and checks in.
- It then loops. While recording, it logs a reading and posts it. While not
  recording, it polls the status endpoint.
- In both cases it acts on the comma-separated tokens of the reply.

The modules:

- `Common`: the `Option` type.
- `Text`: the library behaviour the core relies on.
  - Go: `strconv.Itoa`, `Atoi`, `ParseInt` and `ParseBool`; `strings.Split`
    and `TrimRight`; the byte order `ioutil.ReadDir` sorts by.
  - Python: `int()`, `str.lower()` and `str.strip()`.
- `Device`: the types of `server/device.go`, and the `Server` class, which
  holds the registry, the active logs, the archives and the settings.
- `Helpers`: `server/helper_functions.go`. This covers the password gate,
  the transaction outcome, the settings checks, loading the registry from
  its table, and the check-in sweep.
- `Api`: the handlers of `server/api.go` as methods on `Server`.
- `Archive`: the naming of archives in `newSetHandler`. This includes the
  name clash found at the tenth set (see Findings).
- `Buckets`: the `hourPayload` and `dayPayload` closures of
  `updateChartHandler`.
- `PiDevice`: the `Device` class of `client/device.py`.
- `IniFile`: how Python's `configparser`, as both client scripts create it,
  reads a value back. It strips the white space around the value, then
  substitutes it: "%%" stands for "%", "%(name)s" for another value, and
  any other '%' raises.
- `Client`: `client/client.py` and `client/test_client.py`. Each operation
  takes the script it models, because the two scripts differ in small ways.
- `Wire`: what the two sides say to each other. This covers a client's
  time stamp as the sensor handler reads it, and each server reply as the
  client loop reads it.

How the outside world appears in the model:

- The clock is an integer parameter `now`, in seconds.
- The database is the `Db` value. It states which steps of a transaction
  succeed.
- HTTP replies the client receives are `Reply` values.
- Python's `float` is a function parameter.
- The random movement bit is a field of `Exchange`.
- A handler's outcome is a `Response`: a reply, a panic, or the process
  exiting.

## Model

| member | source | states |
|---|---|---|
| Text.Digits | server/api.go:403 | the decimal digits of a natural number are non-empty and all digits |
| Text.DigitsValueOfDigits | server/api.go:396-403 | reading back the digits of n gives n |
| Text.ParseInt | server/helper_functions.go:50 | `strconv.ParseInt(s, 10, 32)`: a value only within the bounds, equal to the decimal reading; none exactly when the text is not a number or is out of range |
| Text.Atoi | server/api.go:396 | `strconv.Atoi` yields only 64-bit values |
| Text.AtoiItoa | server/api.go:396-403 | `Atoi(Itoa(n))` is n exactly when n fits in 64 bits, and fails otherwise |
| Text.SignedDecimalItoa | server/api.go:403 | the decimal text of any integer reads back as that integer |
| Text.ItoaInjective | server/api.go:403 | distinct 64-bit numbers have distinct decimal texts |
| Text.ParseBool | server/api.go:691 | `strconv.ParseBool`: true exactly for "1", "t", "T", "TRUE", "true", "True"; false exactly for their six false counterparts |
| Text.Split | server/api.go:640 | `strings.Split` gives at least one field, and no field holds the separator |
| Text.JoinSplit | server/api.go:640 | joining the fields with the separator gives back the string |
| Text.SplitJoin | server/api.go:640 | splitting a join of separator-free fields gives back the fields |
| Text.SplitWithoutSeparator | server/api.go:640 | a string without the separator is one field |
| Text.SplitAtSeparator | server/api.go:640 | the text before the first separator is the first field |
| Text.SplitLonger | client/client.py:299 | a separator adds at least one field |
| Text.SplitFour | client/client.py:291-299 | four separator-free fields joined by the separator split back into those four |
| Text.TrimRightNewlines | server/api.go:691 | `strings.TrimRight(s, "\n")`: a prefix of s, not ending in a newline, with only newlines cut |
| Text.Lower | client/client.py:166-177 | `str.lower()` keeps the length and lowers every character |
| Text.Strip | client/client.py:148-159 | the white space `int()` ignores is removed: the result is no longer than its input and does not start or end with white space |
| Text.StripInfix | client/client.py:148-159 | the result is the input with only white space removed: it sits inside the input with nothing but white space (tab to carriage return, 0x1C to 0x1F, space) before and after it |
| Text.PyIntItoa | client/client.py:148-159 | Python's `int` reads back the decimal text of any integer |
| Text.LessIrreflexive | server/api.go:364 | no name sorts before itself in `ReadDir`'s byte order |
| Text.LessTransitive | server/api.go:364 | the byte order is transitive |
| Text.LessTotal | server/api.go:364 | any two distinct names are ordered one way or the other |
| Text.LessAsymmetric | server/api.go:364 | two names are never ordered both ways |
| Text.LastExists | server/api.go:364-395 | a non-empty directory has a last entry in byte order |
| Text.LastUnique | server/api.go:364-395 | that last entry is unique |
| Text.Last | server/api.go:395 | the entry `fileInfoArray[len(fileInfoArray)-1]` is the last one in byte order |
| Device.Server.constructor | server/helper_functions.go:161-167 | the registry starts empty with no names, and is consistent: names are distinct and match the map keys, and set numbers are at least 1 |
| Helpers.HandlePostRequests | server/helper_functions.go:225-246 | a request passes exactly when it is a POST with the right password; otherwise 405 "Request method is not post" or 403 "Wrong Password", in that order |
| Helpers.ExecTxQuery | server/helper_functions.go:103-126 | an error only when preparing or beginning fails; a failed Exec is rolled back yet reported as success |
| Helpers.LoadSettings | server/helper_functions.go:35-75 | loaded settings come from the DEFAULT keys, with a parsable https flag, a 32-bit time-out, and certificate and key entries whenever https is on |
| Helpers.LoadSettingsRejects | server/helper_functions.go:44-59 | a non-boolean https value, a time-out that is not a 32-bit integer, or https without cert_file each stop the server |
| Helpers.CertificatesOnlyForHttps | server/helper_functions.go:55-66 | with https off, the certificate and key entries make no difference |
| Helpers.RecordOf | server/helper_functions.go:199-204 | a loaded row keeps its set number and flags; its time becomes the load time and it has no latest set |
| Helpers.RowNames | server/helper_functions.go:199 | the names appended to `DeviceNames`, one per row in order |
| Helpers.LoadedRecordsAt | server/helper_functions.go:185-205 | with unique names, the maps hold exactly the scanned devices, each with its own row's values |
| Helpers.LoadedRecordsKeys | server/helper_functions.go:185-205 | a restart loads a record for exactly the device names scanned from the table |
| Helpers.LoadIsConsistent | server/helper_functions.go:185-205 | rows with unique names and positive sets load into a consistent registry |
| Helpers.RowFor | server/helper_functions.go:140-148 | the stored row carries the device's name and set number |
| Helpers.Persisted | server/helper_functions.go:140-148 | the table lists the registered devices in registration order |
| Helpers.ReloadKeepsDevices | server/helper_functions.go:172-205 | storing the registry and loading it after a restart gives the same devices, sets and flags; only the time is reset and the latest set is lost |
| Helpers.InitGlobalVariables | server/helper_functions.go:161-205 | after the row loop, `DeviceNames` is the rows' names in order and the maps are the loaded records; the registry is consistent |
| Helpers.Swept | server/helper_functions.go:256-286 | a sweep keeps the same devices |
| Helpers.SweptFlags | server/helper_functions.go:264-280 | after a sweep a device is checked in exactly when its last contact is not before now minus the time-out; no other field changes |
| Helpers.SweepIdempotent | server/helper_functions.go:256-286 | sweeping twice at one instant equals sweeping once |
| Helpers.SweepKeepsRegistry | server/helper_functions.go:256-286 | a sweep keeps the registry consistent |
| Helpers.MarkHeardFrom | server/helper_functions.go:264-273 | the first loop marks every fresh device checked in, and collects exactly the stale ones with their last contact |
| Helpers.MarkNotHeardFrom | server/helper_functions.go:278-280 | the second loop marks exactly the collected devices not checked in |
| Helpers.UpdateCheckIn | server/helper_functions.go:256-286 | one pass of the sweep loop leaves the maps swept at `now`, and keeps the registry consistent |
| Helpers.SweepInTwoLoops | server/helper_functions.go:256-286 | marking the fresh devices checked in, then the collected stale ones not checked in, is exactly one sweep |
| Api.NewDevice | server/api.go:276-284 | a new device starts in set 1, recording, checked in, with no pending new set |
| Api.MkdirAll | server/api.go:306 | the device gets an archive directory, and an existing one and all others are kept |
| Api.DeviceCheckIn | server/api.go:219-308 | gate failures and an already checked-in name change nothing. A known name is checked in again with a new time. A new name is appended and registered. A failing statement exits, and the reply carries the device's flags and set. |
| Api.WithRecording | server/api.go:506-517 | a change of mode keeps the same devices |
| Api.RecordingFlags | server/api.go:520 | the payload maps every device to its recording flag |
| Api.WithRecordingFlags | server/api.go:506-517 | named registered devices record exactly when the mode is "true"; others keep their flag; no other field changes |
| Api.WithRecordingIdempotent | server/api.go:506-517 | repeating a change of mode changes nothing more |
| Api.FormGet | server/api.go:489-490 | `Form.Get` is the first value, or "" when there is none |
| Api.RecordMode | server/api.go:482-521 | the gate, "no device" and "no mode" replies leave the state alone; otherwise the named devices switch and the reply is every device's flag |
| Api.SetRecording | server/api.go:507-516 | the loop over the requested names computes `WithRecording` |
| Api.NewSetStep | server/api.go:335-442 | a step keeps the same devices, logs and directories; an exit leaves the registry, logs and archives as they were before this device |
| Api.Rotate | server/api.go:361-441 | a rotation leaves every other device's entry, log and archives as they were |
| Api.NewSetStepRejects | server/api.go:347-359 | an unregistered, recording or pending device adds exactly its own reason to the message, and nothing else changes |
| Api.NewSetStepRotates | server/api.go:361-441 | a device that may start a new set exits exactly when its directory or log is missing or no next number exists; otherwise it is pending in the next set since `now`, its log goes to a fresh archive and is emptied, its other archives stay, its chart row is added and the message is kept |
| Api.NewSetStepOthersUntouched | server/api.go:335-442 | one device's step leaves every other device's entry, log and archives unchanged |
| Api.NewSetStepReplyGrows | server/api.go:347-415 | a step adds at most one chart row, naming the device, and only appends to the message |
| Api.NewSetBatch | server/api.go:335-443 | a batch keeps the same devices |
| Api.FatalSticks | server/api.go:366-431 | once a device makes the handler exit, the later devices change nothing |
| Api.FatalKeepsEarlierDevices | server/api.go:335-431 | an exit happens at one device, and leaves the state that the devices before it reached |
| Api.NewSetBatchOthersUntouched | server/api.go:335-443 | a device not named in the request is untouched by it |
| Api.NewSetBatchReplyGrows | server/api.go:330-443 | a request that does not exit adds at most one chart row per name, each naming a requested device, and only appends to the message |
| Api.NewSetStepKeepsSetsPositive | server/api.go:438 | a step keeps every set number at least 1 |
| Api.RotationExtendsArchives | server/api.go:360-441 | when the archives are the finished sets, a rotation stores the log as the current set's archive. It keeps every older archive, empties the log, bumps the set, marks it pending since `now` and reports that set's number, and the archives are again the finished sets. |
| Api.RotatedDeviceFollows | server/api.go:361-441 | the rotated device's archives are again its finished sets |
| Api.OneDeviceFollows | server/api.go:361-441 | changing one device, whose archives then equal its finished sets, keeps that equality for all devices |
| Api.NewSetStepKeepsArchivesFollowing | server/api.go:335-442 | a step keeps every device's archives equal to its finished sets |
| Api.NewSetBatchKeepsArchivesFollowing | server/api.go:335-443 | a whole request keeps every device's archives equal to its finished sets, whether or not it exits |
| Api.SetNumbersKeptFollow | server/api.go:335-443 | a change that moves no set number and touches no directory keeps the archives equal to the finished sets |
| Api.HandlersKeepArchivesFollowing | server/api.go:482-719 | the recording switch, the sweep, a status query and an accepted reading keep the archives equal to the finished sets |
| Api.CheckInKeepsArchivesFollowing | server/api.go:219-308 | check-in keeps the archives equal to the finished sets for a new name with no directory and for a known name with one |
| Api.CheckInOverOldDirectory | server/api.go:276-306 | a new name whose old directory still holds archives breaks that equality, because the directory is kept and the device starts in set 1 |
| Api.NewSetBatchKeepsSetsPositive | server/api.go:335-443 | a whole request keeps every set number at least 1 |
| Api.NewSetDevice | server/api.go:336-441 | the loop body for one device, reading the directory with `NextArchiveNumber`, does what `NewSetStep` says; its rejections, rotation and locality are the lemmas above |
| Api.NewSetDevices | server/api.go:335-443 | the loop over the requested names stops at an exit and does what `NewSetBatch` says: an exit keeps the earlier devices' work, unnamed devices are untouched, set numbers stay positive, archives stay the finished sets and the reply only grows |
| Api.NewSet | server/api.go:314-449 | gate and "no device" replies leave the state alone; an exit leaves the registry, logs and archives as the devices before the failing one left them; otherwise the state and reply are those of the batch |
| Api.SweepAndSensorDisagreeAtBoundary | server/api.go:641-651 | a device heard from exactly one time-out ago is still checked in by the sweep, yet the sensor endpoint refuses it |
| Api.AppendLog | server/api.go:700-709 | the reading is appended to the device's log, or becomes it when there was none; other logs do not change |
| Api.RecordingReply | server/api.go:664-668 | "Record," exactly when the device is to record, else "Stop Recording," |
| Api.Sensor | server/api.go:628-719 | an accepted reading renews the contact time and clears the pending new set. It is appended only when its movement field parses as true. Fewer than four fields panic and an unparsable movement exits; a stale or unknown device is refused with no change. |
| Api.StatusReply | server/api.go:601-615 | the status reply is the recording reply followed by "New Set" exactly when a new set is pending, else "Continue Set" |
| Api.StatusReplyDecodes | server/api.go:601-615 | equal status replies mean equal recording and new-set flags |
| Api.DeviceStatus | server/api.go:573-624 | an empty name is refused and an unknown one is not found, both with no change; a known device gets a new contact time and the status reply |
| Api.UpdateStatus | server/api.go:526-565 | one chart row per device in registration order, with finished sets and latest set; the not-heard-from map holds exactly the devices not checked in, with their last contact |
| Archive.NoDotInItoa | server/api.go:403-404 | the decimal text of a number has no dot |
| Archive.ArchiveNumberOfName | server/api.go:395-404 | the name of archive n reads back as n exactly when n fits in 64 bits |
| Archive.ArchiveNameInjective | server/api.go:403-404 | different 64-bit numbers give different archive names |
| Archive.ArchiveNameDigit | server/api.go:403-404 | archives 1 to 9 have one-digit names |
| Archive.AsWrittenFreshBelowTen | server/api.go:395-404 | as written, with at most nine archives the next name is the highest plus one, and it is new |
| Archive.AsWrittenCollidesAtTen | server/api.go:395-404 | as written, with archives 1 to 10 the last entry is "9.csv" and the handler reopens "10.csv", which exists |
| Archive.WriteOver | server/api.go:404-416 | opening without truncation and copying puts the data at the start and keeps the old file's length when longer |
| Archive.AsWrittenRotationLosesSetTen | server/api.go:395-421 | as written, the tenth rotation adds no file; it overwrites the start of set 10 and leaves that set's tail behind |
| Archive.TopExists | server/api.go:395-402 | a non-empty numbered directory has an entry with the highest number |
| Archive.NextNumber | server/api.go:380-403 | with no numbered entry the next number is 1; otherwise it is one more than the highest number, and none when that is the largest 64-bit number |
| Archive.TopNumber | server/api.go:395-402 | every highest-numbered entry carries the same number |
| Archive.NextNumberSkipsStray | server/api.go:395-404 | an entry that is not a number, such as ".keep", does not change the next number |
| Archive.DotFileNotNumbered | server/api.go:396 | a name starting with a dot reads as no number |
| Archive.AsWrittenAgreesBelowTen | server/api.go:380-421 | with at most nine archives the rule as written and the highest-plus-one rule pick the same name, and the rotation as written adds it as a new file |
| Archive.NoNumberAfterLast | server/api.go:402-404 | after the largest 64-bit set there is no next number |
| Archive.NextArchiveNumber | server/api.go:380-403 | computes `NextNumber` |
| Archive.NextNumberFresh | server/api.go:380-404 | the next archive name is never one already present, and its number fits in 64 bits |
| Archive.ArchivesNumbered | server/api.go:395-403 | after k rotations every archive reads back as a number from 1 to k |
| Archive.ArchivesGrow | server/api.go:380-404 | each rotation adds exactly the next archive |
| Archive.NextNumberOfTop | server/api.go:395-402 | any highest-numbered entry fixes the next number |
| Archive.TopOfArchives | server/api.go:395-402 | after k rotations the highest archive is number k |
| Archive.NextNumberConsecutive | server/api.go:380-404 | after k rotations the next number is k + 1 |
| Buckets.BumpGet | server/api.go:745-766 | bumping a set of keys adds one to exactly those buckets |
| Buckets.IncrementBump | server/api.go:745-766 | one `Axises[i]++` after bumping some keys is bumping one more key |
| Buckets.DayKeysFirstMatch | server/api.go:755-770 | an event counts in bucket 0 exactly when it falls in the hour before midnight, and in bucket k from 1 to 23 exactly when k is the first hour whose test passes |
| Buckets.DayKeysInRange | server/api.go:758 | day buckets are hours 0 to 23 |
| Buckets.DayKeysOnTheHour | server/api.go:765 | an event exactly at hour h of the day counts in bucket h + 1 |
| Buckets.DayKeyAt | server/api.go:758-769 | once every earlier hour has failed its test, hour i is a bucket of the event exactly when its own test passes (bucket 0: the hour before midnight) |
| Buckets.DayKeysBelowNext | server/api.go:758-769 | the day buckets below the next hour are those below this hour plus this one |
| Buckets.DayKeysUpTo | server/api.go:765-767 | after the first passing hour no further bucket is hit, which is why the loop may break |
| Buckets.DayKeysHalfPast | server/api.go:755-770 | an event half past hour h, for h from 0 to 22, counts in bucket h + 1 only |
| Buckets.DayPayload | server/api.go:755-770 | the loop labels the chart "day" and adds one to exactly the day buckets of the event |
| Buckets.HourKeysFirstMatch | server/api.go:730-752 | an event counts in bucket 0 exactly when it falls in the five minutes before the hour, and in tick k exactly when k is the first tick whose test passes |
| Buckets.HourKeysInRange | server/api.go:737 | hour buckets are ticks 0, 5, ..., 55 |
| Buckets.HourKeyAt | server/api.go:737-750 | once every earlier tick has failed its test, tick i is a bucket of the event exactly when its own test passes (bucket 0: the five minutes before the hour) |
| Buckets.HourKeysBelowNext | server/api.go:737-750 | the buckets below the next tick are those below this tick plus this one |
| Buckets.HourKeysUpTo | server/api.go:747-749 | after the first passing tick no further bucket is hit, which is why the loop may break |
| Buckets.HourPayload | server/api.go:730-752 | the loop labels the chart "hour" and adds one to exactly the hour buckets of the event |
| Buckets.DayHits | server/api.go:785-813 | the number of events in a bucket is at most the number of events |
| Buckets.DayTallyCounts | server/api.go:785-813 | a day tally counts, per bucket, the events in it on top of the starting counts, and adds no key outside 0 to 23 |
| Buckets.DayTallyExample | server/api.go:755-770 | events half past hours 0, 0, 2 and 22 tally as {1: 2, 3: 1, 23: 1} |
| Buckets.DayTallySnoc | server/api.go:785-813 | one more event bumps that event's day buckets |
| Buckets.DayTallyStep | server/api.go:785-813 | an event with a single day bucket k adds one to bucket k of the tally, and changes nothing else |
| Buckets.AllMixesScales | server/api.go:802-804 | under "all" both closures count into one map labelled "day", so a key in both scales counts the event twice |
| Buckets.AddEvent | server/api.go:797-807 | the switch on the measure computes `ChartEvent`: "hour", "day", "all", and "day" as the default |
| PiDevice.CsvFile | client/device.py:17 | the log path is "csv/" + name + ".csv" |
| PiDevice.Protocol | client/device.py:26-29 | "https://" exactly when https is on, "http://" exactly when off |
| PiDevice.CsvFileInjective | client/device.py:17 | different device names never share a log |
| PiDevice.Device.constructor | client/device.py:11-29 | every field takes its argument; the log path and protocol derive from the name and the https flag; no `port` attribute exists |
| PiDevice.DefaultDevice | client/device.py:11-13 | the defaults: "Client" at "localhost:8003", a 0.5 s sleep, recording, online, a pending new set, set 1, password "test", https, not checked in |
| Client.DeviceValue | client/client.py:78-93 | a device key is found exactly when the "device" section exists and it or DEFAULT has the key |
| IniFile.StoredValue | client/client.py:409 | reading the file stores a value as its text without surrounding white space: a contiguous part of the text, with only white space before and after it |
| IniFile.InterpolatePlain | client/client.py:16 | a value without '%' is handed back unchanged by `BasicInterpolation` |
| IniFile.InterpolatePrefix | client/client.py:16 | text without '%' in front of a value passes through substitution unchanged, and the rest decides whether the lookup raises |
| IniFile.BarePercentRaises | client/client.py:16 | a '%' followed by neither '%' nor '(' makes the lookup raise `InterpolationSyntaxError` |
| IniFile.BarePercentExample | client/client.py:16 | "ab%cdef" raises whatever the section holds |
| IniFile.InterpolateEscape | client/client.py:16 | every value can be stored so that it reads back exactly: doubling each '%' is undone by the lookup |
| Client.FirstFailure | client/client.py:78-93 | None exactly when every lookup succeeds; otherwise the failure of a lookup that fails, with every lookup before it succeeding |
| Client.ValidatePiDevice | client/client.py:68-197 | the first lookup that fails decides. A KeyError exits in client.py and raises in test_client.py, which has no try block. A value that substitution rejects raises in both, since it is no KeyError. An unreadable sleep raises. A failed check exits. Accepted arguments are non-empty and have every flag true. The set must be a number at least 1, the password at least 5 characters, and https exactly "true" or "false" in any case. |
| Client.KeyErrorWhenIncomplete | client/client.py:78-93 | a KeyError comes first only in a file missing a key the script reads, and a file missing one always fails some lookup |
| Client.CompleteFailure | client/client.py:78-93 | in a file with every key, no lookup fails exactly when no value is rejected, and a failure is never a KeyError |
| Client.BadValueRaises | client/client.py:78-93 | a file with every key but a value that substitution rejects raises in both scripts |
| Client.LookupPlain | client/client.py:78-93 | a stored value without '%' is found as stored |
| Client.PlainFileFailure | client/client.py:78-93 | in a file whose values hold no '%', every present key is found as stored, and the only failure is a missing key |
| Client.PlainFileValidates | client/client.py:68-197 | for a file without '%', the outcome depends only on missing keys and the checks: a missing key exits in client.py and raises in test_client.py |
| Client.GetPiDevice | client/client.py:185-197 | a device is built exactly when validation accepts, with the validated fields, not checked in, without `port` |
| Client.FirstRunComplete | client/client.py:200-246 | the file a first run writes holds every key client.py reads, so it never exits for a missing key |
| Client.StoredValueWithin | client/client.py:226-243 | stripping a stored answer adds no character |
| Client.AnswerPlain | client/client.py:211-218 | an answer without '%', or its default, is stored stripped and still holds no '%' |
| Client.WrittenComplete | client/client.py:226-243 | a file holding what a first run stores has every key client.py reads |
| Client.WrittenLookups | client/client.py:226-243 | the fixed settings read back as written, and an answer without '%' reads back as stored |
| Client.WrittenInvalid | client/client.py:95-183 | of the checks, a first-run file can fail only those on the name, the address, the port and the password; its set reads as 1 and its https as "false" |
| Client.WrittenAccepts | client/client.py:68-197 | when no lookup of a first-run file fails, it never raises, and passes exactly when its four answers pass |
| Client.WrittenValidates | client/client.py:68-197 | a first-run file raises exactly when a lookup rejects a value; otherwise it passes exactly when the four answers pass, with a pending new set, set 1 and no https |
| Client.WrittenPlainFound | client/client.py:226-243 | every lookup of a first-run file without '%' finds its stored text |
| Client.WrittenPlainValidates | client/client.py:68-197 | a first-run file without '%' never raises, and passes exactly when the name, the address and the port are non-empty and the password at least five long |
| Client.WrittenBadPassword | client/client.py:84 | a first-run password that substitution rejects makes the run raise |
| Client.FirstRunAccepted | client/client.py:200-246 | a first-run file raises exactly when a stored answer holds a '%' that substitution rejects. Otherwise it passes exactly when name, address and port read back non-empty and the password at least five long. It starts in set 1 without https, and with a pending new set, because `bool("False")` is true. |
| Client.FirstRunEntries | client/client.py:200-246 | an answer without '%' reads back as typed, or as its default when empty, without its surrounding white space |
| Client.FirstRunFixedEntries | client/client.py:226-243 | the settings the first run fixes read back as written, the set as `str(1)` |
| Client.FirstRunPlainAnswers | client/client.py:200-246 | answers without '%' never raise; the run passes exactly when name, address and port are not blank and the stripped password is at least five long |
| Client.FirstRunPaddedPassword | client/client.py:209-214 | a password typed as "abcd " reads back as "abcd" and is rejected |
| Client.FirstRunBlankName | client/client.py:205-212 | a name typed as one space is kept, reads back empty, and is rejected |
| Client.FirstRunPercentPassword | client/client.py:209-214 | a password typed as "ab%cdef" makes the lookup raise, and nothing catches it |
| Client.WentOffline | client/client.py:56-62 | the device and its configuration say offline, and nothing else changes |
| Client.CheckedIn | client/client.py:38-62 | checked in after any answer but "Already checked in"; the configuration records which; no connection marks the device offline; the loop fields and files are kept |
| Client.CheckInDevice | client/client.py:24-65 | client.py without `port` dies before its try block with nothing changed; otherwise the state after the reply is `CheckedIn` |
| Client.LocalLine | client/client.py:291-301 | test_client.py logs the whole time stamp; client.py logs its date and time fields followed by " \n" |
| Client.TimeStampFields | client/client.py:291-296 | a time stamp splits back into name, date, time and movement bit |
| Client.FirstIndex | client/client.py:315-331 | the position of the first occurrence of a token, or the length when absent |
| Client.SensorReplyEffect | client/client.py:315-334 | a "Stop Recording" token stops recording. In test_client.py only tokens before a "New Set" count, and "New Set" bumps the set and then drops offline, because storing an int raises. Otherwise the device is online with its set unchanged. |
| Client.RecordingNext | client/client.py:263-345 | a recording pass clears the pending new set. It dies exactly when client.py lacks `port` or a due upload fails. The log gains a line only on movement, archives stay, and the set moves only in test_client.py, by one, with the device offline. |
| Client.Posted | client/client.py:303-342 | the request dies exactly when client.py lacks `port`; it leaves the log and archives alone |
| Client.Logged | client/client.py:266-301 | after the local part no new set is pending, the set and archives are kept, the log gains a line exactly on movement, and a due upload marks the device online before |
| Client.Store | client/client.py:263-399 | the device's loop fields and local state become the given state |
| Client.HandleSensorReply | client/client.py:315-334 | the token loop computes `SensorReplyEffect` |
| Client.SensorReplyNewSetAt | client/test_client.py:262-272 | in test_client.py the first "New Set" ends the reply: only "Stop Recording" tokens before it count, the set goes up by one and the device goes offline |
| Client.SensorReplyWithoutNewSet | client/client.py:315-334 | a reply read to the end stops the device exactly when it holds "Stop Recording" and marks it online |
| Client.LogReading | client/client.py:266-301 | the local part of a recording pass computes `Logged`, or dies with only the flag cleared |
| Client.PostReading | client/client.py:303-342 | the request part computes `Posted` |
| Client.RecordingStep | client/client.py:263-345 | a recording pass on the objects computes `RecordingNext` |
| Client.ArchivePathInjective | client/client.py:370-387 | different set numbers are archived under different paths |
| Client.StatusReplyEffect | client/client.py:365-387 | "Record" starts recording. "New Set" sets the pending flag. When no new set was pending, it also archives the log under the old set, empties the log, and bumps the set, which the configuration records. Otherwise the set and files stay. |
| Client.NotRecordingNext | client/client.py:349-399 | the configuration records the recording flag. Without `port` or a connection the device only goes offline, while its configuration still says online; otherwise the connection flags are kept. |
| Client.StatusReplySnoc | client/client.py:365-387 | handling one more token is the loop body on the earlier result |
| Client.RecordTokenSnoc | client/client.py:366-368 | the same for a "Record" token |
| Client.NewSetTokenSnoc | client/client.py:370-387 | the same for a "New Set" token |
| Client.NewSetTokenWhilePending | client/client.py:370-387 | with a new set pending, or begun by an earlier token, a further "New Set" changes nothing |
| Client.NewSetTokenArchives | client/client.py:370-387 | the first "New Set" of a reply, with none pending, archives as the loop body does |
| Client.ArchiveConfigCommutes | client/client.py:366-387 | writing "is_recording" before or after the archive keys gives the same configuration |
| Client.HandleStatusReply | client/client.py:365-387 | the token loop computes `StatusReplyEffect` |
| Client.HandleStatusToken | client/client.py:366-387 | the loop body applies one token as `StatusToken` says |
| Client.NotRecordingStep | client/client.py:349-399 | a not-recording pass on the objects computes `NotRecordingNext` |
| Client.NextState | client/client.py:253-399 | a pass that does not record never dies. Without `port`, client.py dies when recording and otherwise stays offline and not recording. The set moves by at most one. |
| Client.Step | client/client.py:253-399 | one pass on the objects computes `NextState` |
| Client.NewArchiveIsFresh | client/client.py:370-387 | while every archive is below the current set, archiving never overwrites |
| Client.StepKeepsArchivesBelow | client/client.py:253-399 | every pass keeps every archive below the current set |
| Client.NewSetArchivesOnce | client/client.py:370-387 | after a pass that saw "New Set", a second "New Set" archives nothing |
| Client.RecordingRearmsNewSet | client/client.py:266-387 | after a recording pass, "New Set" archives the log under the current set again |
| Client.InitFileSystem | client/test_client.py:181-190 | the device's archive directory and log exist afterwards; existing files are kept and a new log is empty |
| Client.InitFileSystemIdempotent | client/test_client.py:181-190 | setting up twice equals setting up once |
| Client.Wipe | client/test_client.py:368-383 | nothing happens unless the answer is y or Y and the log exists. A missing archive directory raises after the log is gone. Otherwise the log and everything in the archive directory are deleted, other files are kept, and five keys are reset. |
| Client.WipeThenInit | client/test_client.py:368-385 | a wipe followed by the set-up leaves an empty log and no archives |
| Wire.ServerReadsTimeStamp | server/api.go:640-691 | the sensor handler reads back the client's device name and movement bit from a time stamp |
| Wire.SensorReplyTokens | client/client.py:315-331 | the sensor reply splits into the recording instruction and an empty token |
| Wire.SensorReplyDrivesClient | client/client.py:315-334 | after a sensor reply the client keeps recording exactly when the server says so, stays in its set and is online |
| Wire.StatusReplyTokens | client/client.py:365-387 | the status reply splits into the recording and the set instruction |
| Wire.SplitPair | client/client.py:360 | two comma-free words joined by a comma split back into exactly those two words |
| Wire.StatusReplyDrivesClient | client/client.py:365-387 | after a status reply the client records exactly when the server says so. It moves to the next set exactly when the server has a new set and none is pending on the client. |

## Left out

- Locking. `deviceCenter`'s RWMutex and `mu` are not modelled; each handler runs alone. The handlers that write maps under a read lock (api.go:775-817, helper_functions.go:262-271) are outside this model.
- The SQLite table is modelled only as its outcome. `ExecTxQuery` says whether a statement fails and whether it commits, and `Persisted`/`LoadedRecords` say what a restart reads back. SQL text is not interpreted, so the sensor handler's malformed UPDATE is not modelled. Nor is the new-set UPDATE (server/api.go:333, 441): it sets a `latest_set` column that the table (server/helper_functions.go:140-148) does not have, so it fails, and after a new set the stored `device_set` and `is_new_set` keep their old values. `ReloadKeepsDevices` reads back rows written from the registry itself.
- `mainView`, `reloadCSVHandler` and the tar and download handlers of server/api.go are not modelled. They serve files and templates.
- The file loop of `updateChartHandler` is not modelled: reading each log line and parsing its time. Only what one event adds to a chart, and the tally of a list of event times, are modelled. The nil `*chart` values the loop uses are not modelled.
- server/html.go, server/server.go, client/client2.py, client/csv_script.py and client/const.py are not part of this model.
- `sendPayload` is modelled as always succeeding; JSON encoding errors are left out.
- Times are whole seconds, not `time.Time`. Formatting and parsing of dates is not modelled.
- Api.NewSetStep: does not model 64-bit wrap-around of `DeviceSet[deviceName]++`. Set numbers are unbounded integers.
- Api.NewSetStep: picks the next archive by the highest number plus one (`NextNumber`), not by the last directory entry as written (`NextNameAsWritten`). The two agree for at most nine archives (`AsWrittenAgreesBelowTen`). They differ from ten archives on (the Findings row). They also differ when a non-number entry sorts last ("notes.txt"): the code exits, the model skips the entry. The same holds for an entry such as ".keep" that sorts first: both give the next number. After the largest 64-bit archive number the code wraps to a negative name, and the model exits. The model also writes the archive as a new file, whereas the code opens without truncating (`WriteOver`); with a fresh name the two are the same.
- Api.ArchivesFollowSets: is proved kept by every handler that moves a set or a directory, and is established for a new name with no directory. It is not established after a restart: the table keeps a device whose directory may be gone, and a directory may be left over for a name the table lost (`CheckInOverOldDirectory`).
- Python's `float` is a parameter of `ValidatePiDevice`, and floating point is not modelled.
- `int()` accepts signed decimal text with surrounding white space only. Underscores are not modelled.
- `str.lower()`, and the white space that `int()`, `str.strip()` and `configparser` strip, are modelled on ASCII only.
- `configparser` is modelled for the files client.py writes and reads: one line per value. Continuation lines, comments and section or option names that differ in case are not modelled. An answer cannot hold a line break, since `input()` returns one line.
- `configparser`'s substitution is modelled where `_get_pi_device` reads the file. The loop's later reads of `CONFIG` (for example client/client.py:394-395) use the stored text, and `ConfigParser.set` checking a new value for '%' is not modelled; the values the loop stores hold none.
- `InterpolationDepthError`, raised past ten nested references, is modelled as the lookup raising, like the other `InterpolationError`s.
- A failed `os.MkdirAll` (server/api.go:306-307), the `os.OpenFile`, `io.Copy` and `os.Create` calls of `newSetHandler` (server/api.go:381-384, 404-407, 416-419, 427-430) and the sensor handler's `os.OpenFile` (server/api.go:706-707) end the process when the file system fails. Those failures are not modelled: the files are maps that always accept a write. So `NewSetStepRotates` says exactly when the model exits, and the code can also exit when one of these calls fails.
- HTTP requests, `time.sleep` and the random movement bit are parameters. These are `Reply`, the loop step, and `Exchange`.
- The reload upload of the whole log is modelled as delivered or not; the server's side of it is not modelled.
- Writing client.ini back to disk is not modelled; the configuration is the map `Local.config`.
- The client's `while True` loop is modelled one pass at a time, as `Step`.
- Only the configuration written by client.py's `_init_file_system` is modelled, as `FirstRunConfig`. The directories and the empty log it creates are not.
- client.py's `-w` option deletes the whole project directory with `rmtree`. It is not modelled; test_client.py's `Wipe` is.
- The client writes its log under a path relative to where it runs. client.py's own files live under the home directory. That mismatch is not modelled.
- `copyfile` failures on the client are not modelled.
- `os.makedirs` is modelled by the set of directories it leaves. A file already at a directory path is not modelled.
- A device's `LatestSet` is not stored in the table (helper_functions.go:140-148), so it is lost on restart. `ReloadKeepsDevices` states this rather than modelling a column.

Where the description of the system and the code differ, the model follows
the code:

- The day chart counts an event exactly on hour h of the day in bucket h + 1
  (`Buckets.DayKeysOnTheHour`). An event in the hour before midnight counts in
  both buckets 0 and 1.
- The sweep re-marks every fresh device as checked in. It does not only mark
  stale ones as not checked in (`Helpers.SweptFlags`).
- A failed database statement during check-in exits the process. The maps
  were already updated, and nothing rolls them back.
- client.py reads `pi_device.port`, which `Device` never sets. That raises
  `AttributeError`. On a recording pass the read is outside any try block, so
  the program dies. On a not-recording pass it is inside one, so the pass
  goes offline (`Client.NextState`).
- In test_client.py a "New Set" sensor token raises after bumping the set,
  because an int is stored in the configuration. The except block then marks
  the device offline (`Client.SensorReplyEffect`).

## Findings

| source | as written | input that shows it | evidently intended | confidence | as-written member | corrected member |
|---|---|---|---|---|---|---|
| server/api.go:395-404 | the next archive number is the number of the last `ReadDir` entry, in byte order, plus one | archives "1.csv" to "10.csv": the last entry is "9.csv", so "10.csv" is reopened without truncation and set 10 is overwritten | the highest archive number plus one | not executed | Archive.AsWrittenCollidesAtTen | Archive.NextNumberConsecutive |
