# ESPrinklr8266 in Dafny

ESPrinklr8266 is a lawn-sprinkler controller for the ESP8266. The firmware holds a
weekly **schedule** (weekdays, a start time, a list of **stations** with their valve pin
and watering time, a rain delay, a manual run and a pin test). Once per main loop it
turns the schedule into a **status**: which station is watering, in which state, and when
that state began and ends. Whenever the status changes, the valve output moves from one
pin to the next. Both records are exchanged as JSON through a REST endpoint and a web
socket, and through change-detecting `read`/`update` functions. A React console
(the "interface") loads and saves these records. It also manages users and sessions,
scans WiFi networks and uploads firmware.

This project models both layers.

- **Firmware** (C++, `src/`):
  - `Schedules`: the Station and Schedule records and their `read`/`update` functions,
    plus the service's boot defaults.
  - `Statuses`: the SystemState codec and the Status record.
  - `FirmwareMain`: the station timeline, the status cascade of `updateStatus` and the
    valve hand-over of `handleStatusChange`.
  - `ArduinoJson` and `StateUpdate`: the slice of the JSON library and of the framework
    that the firmware uses.
- **Console** (TypeScript, `interface/src/`):
  - `RestControllers`: load, save and field edits of a REST-backed form.
  - `WiFiScanner`: the scan-then-poll protocol with its ten-poll limit, and the ordering
    of networks by signal.
  - `Sessions`: the authentication wrapper.
  - `SignInPage`: the sign-in submit.
  - `RouteGates`: the two route gates.
  - `ManageUsers`: the user list editor.
  - `ScheduleForm`: the schedule editor, where station rows are edited as text and
    converted with `parseInt`.
  - `UploadFirmware`: the firmware upload.
  - `Js`: the JavaScript built-ins these rely on, namely `parseInt`, `Number.prototype.toString`,
    string `<` and `Array.prototype.sort` with a comparator.

The model follows each source file's structure:

- **Firmware records:** the C++ value records are datatypes. Each `update(root, x&)` is a method
  that runs statement by statement and is proved equal to a function, which the lemmas are about.
- **Firmware services:** the two stateful services and the GPIO driver are classes.
- **React components:** each component is a class. Its `useState` cells and its queue of
  snackbar notifications are fields. Each event handler is a method whose contract gives the new value of
  every field it may change, including those of the session it is handed.
- **Asynchronous replies:** a fetch or upload reply is passed to a method as a
  `FetchOutcome`, which is either a response with a status and a body, or a rejection with a message.
- **Scenarios:** methods build a fresh component, run a sequence of events, and return what the
  user would see.

## Model

| member | source | states |
|---|---|---|
| ArduinoJson.IntOr | src/ScheduleService.h:26 | `root[key] \| d` for an int: an absent key gives the default; otherwise the result is either the default or the in-range integer stored under the key, and such an integer is always taken |
| ArduinoJson.BoolOr | src/ScheduleService.h:101 | `root[key] \| d` for a bool: an absent key gives the default, a stored bool is taken, and nothing else is ever returned |
| ArduinoJson.StringOr | src/ScheduleService.h:35 | `root[key] \| d` for a string: an absent key gives the default, a stored string is taken, and nothing else is ever returned |
| ArduinoJson.LongValue | src/ScheduleService.h:168 | `long x = root[key]`: an absent key gives 0, a stored in-range integer is taken, and the result is always in range |
| ArduinoJson.ArrayItems | src/ScheduleService.h:152 | `JsonArray a = root[key]`: the stored array's elements, or no elements when the key holds no array |
| ArduinoJson.ObjectOf | src/ScheduleService.h:161 | `JsonObject o = element`: the element's members, or none when it is no object |
| StateUpdate.UpdateStateValue | src/main.cpp:51-56 | the value becomes the new value; the verdict becomes CHANGED when the two differed and otherwise stays as it was |
| Schedules.ReadStation | src/ScheduleService.h:17-21 | Station::read writes exactly the keys pin, name and durationSeconds, and each reads back as the station's value when it fits in an int |
| Schedules.StationUpdate | src/ScheduleService.h:23-51 | Station::update fails exactly when the pin or the duration is missing or negative; an accepted station always fits in an int; CHANGED means a different station and UNCHANGED the same one |
| Schedules.UpdateStation | src/ScheduleService.h:23-51 | Station::update as written equals the station-update function: a failure on the pin leaves the station untouched, and a failure on the duration keeps the pin and name already written |
| Schedules.StationRoundTrip | src/ScheduleService.h:17-51 | updating any station from Station::read's output of a representable station gives back that station, and CHANGED exactly when the two differed |
| Schedules.StationPinRejected | src/ScheduleService.h:26-29 | a missing or negative pin gives ERROR and the station is unchanged |
| Schedules.StationDurationRejectedLate | src/ScheduleService.h:35-44 | a missing or negative duration gives ERROR after the pin and name have been written |
| Schedules.ReadSchedule | src/ScheduleService.h:74-95 | Schedule::read keeps every key the object held and writes all twelve schedule keys |
| Schedules.StationsJson | src/ScheduleService.h:85-89 | Schedule::read writes one nested object per station, in order |
| Schedules.Resized | src/ScheduleService.h:154-158 | the resized list has the array's length, keeps the prefix, and pads with zero stations |
| Schedules.StationUpdates | src/ScheduleService.h:160-166 | element i is Station::update applied to array element i and station i |
| Schedules.UpdatedStations | src/ScheduleService.h:160-166 | the stations the per-station updates leave behind, index by index |
| Schedules.UpdateStationList | src/ScheduleService.h:152-166 | the loop resizes the list and updates every station. It reports CHANGED when the length changed or a station reported CHANGED, and never passes on a station's ERROR |
| Schedules.UpdateDayFlags | src/ScheduleService.h:101-141 | the seven flags are read with the default false and written; CHANGED exactly when one of them differed |
| Schedules.AssignDayFlags | src/ScheduleService.h:101-141 | the seven change-detecting assignments give those flags, and CHANGED exactly when one differed |
| Schedules.ScheduleUpdate | src/ScheduleService.h:98-187 | Schedule::update fails exactly when the start offset is missing or negative; otherwise the station list takes the array's length; UNCHANGED means every non-station field is as it was |
| Schedules.UpdateSchedule | src/ScheduleService.h:98-187 | Schedule::update as written equals the schedule-update function, including the early ERROR on the start offset after the days are written |
| Schedules.DiffersFieldwise | src/ScheduleService.h:54-72 | two schedules differ exactly when one of their twelve fields does |
| Schedules.StationsRoundTrip | src/ScheduleService.h:152-166 | updating any station list from the serialised stations gives those stations, and no station update fails |
| Schedules.ReadScheduleEarlyDays | src/ScheduleService.h:74-81 | the first three day flags read back from Schedule::read's output |
| Schedules.ReadScheduleLateDays | src/ScheduleService.h:74-81 | the last four day flags read back from Schedule::read's output |
| Schedules.ReadScheduleNumbers | src/ScheduleService.h:83-95 | the offset, the station array and the three numbers read back when they fit in an int |
| Schedules.ScheduleUpdateFromFields | src/ScheduleService.h:98-187 | an update from any object holding exactly a representable schedule's fields yields that schedule, and CHANGED exactly when it differed |
| Schedules.ScheduleRoundTrip | src/ScheduleService.h:74-187 | updating any schedule from Schedule::read's output yields the serialised schedule, whatever the object held before, and CHANGED exactly when the two differed |
| Schedules.ScheduleReadUpdateUnchanged | src/ScheduleService.h:74-187 | updating a schedule from its own serialisation gives UNCHANGED and the same schedule |
| Schedules.ScheduleOffsetRejectedAfterDays | src/ScheduleService.h:143-146 | a missing or negative start offset gives ERROR, with only the seven day flags rewritten |
| Schedules.ScheduleStationErrorsIgnored | src/ScheduleService.h:152-166 | with a valid offset the update never fails, the station list takes the array's length, and a change of length is CHANGED |
| Schedules.ScheduleDayDefaults | src/ScheduleService.h:101-141 | each absent day key gives false, whatever else the object holds |
| Schedules.ScheduleDefaults | src/ScheduleService.h:143-184 | an absent start offset fails; once the offset is accepted, each other absent key gives its default whatever else the object holds: no stations, 0 for the rain delay, -1 for the test pin and the manual start |
| Schedules.ScheduleChangedMeansDifferent | src/ScheduleService.h:98-187 | CHANGED is reported only when the schedule really changed |
| Schedules.ScheduleUnchangedMeansEqual | src/ScheduleService.h:98-187 | UNCHANGED means the schedule is the same, unless a station's own update failed part-way |
| Schedules.ScheduleStationErrorHidesChange | src/ScheduleService.h:160-166 | a station whose JSON has a new pin but no duration is rewritten, yet the schedule update says UNCHANGED |
| Schedules.ScheduleService.constructor | src/main.cpp:10 | the global service starts zero-initialised |
| Schedules.ScheduleService.Begin | src/ScheduleService.cpp:25-35 | begin resets the rain delay, offset, Monday to Friday, stations and test pin, and leaves Saturday, Sunday and the manual start as they were |
| Statuses.ParseSystemState | src/StatusService.h:25-32 | each of the five names maps to its state, and every other string maps to INVALID |
| Statuses.SerialiseSystemState | src/StatusService.h:34-45 | each state's name, and "INVALID" for INVALID |
| Statuses.ParseSerialise | src/StatusService.h:25-45 | parsing a serialised state gives the state back |
| Statuses.SerialiseParse | src/StatusService.h:25-45 | serialising a parsed valid name gives the name back |
| Statuses.ParseRejectsOthers | src/StatusService.h:25-32 | a string naming no valid state, "INVALID" among them, parses to INVALID |
| Statuses.ReadStatus | src/StatusService.h:47-53 | Status::read keeps every key the object held, adds exactly the five status keys, and leaves the other keys' values as they were |
| Statuses.StatusUpdate | src/StatusService.h:55-93 | Status::update fails exactly when the pin is missing or negative or the state names no state; a bad pin leaves the status untouched; an accepted status always round-trips, and CHANGED then means a different status |
| Statuses.UpdateStatus | src/StatusService.h:55-93 | Status::update as written equals the status-update function |
| Statuses.ReadStatusFields | src/StatusService.h:47-53 | each field reads back from Status::read's output when it fits in an int |
| Statuses.StatusRoundTrip | src/StatusService.h:47-93 | updating any status from an acceptable status's serialisation gives that status, and CHANGED exactly when the two differed |
| Statuses.StatusReadUpdateUnchanged | src/StatusService.h:47-93 | an acceptable status updated from its own serialisation gives UNCHANGED |
| Statuses.StatusPinRejected | src/StatusService.h:58-61 | a missing or negative active pin gives ERROR with nothing written, so the idle pin -1 is never accepted |
| Statuses.StatusStateRejectedLate | src/StatusService.h:85-86 | an unknown state gives ERROR after the pin, station and both times have been written |
| Statuses.StatusDefaults | src/StatusService.h:67-86 | once the pin is accepted, each absent key gives its default whatever else the object holds: "" for the station, -1 for either time, and an absent state fails |
| Statuses.BootStatusRejected | src/StatusService.cpp:15-21 | the boot status serialises with the state "INVALID"; updating from that output gives ERROR and leaves the target untouched |
| Statuses.StatusService.constructor | src/main.cpp:11 | the global service starts zero-initialised |
| Statuses.StatusService.Begin | src/StatusService.cpp:15-21 | begin sets pin -1, no station, both times -1 and the state INVALID |
| FirmwareMain.StationStartGrows | src/main.cpp:66-90 | a later station starts no earlier than the end of an earlier one's window plus the 5-second gap |
| FirmwareMain.AtMostOneActive | src/main.cpp:66-90 | no two stations are active at the same moment of a run |
| FirmwareMain.ZeroDurationNeverActive | src/main.cpp:70-71 | a station with duration 0 is never active |
| FirmwareMain.FindActive | src/main.cpp:68-91 | the search finds an active station at or after the given index exactly when one exists, and returns the first |
| FirmwareMain.ActiveIndexIff | src/main.cpp:66-91 | the active index is i exactly when station i's window holds the elapsed time |
| FirmwareMain.NoStationBeforeStart | src/main.cpp:61-64 | before the run starts no station is active |
| FirmwareMain.NoStationInGap | src/main.cpp:85-90 | in the gap after a station's window no station is active |
| FirmwareMain.NoStationAfterLast | src/main.cpp:85-93 | after the last window no station is active; there is no gap after the last station |
| FirmwareMain.RunningStatus | src/main.cpp:72-82 | a station's run status carries its pin, name and window bounds, and the manual or scheduled state |
| FirmwareMain.AssignStatus | src/main.cpp:73-81 | the five assignments give the target status, and CHANGED exactly when the status was not already the target |
| FirmwareMain.SetStatus | src/main.cpp:102-112 | the service's state becomes the lambda's target |
| FirmwareMain.UpdateScheduledStatus | src/main.cpp:60-94 | true exactly when the current time falls in a station's window. The status then becomes that station's run status; otherwise it is untouched |
| FirmwareMain.TestingStatus | src/main.cpp:105-109 | the pin-test status: the test pin, no station, times -1 |
| FirmwareMain.DisabledStatus | src/main.cpp:129-133 | the rain-delay status: no pin, with the end of the delay as the leaving time |
| FirmwareMain.ScheduledToday | src/main.cpp:151-163 | weekday 0 is Sunday through 6 Saturday, and any other value counts as not scheduled |
| FirmwareMain.StartClock | src/main.cpp:168-171 | hour, minute and second recompose the offset, minute and second are below 60, and the hour is below 24 for an offset below a day |
| FirmwareMain.ManualRun | src/main.cpp:115-122 | the manual run hits exactly when its start has passed and some station's window holds the elapsed time, and then the status is that station's manual run status |
| FirmwareMain.ScheduledRunOrIdle | src/main.cpp:168-175 | the scheduled step ends idle exactly when no station's window holds the elapsed time, and otherwise in that station's scheduled run status |
| FirmwareMain.StatusWrites | src/main.cpp:98-176 | the writes updateStatus makes, in order; only a manual run that hits ends the sequence early |
| FirmwareMain.UpdateStatus | src/main.cpp:98-176 | the service ends in the last status that the as-written cascade writes |
| FirmwareMain.UpdateStatusEndsRunningOrIdle | src/main.cpp:98-176 | as written, every call leaves a run or idle status |
| FirmwareMain.UpdateStatusIgnoresWeekday | src/main.cpp:164-175 | as written, the weekday does not change the status a call leaves |
| FirmwareMain.UpdateStatusLosesPinTest | src/main.cpp:100-113 | a pin test with no stations is written first and then replaced by idle in the same call |
| FirmwareMain.IntendedStatus | src/main.cpp:98-176 | the intended cascade never gives INVALID; it tests a pin exactly when a test pin is set, and runs manually exactly when no test pin is set and the manual run hits |
| FirmwareMain.UpdateStatusIntended | src/main.cpp:98-176 | with every mode ending the call, the service ends in the intended cascade's status |
| FirmwareMain.IntendedStatusModes | src/main.cpp:98-176 | in the intended cascade the pin test wins, and a scheduled run needs a scheduled day and no rain delay. The rain delay shows exactly when neither the test nor a manual run applies. A running status has a real pin |
| FirmwareMain.IntendedAgreesWhenNoOverride | src/main.cpp:98-176 | without a test, a rain delay or a day off, the as-written and intended cascades agree |
| FirmwareMain.StationDriver.constructor | src/main.cpp:13 | no pin driven, and the remembered pin is -1 |
| FirmwareMain.StationDriver.HandleStatusChange | src/main.cpp:15-27 | the driver's remembered pin and levels follow the as-written hand-over |
| FirmwareMain.StationDriver.HandleStatusChangeIntended | src/main.cpp:15-27 | the driver follows the intended hand-over |
| FirmwareMain.StatusChange | src/main.cpp:15-27 | the as-written hand-over function that StationDriver.HandleStatusChange is proved against; its meaning is stated by StatusChangeOneValveOpen |
| FirmwareMain.StatusChangeOneValveOpen | src/main.cpp:15-27 | for all inputs, as written: at most one valve is open and it is the remembered pin; a new pin opens its valve; going idle closes every valve but keeps the old pin remembered |
| FirmwareMain.IntendedStatusChange | src/main.cpp:15-27 | as StatusChange, except that going idle also forgets the pin |
| FirmwareMain.IntendedStatusChangeConsistent | src/main.cpp:15-27 | the intended hand-over keeps exactly the remembered pin HIGH, so the running station's pin is always HIGH |
| FirmwareMain.StatusChangeMissesRestart | src/main.cpp:15-27 | pins 4, then idle, then 4: as written, pin 4 stays LOW on the restart |
| FirmwareMain.IntendedStatusChangeRestarts | src/main.cpp:15-27 | the same sequence with the intended hand-over turns pin 4 HIGH again |
| Js.NatToDecimal | interface/src/project/LightStateRestController.tsx:52-53 | `toString` of a natural number is a non-empty run of decimal digits |
| Js.NumberToString | interface/src/project/LightStateRestController.tsx:52-53 | `toString` is never empty, is "NaN" exactly for NaN, and starts with "-" exactly for a negative number |
| Js.TrimStart | interface/src/project/LightStateRestController.tsx:66-67 | the white space parseInt skips: a suffix of the text that starts with no white space |
| Js.DigitPrefix | interface/src/project/LightStateRestController.tsx:66-67 | the longest run of digits parseInt reads: every element is the digit's value, and the character after the run is no digit |
| Js.ParseInt | interface/src/project/LightStateRestController.tsx:66-67 | parseInt of an empty or blank text is NaN, and a negative result comes only from a text whose first non-blank character is "-" |
| Js.ParseIntUnsigned | interface/src/project/LightStateRestController.tsx:66-67 | parseInt of a text that starts with a decimal digit (and no "0x") is the value of its leading decimal digits; whatever follows them is ignored |
| Js.ParseIntNegative | interface/src/project/LightStateRestController.tsx:66-67 | parseInt of "-" followed by such a text is the negation of the value of its leading decimal digits |
| Js.NatToDecimalDenotes | interface/src/project/LightStateRestController.tsx:52-53 | the decimal text of a natural number starts with a digit and its digits denote that number |
| Js.NegativeReadsBack | interface/src/project/LightStateRestController.tsx:109-118 | parseInt reads the text of a negative number back as that number |
| Js.ParseIntNumberToString | interface/src/project/LightStateRestController.tsx:109-118 | parseInt inverts toString on every integer |
| Js.ParseIntNaN | interface/src/project/LightStateRestController.tsx:109-118 | parseInt("NaN") is NaN, whose text is "NaN" again |
| Js.StringLessAsymmetric | interface/src/security/ManageUsersForm.tsx:21-29 | string `<` is irreflexive and asymmetric |
| Js.StringLessTotal | interface/src/security/ManageUsersForm.tsx:21-29 | of two different strings, one is `<` the other |
| Js.StringLessTransitive | interface/src/security/ManageUsersForm.tsx:21-29 | string `<` is transitive |
| Js.MessageOrUnknown | interface/src/components/RestController.tsx:56 | a non-empty message is kept, an empty one becomes "Unknown error", so the result is never empty |
| Js.Insert | interface/src/security/ManageUsersForm.tsx:106 | insertion adds exactly the one element |
| Js.SortWith | interface/src/security/ManageUsersForm.tsx:106 | sorting with a comparator is a permutation |
| Js.InsertSorted | interface/src/security/ManageUsersForm.tsx:106 | with a total comparator, insertion into a sorted list keeps it sorted |
| Js.SortWithSorted | interface/src/wifi/WiFiNetworkScanner.tsx:63 | with a total comparator, the sorted list is in comparator order |
| RestControllers.ExtractEventValue | interface/src/components/RestController.tsx:18-27 | a number for "number" inputs, the flag for "checkbox" inputs, and the text otherwise |
| RestControllers.ExtractEventValueKind | interface/src/components/RestController.tsx:18-27 | the kind of the value determines the input type, in both directions |
| RestControllers.WithField | interface/src/components/RestController.tsx:91 | the field takes the value and other fields keep theirs; spreading undefined adds none |
| RestControllers.RestController.constructor | interface/src/components/RestController.tsx:33-35 | no data, not loading, no error |
| RestControllers.RestController.SetNewData | interface/src/components/RestController.tsx:37-41 | new data, no error, not loading |
| RestControllers.RestController.StartLoad | interface/src/components/RestController.tsx:46-48 | loading, with data and error cleared |
| RestControllers.RestController.LoadSettled | interface/src/components/RestController.tsx:49-61 | a 200 with a body shows that body. Any other outcome clears the data, keeps a non-empty error and notifies "Problem fetching: …". Loading ends either way |
| RestControllers.RestController.StartSave | interface/src/components/RestController.tsx:64-72 | loading, and the current data is the POST body |
| RestControllers.RestController.SaveSettled | interface/src/components/RestController.tsx:64-88 | a response is handled like a load, with "Update successful." or "Problem updating: …". A rejected POST changes nothing, so loading stays on |
| RestControllers.RestController.SaveSettledIntended | interface/src/components/RestController.tsx:64-88 | every outcome ends loading; a rejection is reported like any failed update |
| RestControllers.RestController.HandleValueChange | interface/src/components/RestController.tsx:90-93 | only the named field changes, to the extracted event value |
| RestControllers.LoadFailure | interface/src/components/RestController.tsx:54-56 | a non-200 status gives "Invalid status code: N", and a rejection gives its own message |
| RestControllers.InvalidStatusCodeNotEmpty | interface/src/components/RestController.tsx:54-56 | a status message is never replaced by "Unknown error" |
| RestControllers.LoadSucceeds | interface/src/components/RestController.tsx:45-62 | a 200 load shows the body, is not loading, has no error and notifies nothing |
| RestControllers.LoadFailsWithStatus | interface/src/components/RestController.tsx:45-62 | a non-200 load shows no data, stores the status as the error, and notifies once |
| RestControllers.LoadRejectedWithoutMessage | interface/src/components/RestController.tsx:55-59 | a rejection with an empty message is reported as "Unknown error" |
| RestControllers.EditThenSave | interface/src/components/RestController.tsx:64-93 | the POST body is the loaded data with the one edited field replaced |
| RestControllers.SaveRejectedKeepsLoading | interface/src/components/RestController.tsx:64-72 | as written, a rejected POST leaves the form loading with nothing notified |
| RestControllers.SaveRejectedIntended | interface/src/components/RestController.tsx:64-88 | as intended, a rejected POST ends loading and is notified |
| WiFiScanner.CompareNetworks | interface/src/wifi/WiFiNetworkScanner.tsx:114-120 | 1, -1 or 0 exactly when the first signal is weaker, stronger or equal |
| WiFiScanner.CompareNetworksOrder | interface/src/wifi/WiFiNetworkScanner.tsx:114-120 | the comparator is antisymmetric and puts a first exactly when its signal is no weaker |
| WiFiScanner.SortedNetworksDescend | interface/src/wifi/WiFiNetworkScanner.tsx:63 | the sorted networks are a permutation, in non-increasing rssi |
| WiFiScanner.Scanner.constructor | interface/src/wifi/WiFiNetworkScanner.tsx:34-40 | poll counter 0, not scanning, no list, no error |
| WiFiScanner.Scanner.Fail | interface/src/wifi/WiFiNetworkScanner.tsx:68-77 | notifies "Problem scanning: …", keeps the message, drops the list and stops scanning |
| WiFiScanner.Scanner.ScanNetworks | interface/src/wifi/WiFiNetworkScanner.tsx:80-84 | the poll counter restarts; scanning, with no list and no error |
| WiFiScanner.Scanner.ScanSettled | interface/src/wifi/WiFiNetworkScanner.tsx:85-98 | a 202 schedules one poll; any other outcome fails the scan with its status or message |
| WiFiScanner.Scanner.Poll | interface/src/wifi/WiFiNetworkScanner.tsx:46-78 | a 202 counts a poll and schedules another below ten; a 200 shows the sorted list; every other outcome fails the scan |
| WiFiScanner.Scanner.RequestNetworkScan | interface/src/wifi/WiFiNetworkScanner.tsx:103-107 | a new scan starts only when none is running |
| WiFiScanner.PollFailure | interface/src/wifi/WiFiNetworkScanner.tsx:46-78 | a 202 fails exactly from the tenth poll on. A 200 fails exactly when the body does not parse. Any other status fails with "Device returned unexpected response code: N", and a rejection with its message |
| WiFiScanner.AlwaysNotReady | interface/src/wifi/WiFiNetworkScanner.tsx:46-78 | a device that always answers 202 is polled exactly ten times, then the scan ends with the timeout message, notified once |
| WiFiScanner.ReadyAtFirstPoll | interface/src/wifi/WiFiNetworkScanner.tsx:46-67 | a list on the first poll is shown strongest first, complete, with nothing notified |
| WiFiScanner.ScanRefused | interface/src/wifi/WiFiNetworkScanner.tsx:85-98 | a scan answered with another status ends at once, naming the status, and schedules no poll |
| WiFiScanner.RequestWhileScanning | interface/src/wifi/WiFiNetworkScanner.tsx:103-107 | a request during a scan neither resets the poll counter nor schedules another poll |
| Sessions.StoredToken | interface/src/authentication/AuthenticationWrapper.tsx:27-28 | a token is present exactly when storage holds a non-empty value under the key |
| Sessions.VerifyError | interface/src/authentication/AuthenticationWrapper.tsx:29-37 | the caught message: a rejection's own message, or a 200 token that does not decode; a non-200 raises none |
| Sessions.RefreshedUser | interface/src/authentication/AuthenticationWrapper.tsx:22-41 | with security off the user is the built-in admin; without a token there is no user; a user with security on comes from a verified, decoded token |
| Sessions.AuthenticationWrapper.constructor | interface/src/authentication/AuthenticationWrapper.tsx:18-20 | no user and not initialised |
| Sessions.AuthenticationWrapper.CurrentView | interface/src/authentication/AuthenticationWrapper.tsx:68-73 | the children render exactly once initialised, with the current user |
| Sessions.AuthenticationWrapper.Refresh | interface/src/authentication/AuthenticationWrapper.tsx:22-44 | sets the refreshed user, notifies "Error verifying authorization: …" exactly when an error is caught, and initialises |
| Sessions.AuthenticationWrapper.SignIn | interface/src/authentication/AuthenticationWrapper.tsx:48-59 | stores the token first. A decodable token signs in with "Logged in as …"; otherwise there is no user, the wrapper initialises, and the call fails with "Failed to parse JWT …" |
| Sessions.AuthenticationWrapper.SignOut | interface/src/authentication/AuthenticationWrapper.tsx:61-66 | removes the token, clears the user, notifies, and goes to "/" |
| Sessions.SecurityOffIsAdmin | interface/src/authentication/AuthenticationWrapper.tsx:24-25 | with security off, refresh shows the admin whatever storage holds |
| Sessions.NoTokenNoUser | interface/src/authentication/AuthenticationWrapper.tsx:38-43 | the spinner shows first; with no token the refresh shows no user and notifies nothing |
| Sessions.SignInThenRefresh | interface/src/authentication/AuthenticationWrapper.tsx:22-59 | after signing in with a good token, a verified refresh keeps the user and the token stays stored |
| Sessions.BadTokenStaysStored | interface/src/authentication/AuthenticationWrapper.tsx:27-57 | an undecodable token stays stored after the failed sign-in, and the next verified refresh reports its decode error and shows no user |
| Sessions.SignOutTwice | interface/src/authentication/AuthenticationWrapper.tsx:61-66 | signing out twice leaves the same session as once |
| SignInPage.SignInForm.constructor | interface/src/SignIn.tsx:48 | not processing |
| SignInPage.SignInForm.OnSubmit | interface/src/SignIn.tsx:50-76 | a 200 stores the token in the session; a token that decodes becomes the user, announced as "Logged in as <username>"; one that does not leaves no user and initialises the session; nothing else touches the session and the location never changes; 401, other statuses, rejections and sign-in failures warn and end processing, and success leaves processing on |
| SignInPage.SubmitFailure | interface/src/SignIn.tsx:62-75 | 401 gives "Invalid credentials."; another status gives "Invalid status code: N"; a 200 fails only when the response or the token is bad |
| SignInPage.WrongCredentials | interface/src/SignIn.tsx:65-75 | a 401 warns, ends processing and leaves the session untouched |
| SignInPage.GoodCredentials | interface/src/SignIn.tsx:62-64 | a good token signs in and leaves the form processing |
| RouteGates.AuthenticatedGate | interface/src/authentication/AuthenticatedRoute.tsx:21-34 | a user sees the component within the context; anyone else is redirected to "/", with the location stored and "Please sign in to continue." notified |
| RouteGates.UnauthenticatedGate | interface/src/authentication/UnauthenticatedRoute.tsx:17-22 | a user is redirected to the login redirect; anyone else sees the component |
| RouteGates.ExactlyOneGateRenders | interface/src/authentication/AuthenticatedRoute.tsx:21-34 | for every session exactly one of the two gates renders its component, the authenticated one exactly when a user is present |
| RouteGates.GatesDependOnPresenceOnly | interface/src/authentication/UnauthenticatedRoute.tsx:17-22 | both gates depend only on whether a user is present |
| ManageUsers.CompareUsers | interface/src/security/ManageUsersForm.tsx:21-29 | -1, 0 or 1 |
| ManageUsers.CompareUsersOrder | interface/src/security/ManageUsersForm.tsx:21-29 | -1 and 1 exactly as string `<` orders the usernames, 0 exactly for equal usernames, antisymmetric |
| ManageUsers.SortedUsers | interface/src/security/ManageUsersForm.tsx:106 | the sorted users are a permutation, by non-decreasing username |
| ManageUsers.UniqueUsername | interface/src/security/ManageUsersForm.tsx:47-49 | true exactly when no user has the username |
| ManageUsers.NoAdminConfigured | interface/src/security/ManageUsersForm.tsx:51 | true exactly when no user is an admin |
| ManageUsers.Named | interface/src/security/ManageUsersForm.tsx:47-49 | the entries with a username; empty exactly when the username is unique |
| ManageUsers.WithoutUser | interface/src/security/ManageUsersForm.tsx:55 | the filter never grows the list |
| ManageUsers.NamedAppend | interface/src/security/ManageUsersForm.tsx:71-72 | the entries of a concatenation are the concatenated entries |
| ManageUsers.WithoutUserEntries | interface/src/security/ManageUsersForm.tsx:53-57 | removal drops every entry of the username and keeps every other username's entries in order |
| ManageUsers.ReplaceOrInsert | interface/src/security/ManageUsersForm.tsx:71-72 | the edited user ends the list |
| ManageUsers.ReplaceOrInsertEntries | interface/src/security/ManageUsersForm.tsx:68-76 | afterwards the edited username has exactly one entry, the edited user; other usernames keep theirs |
| ManageUsers.ManageUsersForm.constructor | interface/src/security/ManageUsersForm.tsx:35-36 | not creating, no user in the dialog |
| ManageUsers.ManageUsersForm.SaveDisabled | interface/src/security/ManageUsersForm.tsx:149 | Save is disabled exactly when no user is an admin |
| ManageUsers.ManageUsersForm.RenderTable | interface/src/security/ManageUsersForm.tsx:106 | the users are sorted in place and listed |
| ManageUsers.ManageUsersForm.CreateUser | interface/src/security/ManageUsersForm.tsx:38-45 | creating mode with an empty admin user |
| ManageUsers.ManageUsersForm.StartEditingUser | interface/src/security/ManageUsersForm.tsx:59-62 | editing mode on that user |
| ManageUsers.ManageUsersForm.CancelEditingUser | interface/src/security/ManageUsersForm.tsx:64-66 | the dialog closes, with the list untouched |
| ManageUsers.ManageUsersForm.RemoveUser | interface/src/security/ManageUsersForm.tsx:53-57 | the username's entries leave the list; the other settings stay |
| ManageUsers.ManageUsersForm.DoneEditingUser | interface/src/security/ManageUsersForm.tsx:68-76 | with a user in the dialog, it is replaced or inserted and the dialog closes; otherwise nothing changes |
| ManageUsers.ManageUsersForm.HandleUserValueChange | interface/src/security/ManageUsersForm.tsx:78-81 | the one text field takes the typed value |
| ManageUsers.ManageUsersForm.HandleUserCheckboxChange | interface/src/security/ManageUsersForm.tsx:83-86 | the admin flag takes the box's state |
| ManageUsers.ManageUsersForm.OnSubmit | interface/src/security/ManageUsersForm.tsx:88-91 | posts the current settings, then refreshes the session: the refreshed user, initialised, storage and location kept, and "Error verifying authorization: …" notified exactly when the stored token's verification fails |
| ManageUsers.AddNamedUser | interface/src/security/ManageUsersForm.tsx:38-81 | creating and naming a user leaves exactly one entry under that name, an admin, so Save is enabled |
| ManageUsers.DemoteOnlyAdmin | interface/src/security/ManageUsersForm.tsx:59-86 | unchecking the only admin disables Save |
| ManageUsers.CancelKeepsList | interface/src/security/ManageUsersForm.tsx:59-81 | cancelling leaves the list as it was, whatever was typed |
| ScheduleForm.MakeStationFormValues | interface/src/project/LightStateRestController.tsx:48-62 | one row per station with the numbers as text, or one blank row for no stations |
| ScheduleForm.MakeStation | interface/src/project/LightStateRestController.tsx:64-70 | makeStation keeps the row's name (its numbers are parseInt of the texts) |
| ScheduleForm.RowRoundTrip | interface/src/project/LightStateRestController.tsx:48-70 | a row whose pin and duration texts pass the read-back guard is exactly the row made again from its station |
| ScheduleForm.MakeStations | interface/src/project/LightStateRestController.tsx:64-70 | each row through parseInt, index by index |
| ScheduleForm.NumberTextRoundTrip | interface/src/project/LightStateRestController.tsx:48-70 | every number, NaN included, survives toString then parseInt |
| ScheduleForm.StationRowsRoundTrip | interface/src/project/LightStateRestController.tsx:48-70 | a non-empty station list turned into rows and back is unchanged |
| ScheduleForm.ReadsBackIff | interface/src/project/LightStateRestController.tsx:109-118 | the guard holds exactly for integer texts and for "NaN" |
| ScheduleForm.IsIntegerTextIff | interface/src/project/LightStateRestController.tsx:109-118 | the intended guard holds exactly for integer texts |
| ScheduleForm.StartTimeInvertsClock | interface/src/project/LightStateRestController.tsx:125-130 | picking the time the firmware derives from an offset below a day gives that offset back |
| ScheduleForm.ClockInvertsStartTime | interface/src/project/LightStateRestController.tsx:125-130 | a picked time's offset is below a day, and the firmware's clock shows that time again |
| ScheduleForm.ScheduleForm.constructor | interface/src/project/LightStateRestController.tsx:85 | the rows are made from the loaded stations |
| ScheduleForm.ScheduleForm.AddStation | interface/src/project/LightStateRestController.tsx:87-89 | one blank row is appended, and the data is untouched |
| ScheduleForm.ScheduleForm.DeleteStation | interface/src/project/LightStateRestController.tsx:91-93 | the row is dropped and the data is untouched |
| ScheduleForm.ScheduleForm.DeleteStationIntended | interface/src/project/LightStateRestController.tsx:91-93 | the row is dropped and the remaining rows are pushed to the data |
| ScheduleForm.ScheduleForm.RenameStation | interface/src/project/LightStateRestController.tsx:95-103 | the row takes the name, and the rows are pushed only for a non-empty name |
| ScheduleForm.ScheduleForm.SetStationDuration | interface/src/project/LightStateRestController.tsx:105-112 | the row takes the text, and the rows are pushed only when the text reads back |
| ScheduleForm.ScheduleForm.SetStationPin | interface/src/project/LightStateRestController.tsx:114-121 | the row takes the text, and the rows are pushed only when the text reads back |
| ScheduleForm.ScheduleForm.SetStationPinIntended | interface/src/project/LightStateRestController.tsx:114-121 | the rows are pushed only for integer text, so a pushed pin is a number |
| ScheduleForm.ScheduleForm.SetStartTime | interface/src/project/LightStateRestController.tsx:125-130 | a cleared picker changes nothing; otherwise the offset becomes hour·3600 + minute·60 + second |
| ScheduleForm.ScheduleForm.DeleteDisabled | interface/src/project/LightStateRestController.tsx:194 | delete is disabled exactly while there is one row |
| ScheduleForm.Without | interface/src/project/LightStateRestController.tsx:92 | the row at the index is removed; an index outside the list removes nothing |
| ScheduleForm.WithoutKeepsOthers | interface/src/project/LightStateRestController.tsx:92 | the other rows keep their order, shifted past the deleted one |
| ScheduleForm.NaNPinAccepted | interface/src/project/LightStateRestController.tsx:114-121 | as written, typing "NaN" pushes a NaN pin |
| ScheduleForm.NaNPinRejected | interface/src/project/LightStateRestController.tsx:114-121 | as intended, typing "NaN" leaves the data unchanged |
| ScheduleForm.DeleteThenSave | interface/src/project/LightStateRestController.tsx:91-93 | as written, deleting one of two stations still leaves both in the data that is saved |
| ScheduleForm.DeleteThenSaveIntended | interface/src/project/LightStateRestController.tsx:91-93 | as intended, only the remaining station is saved |
| ScheduleForm.RenameLoadedStation | interface/src/project/LightStateRestController.tsx:95-103 | renaming a loaded station pushes the loaded stations with only that name changed |
| UploadFirmware.Report | interface/src/system/UploadFirmwareController.tsx:25-41 | 200 activates the firmware, and another status reports its code. AbortError only warns. UploadError is "Error during upload", and other errors give their message or "Unknown error" |
| UploadFirmware.ReportClearsUnlessAborted | interface/src/system/UploadFirmwareController.tsx:29-40 | only an abort leaves the state and warns, and only a 200 succeeds |
| UploadFirmware.UploadController.constructor | interface/src/system/UploadFirmwareController.tsx:12-13 | no request and no progress |
| UploadFirmware.UploadController.Uploading | interface/src/system/UploadFirmwareController.tsx:54 | uploading exactly while a request is held |
| UploadFirmware.UploadController.UploadFile | interface/src/system/UploadFirmwareController.tsx:19-24 | ignored while a request is held; otherwise a new request is held |
| UploadFirmware.UploadController.ProgressReported | interface/src/system/UploadFirmwareController.tsx:25 | the progress callback sets the progress |
| UploadFirmware.UploadController.UploadSettled | interface/src/system/UploadFirmwareController.tsx:25-41 | the report is notified and, unless it was an abort, progress and request are cleared |
| UploadFirmware.UploadController.CancelUpload | interface/src/system/UploadFirmwareController.tsx:44-50 | while a request is held, it is aborted and progress and request are cleared; otherwise nothing happens |
| UploadFirmware.UploadController.Unmount | interface/src/system/UploadFirmwareController.tsx:15-17 | the held request, if any, is aborted |
| UploadFirmware.SecondFileIgnored | interface/src/system/UploadFirmwareController.tsx:19-22 | a second file during an upload creates no second request |
| UploadFirmware.SuccessfulUpload | interface/src/system/UploadFirmwareController.tsx:25-31 | progress shows during the upload, then activation is announced and everything is cleared |
| UploadFirmware.CancelThenAbortError | interface/src/system/UploadFirmwareController.tsx:32-50 | cancelling aborts and clears at once, and the abort then only warns |
| UploadFirmware.CancelWhenIdle | interface/src/system/UploadFirmwareController.tsx:44-50 | cancelling with nothing uploading does nothing |
| UploadFirmware.RejectedThenRetry | interface/src/system/UploadFirmwareController.tsx:19-41 | a rejected status ends the upload with the code in the message, and a new upload can start |

## Left out

- Hardware and I/O:
  - `pinMode`, `digitalWrite` and `Serial.printf` are not modelled. The driver records the level written to each pin; the log lines are dropped.
  - The web server, the web socket, file persistence (`FSPersistence`) and `onConfigUpdated`'s `pinMode` loop are not modelled.
  - The framework's handler dispatch and locking (`StatefulService::update`/`read` call their lambda at once, without a mutex) are not modelled.
- The clock:
  - `time`, `localtime` and `mktime` are parameters: the current UNIX time, the weekday, and the UNIX time of today's start.
  - Time-zone arithmetic is not modelled.
- Integer widths:
  - JSON integers are checked against the 32-bit `int` range of the toolchain.
  - The `unsigned int` fields are `nat`.
  - The wrap-around of time arithmetic beyond 32 bits is not modelled.
- Asynchrony:
  - Promises, timers (`setTimeout`) and React's batching of state updates are event methods, called in one order chosen by each scenario.
  - Interleavings in which a stale closure sees old state are not modelled.
- Notifications: each component keeps its own queue of snackbar notifications, not one shared queue.
- WiFiScanner: of a network, only `ssid` and `rssi` are modelled. wifi/types.ts is not part of this model, and the other fields are not read by the scanner.
- ManageUsers: the other security settings are kept as an uninterpreted JSON object.
- The form layouts, validators and styles are not modelled.
- Helpers passed in as parameters:
  - Authentication.ts is not part of this model. `decodeMeJWT` is a parameter of the session.
  - `authorizedFetch`, `redirectingAuthorizedFetch` and `redirectingAuthorizedUpload` are not modelled; their replies are `FetchOutcome` values passed to the event methods.
  - `storeLoginRedirect`/`fetchLoginRedirect` appear only as the stored location and a redirect parameter.
- LongValue: `long x = root[key]` is ArduinoJson's `as<long>()`, which also turns a bool into 1 or 0, truncates a float and parses a numeric string. The model gives 0 for all three, and its JSON values have no floating-point variant.
- StringLess: compares characters as Unicode code points, where JavaScript's `<` compares UTF-16 code units. The two orders differ only for strings with characters outside the Basic Multilingual Plane.
- Js.ParseInt: the numbers are not limited to 2^53. The value of a long digit string is exact, where JavaScript rounds it to a double.
- Js.IsWhiteSpace: only the ASCII, no-break, BOM and line-separator white space is recognised. The other Unicode space separators that `parseInt` skips are not.
- Js.SortWith: insertion sort, proved to be a permutation in comparator order. The stability of `Array.prototype.sort` is not proved.
- ScheduleForm.SetStartTime: takes the picked time as UTC hour, minute and second. The dayjs conversion from local time and the display at line 123 are not modelled.
- RestControllers.RestController.HandleValueChange: `valueAsNumber` is an integer. Fractional and NaN number inputs are not modelled.

## Findings

| source | as written | input that shows it | evidently intended | confidence | as-written member | corrected member |
|---|---|---|---|---|---|---|
| src/main.cpp:98-176 | The pin-test and rain-delay branches and the day-off idle write do not return, so the later steps overwrite the status in the same call. Every call ends in a run or idle, and the weekday never matters | a schedule with test pin 4, no stations and Monday on, at time 1000: the pin test is written, then replaced by idle | the first mode that applies decides the status | not executed; high (each mode is commented as its own mode) | FirmwareMain.UpdateStatusLosesPinTest | FirmwareMain.UpdateStatusIntended |
| src/main.cpp:15-27 | on going idle, the valve goes LOW but `lastActiveStationPin` keeps the old pin, so the same pin running again is never switched HIGH | pins 4, then -1, then 4 | going idle also sets the remembered pin to -1 | not executed; high | FirmwareMain.StatusChangeMissesRestart | FirmwareMain.IntendedStatusChangeRestarts |
| interface/src/project/LightStateRestController.tsx:109-118 | the guard `parseInt(x).toString() === x` also accepts "NaN", so a NaN pin or duration is pushed to the data | typing "NaN" into a pin box | only the text of an integer is pushed | not executed; high | ScheduleForm.NaNPinAccepted | ScheduleForm.NaNPinRejected |
| interface/src/components/RestController.tsx:64-72 | the awaited POST is outside the `try`, so a rejected request skips the catch and `setLoading(false)`; the form stays loading with nothing reported | a network failure during save | a rejection is reported as a failed update and ends loading | not executed; medium | RestControllers.SaveRejectedKeepsLoading | RestControllers.SaveRejectedIntended |
| interface/src/project/LightStateRestController.tsx:91-93 | deleting a row changes only the rows and never the form data, so Save still sends the deleted station | two stations; delete the second; save | the remaining rows are pushed to the data, as the edit handlers do | not executed; medium | ScheduleForm.DeleteThenSave | ScheduleForm.DeleteThenSaveIntended |

In the firmware, the intended members (`FirmwareMain.UpdateStatusIntended` and
`FirmwareMain.StationDriver.HandleStatusChangeIntended`) sit beside the as-written ones,
which model the code that runs. `FirmwareMain.IntendedAgreesWhenNoOverride` proves that
both cascades agree when no override mode is involved.
