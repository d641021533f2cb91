/**
 * The firmware's irrigation schedule (ScheduleService.h / ScheduleService.cpp):
 * the Station and Schedule records, their JSON serialisation (`read`) and the
 * change-detecting deserialisation (`update`) used by the REST endpoint and by
 * the file persistence, and the service's boot-time defaults.
 *
 * Station and Schedule are C++ value types (a std::vector<Station> holds copies,
 * the service holds its Schedule by value), so they are datatypes here, and an
 * `update(root, x&)` that writes through its reference parameter is a method
 * that takes the record and returns the record as it leaves it.
 */
module Schedules {
  import opened ArduinoJson
  import opened StateUpdate

  /** One irrigation station: the GPIO pin of its valve, a label, and how long it waters. */
  datatype Station = Station(pin: nat, name: string, durationSeconds: nat)

  /** The weekly schedule, with the test-pin, rain-delay and manual-run controls. */
  datatype Schedule = Schedule(
    monday: bool,
    tuesday: bool,
    wednesday: bool,
    thursday: bool,
    friday: bool,
    saturday: bool,
    sunday: bool,
    startOffsetFromMidnightSeconds: nat,
    stations: seq<Station>,
    disableUntil: int,     // UNIX time
    testStationPin: int,
    manualStartTime: int)  // UNIX time

  /** The value of a `Station()` added by `resize`: value-initialised, so all zero. */
  const DefaultStation := Station(0, "", 0)

  /** The state of a Schedule with static storage duration before anything is assigned. */
  const ZeroSchedule := Schedule(false, false, false, false, false, false, false, 0, [], 0, 0, 0)

  // ---------------------------------------------------------------- Station

  /** Station::read, into the freshly created nested object. */
  function ReadStation(station: Station): (r: JsonObject)
    ensures r.Keys == {"pin", "name", "durationSeconds"}
    ensures StringOr(r, "name", "") == station.name
    ensures station.pin <= INT_MAX ==> IntOr(r, "pin", -1) == station.pin
    ensures station.durationSeconds <= INT_MAX ==> IntOr(r, "durationSeconds", -1) == station.durationSeconds
  {
    map["pin" := JInt(station.pin), "name" := JString(station.name),
        "durationSeconds" := JInt(station.durationSeconds)]
  }

  /**
   * What Station::update does to `station` given `root`: a missing or negative
   * pin fails before anything is written; a missing or negative duration fails
   * after the pin and the name have been written; otherwise all three fields
   * are taken from `root`, and the verdict says whether that changed anything.
   */
  function StationUpdate(root: JsonObject, station: Station): (r: Updated<Station>)
    ensures r.result == Error <==> IntOr(root, "pin", -1) < 0 || IntOr(root, "durationSeconds", -1) < 0
    ensures r.result != Error ==> StationRepresentable(r.value)
    ensures r.result == Changed ==> r.value != station
    ensures r.result == Unchanged ==> r.value == station
  {
    var pin := IntOr(root, "pin", -1);
    var name := StringOr(root, "name", "");
    var duration := IntOr(root, "durationSeconds", -1);
    if pin < 0 then Updated(station, Error)
    else if duration < 0 then Updated(station.(pin := pin, name := name), Error)
    else Updated(Station(pin, name, duration), Verdict(Station(pin, name, duration) != station))
  }

  /** Station::update, statement by statement. */
  method UpdateStation(root: JsonObject, station: Station) returns (station': Station, result: StateUpdateResult)
    ensures Updated(station', result) == StationUpdate(root, station)
  {
    result := Unchanged;
    station' := station;

    var pin := IntOr(root, "pin", -1);
    if pin < 0 {
      return station', Error;
    }
    if station'.pin != pin {
      station' := station'.(pin := pin);
      result := Changed;
    }

    var name := StringOr(root, "name", "");
    if station'.name != name {
      station' := station'.(name := name);
      result := Changed;
    }

    var durationSeconds := IntOr(root, "durationSeconds", -1);
    if durationSeconds < 0 {
      return station', Error;
    }
    if station'.durationSeconds != durationSeconds {
      station' := station'.(durationSeconds := durationSeconds);
      result := Changed;
    }
  }

  /** A station whose numbers survive the trip through a JSON `int`. */
  predicate StationRepresentable(station: Station)
  {
    station.pin <= INT_MAX && station.durationSeconds <= INT_MAX
  }

  /** Reading a station and updating any target with the result reproduces the station. */
  lemma StationRoundTrip(station: Station, target: Station)
    requires StationRepresentable(station)
    ensures StationUpdate(ReadStation(station), target) == Updated(station, Verdict(target != station))
  {
    var root := ReadStation(station);
    assert IntOr(root, "pin", -1) == station.pin;
    assert StringOr(root, "name", "") == station.name;
    assert IntOr(root, "durationSeconds", -1) == station.durationSeconds;
  }

  /** A missing or negative pin is rejected with the station untouched. */
  lemma StationPinRejected(root: JsonObject, station: Station)
    requires IntOr(root, "pin", -1) < 0
    ensures StationUpdate(root, station) == Updated(station, Error)
  {
  }

  /** A missing or negative duration is rejected, but only after pin and name were written. */
  lemma StationDurationRejectedLate(root: JsonObject, station: Station)
    requires IntOr(root, "pin", -1) >= 0 && IntOr(root, "durationSeconds", -1) < 0
    ensures StationUpdate(root, station).result == Error
    ensures StationUpdate(root, station).value
         == Station(IntOr(root, "pin", -1), StringOr(root, "name", ""), station.durationSeconds)
  {
  }

  // ---------------------------------------------------------------- Schedule

  /** The twelve keys Schedule::read writes. */
  const ScheduleKeys := {"monday", "tuesday", "wednesday", "thursday", "friday", "saturday", "sunday",
                         "startOffsetFromMidnightSeconds", "stations", "disableUntil", "testStationPin", "manualStartTime"}

  /** Schedule::read into `root`: every field of the schedule under its JSON key. */
  function ReadSchedule(schedule: Schedule, root: JsonObject): (r: JsonObject)
    ensures root.Keys <= r.Keys
    ensures ScheduleKeys <= r.Keys
  {
    root["monday" := JBool(schedule.monday)]
        ["tuesday" := JBool(schedule.tuesday)]
        ["wednesday" := JBool(schedule.wednesday)]
        ["thursday" := JBool(schedule.thursday)]
        ["friday" := JBool(schedule.friday)]
        ["saturday" := JBool(schedule.saturday)]
        ["sunday" := JBool(schedule.sunday)]
        ["startOffsetFromMidnightSeconds" := JInt(schedule.startOffsetFromMidnightSeconds)]
        ["stations" := JArray(StationsJson(schedule.stations))]
        ["disableUntil" := JInt(schedule.disableUntil)]
        ["testStationPin" := JInt(schedule.testStationPin)]
        ["manualStartTime" := JInt(schedule.manualStartTime)]
  }

  /** The `stations` array that Schedule::read builds, one nested object per station. */
  function StationsJson(stations: seq<Station>): (items: seq<Json>)
    ensures |items| == |stations|
    ensures forall i | 0 <= i < |stations| :: items[i] == JObject(ReadStation(stations[i]))
  {
    seq(|stations|, i requires 0 <= i < |stations| => JObject(ReadStation(stations[i])))
  }

  /** std::vector::resize(n, Station()): keeps the first `n` stations and pads with default ones. */
  function Resized(stations: seq<Station>, n: nat): (r: seq<Station>)
    ensures |r| == n
    ensures forall i | 0 <= i < n :: r[i] == if i < |stations| then stations[i] else DefaultStation
  {
    if n <= |stations| then stations[..n] else stations + seq(n - |stations|, _ => DefaultStation)
  }

  /** The seven day flags written from `root`, each defaulting to false. */
  function WithDays(root: JsonObject, schedule: Schedule): Schedule
  {
    schedule.(monday := BoolOr(root, "monday", false),
              tuesday := BoolOr(root, "tuesday", false),
              wednesday := BoolOr(root, "wednesday", false),
              thursday := BoolOr(root, "thursday", false),
              friday := BoolOr(root, "friday", false),
              saturday := BoolOr(root, "saturday", false),
              sunday := BoolOr(root, "sunday", false))
  }

  /** Station::update applied to each element of the JSON array and the station at the same index. */
  function StationUpdates(items: seq<Json>, current: seq<Station>): (us: seq<Updated<Station>>)
    requires |items| == |current|
    ensures |us| == |items|
    ensures forall i | 0 <= i < |items| :: us[i] == StationUpdate(ObjectOf(items[i]), current[i])
  {
    seq(|items|, i requires 0 <= i < |items| => StationUpdate(ObjectOf(items[i]), current[i]))
  }

  /** The stations that the per-station updates leave behind. */
  function UpdatedStations(us: seq<Updated<Station>>): (r: seq<Station>)
    ensures |r| == |us|
    ensures forall i | 0 <= i < |us| :: r[i] == us[i].value
  {
    seq(|us|, i requires 0 <= i < |us| => us[i].value)
  }

  /** Whether some per-station update reported CHANGED. */
  predicate AnyChanged(us: seq<Updated<Station>>)
  {
    exists i | 0 <= i < |us| :: us[i].result == Changed
  }

  /**
   * What Schedule::update does. The day flags are always written. A missing
   * or negative start offset then fails. Otherwise the station list takes the
   * length of the JSON array and each station is updated from its element, and
   * the last three fields are written. CHANGED is reported when a non-station
   * field changed, when the number of stations changed, or when a station's
   * own update said CHANGED; a station's ERROR is not passed on.
   */
  function ScheduleUpdate(root: JsonObject, schedule: Schedule): (r: Updated<Schedule>)
    ensures r.result == Error <==> IntOr(root, "startOffsetFromMidnightSeconds", -1) < 0
    ensures r.result != Error ==> |r.value.stations| == |ArrayItems(root, "stations")|
    ensures r.result == Unchanged ==> r.value.(stations := schedule.stations) == schedule
  {
    var days := WithDays(root, schedule);
    var offset := IntOr(root, "startOffsetFromMidnightSeconds", -1);
    if offset < 0 then Updated(days, Error)
    else
      var items := ArrayItems(root, "stations");
      var us := StationUpdates(items, Resized(schedule.stations, |items|));
      var schedule' := days.(startOffsetFromMidnightSeconds := offset,
                             stations := UpdatedStations(us),
                             disableUntil := LongValue(root, "disableUntil"),
                             testStationPin := IntOr(root, "testStationPin", -1),
                             manualStartTime := IntOr(root, "manualStartTime", -1));
      Updated(schedule', Verdict(schedule'.(stations := schedule.stations) != schedule
                                 || |items| != |schedule.stations|
                                 || AnyChanged(us)))
  }

  /**
   * Lines of Schedule::update that resize the station list to the JSON array
   * and update each station from its element, threading `result`: only a
   * station's CHANGED is passed on.
   */
  method UpdateStationList(items: seq<Json>, stations: seq<Station>, result: StateUpdateResult)
    returns (stations': seq<Station>, result': StateUpdateResult)
    ensures stations' == UpdatedStations(StationUpdates(items, Resized(stations, |items|)))
    ensures result'.Changed? ==
            (result.Changed? || |items| != |stations| || AnyChanged(StationUpdates(items, Resized(stations, |items|))))
    ensures !result'.Changed? ==> result' == result
  {
    result' := result;
    stations' := stations;
    var newStationCount := |items|;
    if newStationCount != |stations'| {
      stations' := Resized(stations', newStationCount);
      result' := Changed;
    }
    ghost var resized := Resized(stations, newStationCount);
    assert stations' == resized;
    ghost var us := StationUpdates(items, resized);
    ghost var before := result';

    var i := 0;
    while i < newStationCount
      invariant 0 <= i <= newStationCount
      invariant |stations'| == newStationCount
      invariant forall j | 0 <= j < i :: stations'[j] == us[j].value
      invariant forall j | i <= j < newStationCount :: stations'[j] == resized[j]
      invariant result'.Changed? == (before.Changed? || exists j | 0 <= j < i :: us[j].result == Changed)
      invariant !result'.Changed? ==> result' == before
    {
      var station, stationUpdateResult := UpdateStation(ObjectOf(items[i]), stations'[i]);
      stations' := stations'[i := station];
      if stationUpdateResult == Changed {
        result' := Changed;
      }
      i := i + 1;
    }
    assert stations' == UpdatedStations(us);
  }

  /** The lines of Schedule::update that read the seven day flags, each defaulting to false, and write them. */
  method UpdateDayFlags(root: JsonObject, schedule: Schedule) returns (days: Schedule, result: StateUpdateResult)
    ensures days == WithDays(root, schedule)
    ensures result == Verdict(days != schedule)
  {
    days, result := AssignDayFlags(schedule,
      BoolOr(root, "monday", false), BoolOr(root, "tuesday", false), BoolOr(root, "wednesday", false),
      BoolOr(root, "thursday", false), BoolOr(root, "friday", false), BoolOr(root, "saturday", false),
      BoolOr(root, "sunday", false));
  }

  /** The seven change-detecting assignments of the day flags at the head of Schedule::update. */
  method AssignDayFlags(schedule: Schedule, monday: bool, tuesday: bool, wednesday: bool, thursday: bool,
                        friday: bool, saturday: bool, sunday: bool)
    returns (days: Schedule, result: StateUpdateResult)
    ensures days == schedule.(monday := monday, tuesday := tuesday, wednesday := wednesday, thursday := thursday,
                              friday := friday, saturday := saturday, sunday := sunday)
    ensures result == Verdict(days != schedule)
  {
    result := Unchanged;
    var monday', tuesday', wednesday', thursday', friday', saturday', sunday';
    monday', result := UpdateStateValue(schedule.monday, monday, result);
    tuesday', result := UpdateStateValue(schedule.tuesday, tuesday, result);
    wednesday', result := UpdateStateValue(schedule.wednesday, wednesday, result);
    thursday', result := UpdateStateValue(schedule.thursday, thursday, result);
    friday', result := UpdateStateValue(schedule.friday, friday, result);
    saturday', result := UpdateStateValue(schedule.saturday, saturday, result);
    sunday', result := UpdateStateValue(schedule.sunday, sunday, result);
    days := schedule.(monday := monday', tuesday := tuesday', wednesday := wednesday', thursday := thursday',
                      friday := friday', saturday := saturday', sunday := sunday');
  }

  /**
   * Schedule::update, statement by statement. Each `if (x != v) { x = v;
   * result = CHANGED; }` block is the step that main.cpp names
   * updateStateValue; the fields are kept in locals and the record is built
   * where the function returns.
   */
  method UpdateSchedule(root: JsonObject, schedule: Schedule) returns (schedule': Schedule, result: StateUpdateResult)
    ensures Updated(schedule', result) == ScheduleUpdate(root, schedule)
  {
    var days;
    days, result := UpdateDayFlags(root, schedule);

    var startOffsetFromMidnightSeconds := IntOr(root, "startOffsetFromMidnightSeconds", -1);
    if startOffsetFromMidnightSeconds < 0 {
      return days, Error;
    }
    var offset;
    offset, result := UpdateStateValue(schedule.startOffsetFromMidnightSeconds, startOffsetFromMidnightSeconds as nat, result);

    var stations;
    stations, result := UpdateStationList(ArrayItems(root, "stations"), schedule.stations, result);

    var disableUntil, testStationPin, manualStartTime;
    disableUntil, result := UpdateStateValue(schedule.disableUntil, LongValue(root, "disableUntil"), result);
    testStationPin, result := UpdateStateValue(schedule.testStationPin, IntOr(root, "testStationPin", -1), result);
    manualStartTime, result := UpdateStateValue(schedule.manualStartTime, IntOr(root, "manualStartTime", -1), result);

    schedule' := days.(startOffsetFromMidnightSeconds := offset, stations := stations, disableUntil := disableUntil,
                       testStationPin := testStationPin, manualStartTime := manualStartTime);
    DiffersFieldwise(schedule'.(stations := schedule.stations), schedule);
  }

  /** Two schedules differ exactly when one of their fields does. */
  lemma DiffersFieldwise(a: Schedule, b: Schedule)
    ensures a != b <==>
      || a.monday != b.monday || a.tuesday != b.tuesday || a.wednesday != b.wednesday
      || a.thursday != b.thursday || a.friday != b.friday || a.saturday != b.saturday
      || a.sunday != b.sunday || a.startOffsetFromMidnightSeconds != b.startOffsetFromMidnightSeconds
      || a.stations != b.stations || a.disableUntil != b.disableUntil
      || a.testStationPin != b.testStationPin || a.manualStartTime != b.manualStartTime
  {
  }

  /** A schedule whose numbers all survive the trip through JSON `int`/`long` values. */
  predicate Representable(schedule: Schedule)
  {
    && schedule.startOffsetFromMidnightSeconds <= INT_MAX
    && (forall i | 0 <= i < |schedule.stations| :: StationRepresentable(schedule.stations[i]))
    && IsInt(schedule.disableUntil)
    && IsInt(schedule.testStationPin)
    && IsInt(schedule.manualStartTime)
  }

  /** The per-station half of the round trip: updating `current` from the serialised `stations`. */
  lemma {:induction false} StationsRoundTrip(stations: seq<Station>, current: seq<Station>)
    requires |stations| == |current|
    requires forall i | 0 <= i < |stations| :: StationRepresentable(stations[i])
    ensures UpdatedStations(StationUpdates(StationsJson(stations), current)) == stations
    ensures AnyChanged(StationUpdates(StationsJson(stations), current)) <==> current != stations
  {
    var us := StationUpdates(StationsJson(stations), current);
    forall i | 0 <= i < |stations|
      ensures us[i] == Updated(stations[i], Verdict(current[i] != stations[i]))
    {
      assert ObjectOf(StationsJson(stations)[i]) == ReadStation(stations[i]);
      StationRoundTrip(stations[i], current[i]);
    }
    if current != stations {
      var i :| 0 <= i < |stations| && current[i] != stations[i];
      assert us[i].result == Changed;
    }
  }

  /** The first three day flags can be read back from the serialisation. */
  lemma ReadScheduleEarlyDays(schedule: Schedule, root: JsonObject)
    ensures var json := ReadSchedule(schedule, root);
      && BoolOr(json, "monday", false) == schedule.monday
      && BoolOr(json, "tuesday", false) == schedule.tuesday
      && BoolOr(json, "wednesday", false) == schedule.wednesday
  {
  }

  /** The last four day flags can be read back from the serialisation. */
  lemma ReadScheduleLateDays(schedule: Schedule, root: JsonObject)
    ensures var json := ReadSchedule(schedule, root);
      && BoolOr(json, "thursday", false) == schedule.thursday
      && BoolOr(json, "friday", false) == schedule.friday
      && BoolOr(json, "saturday", false) == schedule.saturday
      && BoolOr(json, "sunday", false) == schedule.sunday
  {
  }

  /** The numbers and the station array can be read back from the serialisation when they fit in an `int`. */
  lemma ReadScheduleNumbers(schedule: Schedule, root: JsonObject)
    requires Representable(schedule)
    ensures var json := ReadSchedule(schedule, root);
      && IntOr(json, "startOffsetFromMidnightSeconds", -1) == schedule.startOffsetFromMidnightSeconds
      && ArrayItems(json, "stations") == StationsJson(schedule.stations)
      && LongValue(json, "disableUntil") == schedule.disableUntil
      && IntOr(json, "testStationPin", -1) == schedule.testStationPin
      && IntOr(json, "manualStartTime", -1) == schedule.manualStartTime
  {
  }

  /** How Schedule::update treats any JSON object that holds exactly the fields of `schedule`. */
  lemma ScheduleUpdateFromFields(json: JsonObject, schedule: Schedule, target: Schedule)
    requires Representable(schedule)
    requires WithDays(json, target) == target.(monday := schedule.monday, tuesday := schedule.tuesday,
               wednesday := schedule.wednesday, thursday := schedule.thursday, friday := schedule.friday,
               saturday := schedule.saturday, sunday := schedule.sunday)
    requires IntOr(json, "startOffsetFromMidnightSeconds", -1) == schedule.startOffsetFromMidnightSeconds
    requires ArrayItems(json, "stations") == StationsJson(schedule.stations)
    requires LongValue(json, "disableUntil") == schedule.disableUntil
    requires IntOr(json, "testStationPin", -1) == schedule.testStationPin
    requires IntOr(json, "manualStartTime", -1) == schedule.manualStartTime
    ensures ScheduleUpdate(json, target) == Updated(schedule, Verdict(target != schedule))
  {
    var items := ArrayItems(json, "stations");
    var resized := Resized(target.stations, |items|);
    StationsRoundTrip(schedule.stations, resized);
    var result := ScheduleUpdate(json, target);
    assert result.value == schedule;
    if |target.stations| == |schedule.stations| {
      assert resized == target.stations;
    }
    DiffersFieldwise(target, schedule);
    DiffersFieldwise(result.value.(stations := target.stations), target);
  }

  /**
   * Updating any schedule `target` from the JSON that Schedule::read made of
   * `schedule` turns it into `schedule` and reports CHANGED exactly when the
   * two differed, whatever else `root` already held.
   */
  lemma ScheduleRoundTrip(schedule: Schedule, target: Schedule, root: JsonObject)
    requires Representable(schedule)
    ensures ScheduleUpdate(ReadSchedule(schedule, root), target) == Updated(schedule, Verdict(target != schedule))
  {
    ReadScheduleEarlyDays(schedule, root);
    ReadScheduleLateDays(schedule, root);
    ReadScheduleNumbers(schedule, root);
    ScheduleUpdateFromFields(ReadSchedule(schedule, root), schedule, target);
  }

  /** In particular, updating a schedule from its own serialisation changes nothing. */
  lemma ScheduleReadUpdateUnchanged(schedule: Schedule, root: JsonObject)
    requires Representable(schedule)
    ensures ScheduleUpdate(ReadSchedule(schedule, root), schedule) == Updated(schedule, Unchanged)
  {
    ScheduleRoundTrip(schedule, schedule, root);
  }

  /** A missing or negative start offset fails, with the seven day flags already written and nothing else. */
  lemma ScheduleOffsetRejectedAfterDays(root: JsonObject, schedule: Schedule)
    requires IntOr(root, "startOffsetFromMidnightSeconds", -1) < 0
    ensures ScheduleUpdate(root, schedule).result == Error
    ensures ScheduleUpdate(root, schedule).value == WithDays(root, schedule)
    ensures ScheduleUpdate(root, schedule).value.stations == schedule.stations
  {
  }

  /**
   * With a valid start offset the update never fails, whatever the stations
   * hold: a station's ERROR is dropped. The station list ends up as long as
   * the JSON array, and a change of length alone is reported as CHANGED.
   */
  lemma ScheduleStationErrorsIgnored(root: JsonObject, schedule: Schedule)
    requires IntOr(root, "startOffsetFromMidnightSeconds", -1) >= 0
    ensures ScheduleUpdate(root, schedule).result != Error
    ensures |ScheduleUpdate(root, schedule).value.stations| == |ArrayItems(root, "stations")|
    ensures |ArrayItems(root, "stations")| != |schedule.stations| ==> ScheduleUpdate(root, schedule).result == Changed
  {
  }

  /** Each absent day flag defaults to false, whatever else the object holds. */
  lemma ScheduleDayDefaults(root: JsonObject, schedule: Schedule)
    ensures "monday" !in root ==> !ScheduleUpdate(root, schedule).value.monday
    ensures "tuesday" !in root ==> !ScheduleUpdate(root, schedule).value.tuesday
    ensures "wednesday" !in root ==> !ScheduleUpdate(root, schedule).value.wednesday
    ensures "thursday" !in root ==> !ScheduleUpdate(root, schedule).value.thursday
    ensures "friday" !in root ==> !ScheduleUpdate(root, schedule).value.friday
    ensures "saturday" !in root ==> !ScheduleUpdate(root, schedule).value.saturday
    ensures "sunday" !in root ==> !ScheduleUpdate(root, schedule).value.sunday
  {
    var days := WithDays(root, schedule);
    var r := ScheduleUpdate(root, schedule).value;
    assert r.monday == days.monday && r.tuesday == days.tuesday && r.wednesday == days.wednesday;
    assert r.thursday == days.thursday && r.friday == days.friday;
    assert r.saturday == days.saturday && r.sunday == days.sunday;
  }

  /**
   * A missing start offset fails; once the offset is accepted, each other
   * absent key takes its default whatever else the object holds: no stations,
   * 0 for the rain delay, -1 for the test pin and the manual start.
   */
  lemma ScheduleDefaults(root: JsonObject, schedule: Schedule)
    ensures "startOffsetFromMidnightSeconds" !in root ==> ScheduleUpdate(root, schedule).result == Error
    ensures IntOr(root, "startOffsetFromMidnightSeconds", -1) >= 0 ==>
      && ("stations" !in root ==> ScheduleUpdate(root, schedule).value.stations == [])
      && ("disableUntil" !in root ==> ScheduleUpdate(root, schedule).value.disableUntil == 0)
      && ("testStationPin" !in root ==> ScheduleUpdate(root, schedule).value.testStationPin == -1)
      && ("manualStartTime" !in root ==> ScheduleUpdate(root, schedule).value.manualStartTime == -1)
  {
  }

  /** CHANGED is only reported when the schedule really changed. */
  lemma ScheduleChangedMeansDifferent(root: JsonObject, schedule: Schedule)
    ensures ScheduleUpdate(root, schedule).result == Changed ==> ScheduleUpdate(root, schedule).value != schedule
  {
    var r := ScheduleUpdate(root, schedule);
    if r.result == Changed && IntOr(root, "startOffsetFromMidnightSeconds", -1) >= 0 {
      DiffersFieldwise(r.value.(stations := schedule.stations), schedule);
    }
  }

  /** Conversely, UNCHANGED means nothing changed, unless some station's own update failed part-way. */
  lemma ScheduleUnchangedMeansEqual(root: JsonObject, schedule: Schedule)
    requires ScheduleUpdate(root, schedule).result == Unchanged
    requires var items := ArrayItems(root, "stations");
             forall i | 0 <= i < |items| :: StationUpdate(ObjectOf(items[i]), Resized(schedule.stations, |items|)[i]).result != Error
    ensures ScheduleUpdate(root, schedule).value == schedule
  {
    var r := ScheduleUpdate(root, schedule);
    var items := ArrayItems(root, "stations");
    var us := StationUpdates(items, Resized(schedule.stations, |items|));
    assert |items| == |schedule.stations|;
    forall i | 0 <= i < |items|
      ensures r.value.stations[i] == schedule.stations[i]
    {
      assert us[i].result == Unchanged;
    }
    DiffersFieldwise(r.value, schedule);
  }

  /**
   * A station whose JSON has a new pin but neither name nor duration is
   * rewritten (pin and name), yet its ERROR is dropped and Schedule::update
   * reports UNCHANGED.
   */
  lemma ScheduleStationErrorHidesChange()
    ensures var schedule := ZeroSchedule.(stations := [Station(4, "lawn", 60)], testStationPin := -1, manualStartTime := -1);
            var root := map["startOffsetFromMidnightSeconds" := JInt(0),
                            "stations" := JArray([JObject(map["pin" := JInt(5)])])];
            ScheduleUpdate(root, schedule) == Updated(schedule.(stations := [Station(5, "", 60)]), Unchanged)
  {
    var schedule := ZeroSchedule.(stations := [Station(4, "lawn", 60)], testStationPin := -1, manualStartTime := -1);
    var root := map["startOffsetFromMidnightSeconds" := JInt(0),
                    "stations" := JArray([JObject(map["pin" := JInt(5)])])];
    var items := ArrayItems(root, "stations");
    assert items == [JObject(map["pin" := JInt(5)])];
    var us := StationUpdates(items, Resized(schedule.stations, |items|));
    assert us[0] == StationUpdate(map["pin" := JInt(5)], Station(4, "lawn", 60));
    assert us[0] == Updated(Station(5, "", 60), Error);
    assert !AnyChanged(us);
    assert WithDays(root, schedule) == schedule;
    assert LongValue(root, "disableUntil") == 0;
    assert IntOr(root, "testStationPin", -1) == -1;
    assert IntOr(root, "manualStartTime", -1) == -1;
    assert UpdatedStations(us) == [Station(5, "", 60)];
  }

  /** The schedule service: the StatefulService<Schedule> state that the endpoint and persistence update. */
  class ScheduleService {
    var state: Schedule

    /** The global service object before begin(): its state is zero-initialised. */
    constructor ()
      ensures state == ZeroSchedule
    {
      state := ZeroSchedule;
    }

    /** ScheduleService::begin: resets the weekdays, offset, rain delay, stations and test pin. */
    method Begin()
      modifies this
      ensures state == old(state).(disableUntil := 0, startOffsetFromMidnightSeconds := 0,
                                   monday := false, tuesday := false, wednesday := false, thursday := false,
                                   friday := false, stations := [], testStationPin := -1)
    {
      state := state.(disableUntil := 0);
      state := state.(startOffsetFromMidnightSeconds := 0);
      state := state.(monday := false);
      state := state.(tuesday := false);
      state := state.(wednesday := false);
      state := state.(thursday := false);
      state := state.(friday := false);
      state := state.(stations := []);
      state := state.(testStationPin := -1);
    }
  }
}
