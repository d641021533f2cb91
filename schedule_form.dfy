/**
 * The schedule editor (project/LightStateRestController.tsx): station rows
 * edited as text, converted to stations with parseInt and pushed to the
 * form's data only when the edited text reads back unchanged, and the start
 * time picked on a clock.
 */
module ScheduleForm {
  import opened Wrappers
  import opened Js
  import FirmwareMain

  /** A station as the console holds it; pin and duration come from parseInt and may be NaN. */
  datatype ClientStation = ClientStation(pin: JsNumber, name: string, durationSeconds: JsNumber)

  /** The schedule as the console holds it (project/types/Schedule.ts). */
  datatype ClientSchedule = ClientSchedule(
    monday: bool, tuesday: bool, wednesday: bool, thursday: bool, friday: bool, saturday: bool, sunday: bool,
    startOffsetFromMidnightSeconds: int,
    stations: seq<ClientStation>,
    disableUntil: int,
    testStationPin: int,
    manualStartTime: int)

  /** One editable row: every field as the text in its box. */
  datatype StationFormValue = StationFormValue(name: string, pin: string, durationSeconds: string)

  const BlankRow := StationFormValue("", "", "")

  /** makeStationFormValues: one row per station with the numbers as text, or a single blank row for no stations. */
  function MakeStationFormValues(stations: seq<ClientStation>): (rows: seq<StationFormValue>)
    ensures |stations| == 0 ==> rows == [BlankRow]
    ensures |stations| > 0 ==> |rows| == |stations|
    ensures forall i | 0 <= i < |stations| ::
      rows[i] == StationFormValue(stations[i].name, NumberToString(stations[i].pin), NumberToString(stations[i].durationSeconds))
  {
    if |stations| == 0 then [BlankRow]
    else
      seq(|stations|, i requires 0 <= i < |stations| =>
        StationFormValue(stations[i].name, NumberToString(stations[i].pin), NumberToString(stations[i].durationSeconds)))
  }

  /** makeStation: parseInt of both numbers, the name as it is. */
  function MakeStation(row: StationFormValue): (station: ClientStation)
    ensures station.name == row.name
  {
    ClientStation(ParseInt(row.pin), row.name, ParseInt(row.durationSeconds))
  }

  /** A row whose two number texts pass the read-back guard is exactly the row made from its station. */
  lemma RowRoundTrip(row: StationFormValue)
    requires ReadsBack(row.pin) && ReadsBack(row.durationSeconds)
    ensures MakeStationFormValues([MakeStation(row)]) == [row]
  {
  }

  /** `rows.map(makeStation)`. */
  function MakeStations(rows: seq<StationFormValue>): (stations: seq<ClientStation>)
    ensures |stations| == |rows|
    ensures forall i | 0 <= i < |rows| :: stations[i] == MakeStation(rows[i])
  {
    seq(|rows|, i requires 0 <= i < |rows| => MakeStation(rows[i]))
  }

  /** Every number's text parses back to it, NaN included. */
  lemma NumberTextRoundTrip(x: JsNumber)
    ensures ParseInt(NumberToString(x)) == x
  {
    match x
    case NaN => ParseIntNaN();
    case Num(n) => ParseIntNumberToString(n);
  }

  /** The rows made from a non-empty station list turn back into exactly that list. */
  lemma StationRowsRoundTrip(stations: seq<ClientStation>)
    requires |stations| > 0
    ensures MakeStations(MakeStationFormValues(stations)) == stations
  {
    var back := MakeStations(MakeStationFormValues(stations));
    forall i | 0 <= i < |stations| ensures back[i] == stations[i] {
      NumberTextRoundTrip(stations[i].pin);
      NumberTextRoundTrip(stations[i].durationSeconds);
    }
  }

  /** The guard `parseInt(x).toString() === x`. */
  predicate ReadsBack(x: string)
  {
    NumberToString(ParseInt(x)) == x
  }

  /** The guard holds exactly for the texts toString writes for an integer, and for "NaN". */
  lemma ReadsBackIff(x: string)
    ensures ReadsBack(x) <==> x == "NaN" || exists n: int :: x == NumberToString(Num(n))
  {
    if ReadsBack(x) && ParseInt(x).Num? {
      assert x == NumberToString(Num(ParseInt(x).n));
    }
    if exists n: int :: x == NumberToString(Num(n)) {
      var n: int :| x == NumberToString(Num(n));
      ParseIntNumberToString(n);
    }
    if x == "NaN" {
      ParseIntNaN();
    }
  }

  /** The guard as evidently intended: the text of an integer, never "NaN". */
  predicate IsIntegerText(x: string)
  {
    ParseInt(x).Num? && NumberToString(ParseInt(x)) == x
  }

  /** The intended guard holds exactly for texts that toString writes for an integer. */
  lemma IsIntegerTextIff(x: string)
    ensures IsIntegerText(x) <==> exists n: int :: x == NumberToString(Num(n))
  {
    if IsIntegerText(x) {
      assert x == NumberToString(Num(ParseInt(x).n));
    }
    if exists n: int :: x == NumberToString(Num(n)) {
      var n: int :| x == NumberToString(Num(n));
      ParseIntNumberToString(n);
    }
  }

  /** The seconds past midnight of the picked (UTC) time. */
  function StartTimeOffset(hour: nat, minute: nat, second: nat): (offset: nat)
  {
    hour * 3600 + minute * 60 + second
  }

  /** Picking the time the firmware's clock shows for an offset below a day gives that offset back. */
  lemma StartTimeInvertsClock(offset: nat)
    requires offset < 86400
    ensures var hms := FirmwareMain.StartClock(offset);
      hms.0 < 24 && StartTimeOffset(hms.0, hms.1, hms.2) == offset
  {
  }

  /** The firmware's clock of a picked time shows that time, and the offset is below a day. */
  lemma ClockInvertsStartTime(hour: nat, minute: nat, second: nat)
    requires hour < 24 && minute < 60 && second < 60
    ensures StartTimeOffset(hour, minute, second) < 86400
    ensures FirmwareMain.StartClock(StartTimeOffset(hour, minute, second)) == (hour, minute, second)
  {
    var offset := StartTimeOffset(hour, minute, second);
    var rest := minute * 60 + second;
    assert rest < 3600;
    assert offset == hour * 3600 + rest;
    assert offset / 3600 == hour;
    assert offset % 3600 == rest;
    assert rest / 60 == minute;
    assert offset % 60 == second;
  }

  class ScheduleForm {
    /** props.data */
    var data: ClientSchedule
    /** The `stations` state: the rows being edited. */
    var stations: seq<StationFormValue>

    /** Mounting the form: the rows are made once from the loaded stations. */
    constructor (data: ClientSchedule)
      ensures this.data == data && stations == MakeStationFormValues(data.stations)
    {
      this.data := data;
      stations := MakeStationFormValues(data.stations);
    }

    /** addStation: one blank row at the end; the data is not touched. */
    method AddStation()
      modifies this
      ensures stations == old(stations) + [BlankRow] && data == old(data)
    {
      stations := stations + [BlankRow];
    }

    /** deleteStation(i): row i is dropped and the rest keep their order; the data is not touched. */
    method DeleteStation(stationIndex: int)
      modifies this
      ensures stations == Without(old(stations), stationIndex) && data == old(data)
    {
      stations := Without(stations, stationIndex);
    }

    /** deleteStation as evidently intended: the remaining rows are also pushed to the data. */
    method DeleteStationIntended(stationIndex: int)
      modifies this
      ensures stations == Without(old(stations), stationIndex)
      ensures data == old(data).(stations := MakeStations(stations))
    {
      stations := Without(stations, stationIndex);
      data := data.(stations := MakeStations(stations));
    }

    /** renameStation(i, name): the row takes the name; the rows are pushed only when the name is not empty. */
    method RenameStation(stationIndex: nat, newName: string)
      requires stationIndex < |stations|
      modifies this
      ensures stations == old(stations)[stationIndex := old(stations)[stationIndex].(name := newName)]
      ensures data == if newName != "" then old(data).(stations := MakeStations(stations)) else old(data)
    {
      stations := stations[stationIndex := stations[stationIndex].(name := newName)];
      if newName != "" {
        data := data.(stations := MakeStations(stations));
      }
    }

    /** setStationDuration(i, text): the row takes the text; the rows are pushed only when the text reads back. */
    method SetStationDuration(stationIndex: nat, newDuration: string)
      requires stationIndex < |stations|
      modifies this
      ensures stations == old(stations)[stationIndex := old(stations)[stationIndex].(durationSeconds := newDuration)]
      ensures data == if ReadsBack(newDuration) then old(data).(stations := MakeStations(stations)) else old(data)
    {
      stations := stations[stationIndex := stations[stationIndex].(durationSeconds := newDuration)];
      if NumberToString(ParseInt(newDuration)) == newDuration {
        data := data.(stations := MakeStations(stations));
      }
    }

    /** setStationPin(i, text): the row takes the text; the rows are pushed only when the text reads back. */
    method SetStationPin(stationIndex: nat, newPin: string)
      requires stationIndex < |stations|
      modifies this
      ensures stations == old(stations)[stationIndex := old(stations)[stationIndex].(pin := newPin)]
      ensures data == if ReadsBack(newPin) then old(data).(stations := MakeStations(stations)) else old(data)
    {
      stations := stations[stationIndex := stations[stationIndex].(pin := newPin)];
      if NumberToString(ParseInt(newPin)) == newPin {
        data := data.(stations := MakeStations(stations));
      }
    }

    /** setStationPin as evidently intended: the rows are pushed only for the text of an integer. */
    method SetStationPinIntended(stationIndex: nat, newPin: string)
      requires stationIndex < |stations|
      modifies this
      ensures stations == old(stations)[stationIndex := old(stations)[stationIndex].(pin := newPin)]
      ensures data == if IsIntegerText(newPin) then old(data).(stations := MakeStations(stations)) else old(data)
      ensures data != old(data) ==> data.stations[stationIndex].pin.Num?
    {
      stations := stations[stationIndex := stations[stationIndex].(pin := newPin)];
      if IsIntegerText(newPin) {
        data := data.(stations := MakeStations(stations));
      }
    }

    /** setStartTime: nothing for a cleared picker; otherwise the UTC hour, minute and second become the offset. */
    method SetStartTime(newStartTime: Option<(nat, nat, nat)>)
      modifies this
      ensures newStartTime.None? ==> data == old(data)
      ensures newStartTime.Some? ==>
        var (h, m, s) := newStartTime.value;
        data == old(data).(startOffsetFromMidnightSeconds := StartTimeOffset(h, m, s))
      ensures stations == old(stations)
    {
      if newStartTime.None? {
        return;
      }
      var (h, m, s) := newStartTime.value;
      data := data.(startOffsetFromMidnightSeconds := h * 3600 + m * 60 + s);
    }

    /** The delete button of every row is disabled while there is only one row. */
    function DeleteDisabled(): (disabled: bool)
      reads this
      ensures disabled <==> |stations| == 1
    {
      |stations| == 1
    }
  }

  /** `rows.filter((_, i) => i !== index)`. */
  function Without<T>(rows: seq<T>, index: int): (r: seq<T>)
    ensures 0 <= index < |rows| ==> r == rows[..index] + rows[index + 1..]
    ensures !(0 <= index < |rows|) ==> r == rows
  {
    if 0 <= index < |rows| then rows[..index] + rows[index + 1..] else rows
  }

  /** Deleting a row keeps every other row, in order, one place earlier after the deleted one. */
  lemma WithoutKeepsOthers<T>(rows: seq<T>, index: nat, j: nat)
    requires index < |rows| && j < |rows| - 1
    ensures |Without(rows, index)| == |rows| - 1
    ensures Without(rows, index)[j] == if j < index then rows[j] else rows[j + 1]
  {
  }

  // ---------------------------------------------------------------- scenarios

  /** As written: typing "NaN" as a pin pushes a station whose pin is NaN. */
  method NaNPinAccepted(schedule: ClientSchedule) returns (pin: JsNumber)
    requires |schedule.stations| > 0
    ensures pin == NaN
  {
    var form := new ScheduleForm(schedule);
    form.SetStationPin(0, "NaN");
    ParseIntNaN();
    pin := form.data.stations[0].pin;
  }

  /** As intended: typing "NaN" as a pin leaves the data as it was. */
  method NaNPinRejected(schedule: ClientSchedule) returns (data: ClientSchedule)
    requires |schedule.stations| > 0
    ensures data == schedule
  {
    var form := new ScheduleForm(schedule);
    form.SetStationPinIntended(0, "NaN");
    ParseIntNaN();
    data := form.data;
  }

  /** As written: deleting the second of two stations and saving still saves both. */
  method DeleteThenSave(schedule: ClientSchedule) returns (rows: nat, saved: seq<ClientStation>)
    requires |schedule.stations| == 2
    ensures rows == 1 && saved == schedule.stations
  {
    var form := new ScheduleForm(schedule);
    form.DeleteStation(1);
    rows, saved := |form.stations|, form.data.stations;
  }

  /** As intended: deleting the second of two stations saves only the first. */
  method DeleteThenSaveIntended(schedule: ClientSchedule) returns (saved: seq<ClientStation>)
    requires |schedule.stations| == 2
    ensures saved == [schedule.stations[0]]
  {
    var first := schedule.stations[0];
    var form := new ScheduleForm(schedule);
    var rows := form.stations;
    form.DeleteStationIntended(1);
    assert form.stations == [rows[0]];
    assert MakeStationFormValues([first]) == [rows[0]];
    StationRowsRoundTrip([first]);
    saved := form.data.stations;
  }

  /** Renaming a loaded station pushes the loaded stations with only that name changed. */
  method RenameLoadedStation(schedule: ClientSchedule, i: nat, newName: string) returns (saved: seq<ClientStation>)
    requires i < |schedule.stations| && newName != ""
    ensures saved == schedule.stations[i := schedule.stations[i].(name := newName)]
  {
    var form := new ScheduleForm(schedule);
    form.RenameStation(i, newName);
    saved := form.data.stations;
    forall j | 0 <= j < |schedule.stations| ensures saved[j] == schedule.stations[i := schedule.stations[i].(name := newName)][j] {
      NumberTextRoundTrip(schedule.stations[j].pin);
      NumberTextRoundTrip(schedule.stations[j].durationSeconds);
    }
  }
}
