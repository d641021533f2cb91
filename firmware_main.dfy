/**
 * The firmware's run-time logic (main.cpp): the station timeline that decides
 * which station a run has reached, the once-per-loop mode cascade that turns
 * the schedule into a status, and the handler that moves the valve output from
 * one pin to the next when the status changes.
 *
 * The clock is not read here: the current UNIX time, the local weekday
 * (`tm_wday`) and the UNIX time that `mktime` gives for today's start are
 * parameters. `statusService.update(f)` is `f` applied to the service's state.
 */
module FirmwareMain {
  import opened Wrappers
  import opened StateUpdate
  import opened Schedules
  import opened Statuses

  /** The pause between the end of one station's window and the start of the next. */
  const SECONDS_BETWEEN_STATIONS: nat := 5

  // ---------------------------------------------------------------- the station timeline

  /** When station `i` starts, in seconds into the run: the durations of the earlier stations plus one gap after each. */
  function StationStart(stations: seq<Station>, i: nat): nat
    requires i <= |stations|
  {
    if i == 0 then 0
    else StationStart(stations, i - 1) + stations[i - 1].durationSeconds + SECONDS_BETWEEN_STATIONS
  }

  /** Station `i` waters during `[start, start + duration)` of the run. */
  predicate IsActive(stations: seq<Station>, i: nat, elapsed: int)
    requires i < |stations|
  {
    StationStart(stations, i) <= elapsed < StationStart(stations, i) + stations[i].durationSeconds
  }

  /** No station waters `elapsed` seconds into the run. */
  predicate NoneActive(stations: seq<Station>, elapsed: int)
  {
    forall i | 0 <= i < |stations| :: !IsActive(stations, i, elapsed)
  }

  /** Later stations start later: the start of `j` is at least the end of `i`'s window plus the gap. */
  lemma {:induction false} StationStartGrows(stations: seq<Station>, i: nat, j: nat)
    requires i < j <= |stations|
    ensures StationStart(stations, j) >= StationStart(stations, i) + stations[i].durationSeconds + SECONDS_BETWEEN_STATIONS
    decreases j - i
  {
    if j > i + 1 {
      StationStartGrows(stations, i, j - 1);
    }
  }

  /** At most one station is active at any moment of the run. */
  lemma AtMostOneActive(stations: seq<Station>, i: nat, j: nat, elapsed: int)
    requires i < |stations| && j < |stations|
    requires IsActive(stations, i, elapsed) && IsActive(stations, j, elapsed)
    ensures i == j
  {
    if i < j {
      StationStartGrows(stations, i, j);
    } else if j < i {
      StationStartGrows(stations, j, i);
    }
  }

  /** A station with no duration is never active. */
  lemma ZeroDurationNeverActive(stations: seq<Station>, i: nat, elapsed: int)
    requires i < |stations| && stations[i].durationSeconds == 0
    ensures !IsActive(stations, i, elapsed)
  {
  }

  /** The first active station at index `from` or later. */
  function FindActive(stations: seq<Station>, elapsed: int, from: nat): (r: Option<nat>)
    requires from <= |stations|
    ensures r.Some? ==> from <= r.value < |stations| && IsActive(stations, r.value, elapsed)
    ensures r.None? ==> forall i | from <= i < |stations| :: !IsActive(stations, i, elapsed)
    decreases |stations| - from
  {
    if from == |stations| then None
    else if IsActive(stations, from, elapsed) then Some(from)
    else FindActive(stations, elapsed, from + 1)
  }

  /** The station that is watering `elapsed` seconds into a run, if any. */
  function ActiveIndex(stations: seq<Station>, elapsed: int): Option<nat>
  {
    FindActive(stations, elapsed, 0)
  }

  /** The active index is exactly the station whose window holds `elapsed`, in both directions. */
  lemma ActiveIndexIff(stations: seq<Station>, i: nat, elapsed: int)
    requires i < |stations|
    ensures ActiveIndex(stations, elapsed) == Some(i) <==> IsActive(stations, i, elapsed)
  {
    var r := ActiveIndex(stations, elapsed);
    if IsActive(stations, i, elapsed) {
      AtMostOneActive(stations, i, r.value, elapsed);
    }
  }

  /** Before the run starts no station is active. */
  lemma NoStationBeforeStart(stations: seq<Station>, elapsed: int)
    requires elapsed < 0
    ensures ActiveIndex(stations, elapsed) == None
  {
  }

  /** In the gap after station `i` and before station `i + 1` no station is active. */
  lemma NoStationInGap(stations: seq<Station>, i: nat, elapsed: int)
    requires i + 1 < |stations|
    requires StationStart(stations, i) + stations[i].durationSeconds <= elapsed < StationStart(stations, i + 1)
    ensures ActiveIndex(stations, elapsed) == None
  {
    var r := ActiveIndex(stations, elapsed);
    if r.Some? {
      var k := r.value;
      if k < i {
        StationStartGrows(stations, k, i);
      } else if k > i + 1 {
        StationStartGrows(stations, i + 1, k);
      }
    }
  }

  /** After the last station's window there is no gap and no station is active. */
  lemma NoStationAfterLast(stations: seq<Station>, elapsed: int)
    requires |stations| > 0
    requires elapsed >= StationStart(stations, |stations| - 1) + stations[|stations| - 1].durationSeconds
    ensures ActiveIndex(stations, elapsed) == None
  {
    var r := ActiveIndex(stations, elapsed);
    if r.Some? && r.value < |stations| - 1 {
      StationStartGrows(stations, r.value, |stations| - 1);
    }
  }

  /** The run status of station `i`: its pin and name, the bounds of its window, and the kind of run. */
  function RunningStatus(stations: seq<Station>, i: nat, isManualRun: bool): (status: Status)
    requires i < |stations|
    ensures status.activePin == stations[i].pin && status.activeStation == stations[i].name
    ensures status.leavingStateTime - status.enteredStateTime == stations[i].durationSeconds
    ensures status.state == if isManualRun then RunningManual else RunningScheduled
  {
    var start := StationStart(stations, i);
    Status(stations[i].pin, stations[i].name, start, start + stations[i].durationSeconds,
           if isManualRun then RunningManual else RunningScheduled)
  }

  /**
   * The five updateStateValue calls of a `statusService.update` lambda: the
   * status becomes `target`, and CHANGED is reported exactly when it was not
   * `target` already.
   */
  method AssignStatus(status: Status, target: Status) returns (status': Status, result: StateUpdateResult)
    ensures status' == target
    ensures result == Verdict(status != target)
  {
    result := Unchanged;
    var state, pin, station, entered, leaving;
    state, result := UpdateStateValue(status.state, target.state, result);
    pin, result := UpdateStateValue(status.activePin, target.activePin, result);
    station, result := UpdateStateValue(status.activeStation, target.activeStation, result);
    entered, result := UpdateStateValue(status.enteredStateTime, target.enteredStateTime, result);
    leaving, result := UpdateStateValue(status.leavingStateTime, target.leavingStateTime, result);
    status' := Status(pin, station, entered, leaving, state);
  }

  /** `statusService.update` with one of main.cpp's lambdas, which all write every field of the status. */
  method SetStatus(service: StatusService, target: Status) returns (result: StateUpdateResult)
    modifies service
    ensures service.state == target
    ensures result == Verdict(old(service.state) != target)
  {
    service.state, result := AssignStatus(service.state, target);
  }

  /**
   * updateScheduledStatus: walks the stations accumulating the run time. When
   * `currentTime` falls in a station's window the status becomes that station's
   * run status and the result is true; before the start, in a gap or after the
   * last window the status is left alone and the result is false.
   */
  method UpdateScheduledStatus(service: StatusService, stations: seq<Station>, scheduleStartTime: int,
                               currentTime: int, isManualRun: bool)
    returns (running: bool)
    modifies service
    ensures running <==> ActiveIndex(stations, currentTime - scheduleStartTime).Some?
    ensures running ==> service.state == RunningStatus(stations, ActiveIndex(stations, currentTime - scheduleStartTime).value, isManualRun)
    ensures !running ==> service.state == old(service.state)
  {
    var actualSecondsIntoRun := currentTime - scheduleStartTime;
    if actualSecondsIntoRun < 0 {
      NoStationBeforeStart(stations, actualSecondsIntoRun);
      return false;
    }

    var testSecondsIntoRun := 0;
    var stationCount := |stations|;
    var i := 0;
    while i < stationCount
      invariant 0 <= i <= stationCount
      invariant i < stationCount ==> testSecondsIntoRun == StationStart(stations, i) <= actualSecondsIntoRun
      invariant forall j | 0 <= j < i :: !IsActive(stations, j, actualSecondsIntoRun)
      invariant service.state == old(service.state)
    {
      var testStation := stations[i];
      testSecondsIntoRun := testSecondsIntoRun + testStation.durationSeconds;
      if actualSecondsIntoRun < testSecondsIntoRun {
        ActiveIndexIff(stations, i, actualSecondsIntoRun);
        var target := Status(testStation.pin, testStation.name, testSecondsIntoRun - testStation.durationSeconds,
                             testSecondsIntoRun, if isManualRun then RunningManual else RunningScheduled);
        var result := SetStatus(service, target);
        return true;
      }
      if i != stationCount - 1 {
        testSecondsIntoRun := testSecondsIntoRun + SECONDS_BETWEEN_STATIONS;
        if actualSecondsIntoRun < testSecondsIntoRun {
          NoStationInGap(stations, i, actualSecondsIntoRun);
          return false;
        }
      }
      i := i + 1;
    }
    return false;
  }

  // ---------------------------------------------------------------- the mode cascade

  /** The status written in pin-test mode. */
  function TestingStatus(pin: int): Status { Status(pin, "", -1, -1, Testing) }

  /** The status written while the rain delay lasts. */
  function DisabledStatus(disableUntil: int): Status { Status(-1, "", -1, disableUntil, DisabledUntil) }

  /** The status written by `goIdle`. */
  const IdleStatus := Status(-1, "", -1, -1, Idle)

  /** Whether the schedule runs on weekday `wday` (0 = Sunday … 6 = Saturday); any other value means no. */
  function ScheduledToday(schedule: Schedule, wday: int): (today: bool)
    ensures today ==> 0 <= wday <= 6
  {
    match wday
    case 0 => schedule.sunday
    case 1 => schedule.monday
    case 2 => schedule.tuesday
    case 3 => schedule.wednesday
    case 4 => schedule.thursday
    case 5 => schedule.friday
    case 6 => schedule.saturday
    case _ => false
  }

  /** The start offset split into the `tm_hour`, `tm_min` and `tm_sec` written into today's date. */
  function StartClock(offset: nat): (hms: (nat, nat, nat))
    ensures hms.1 < 60 && hms.2 < 60
    ensures hms.0 * 3600 + hms.1 * 60 + hms.2 == offset
    ensures offset < 86400 ==> hms.0 < 24
  {
    (offset / 3600, (offset % 3600) / 60, offset % 60)
  }

  /** The status after the manual run, if `now` falls in one of its windows. */
  function ManualRun(schedule: Schedule, now: int): (r: Option<Status>)
    ensures r.None? <==> schedule.manualStartTime >= now || NoneActive(schedule.stations, now - schedule.manualStartTime)
    ensures r.Some? ==>
      exists i | 0 <= i < |schedule.stations| ::
        IsActive(schedule.stations, i, now - schedule.manualStartTime) && r.value == RunningStatus(schedule.stations, i, true)
  {
    if schedule.manualStartTime < now then
      match ActiveIndex(schedule.stations, now - schedule.manualStartTime)
      case Some(i) => Some(RunningStatus(schedule.stations, i, true))
      case None => None
    else None
  }

  /** The status after today's scheduled run: the active station, or idle. */
  function ScheduledRunOrIdle(schedule: Schedule, now: int, scheduleStartTime: int): (r: Status)
    ensures r == IdleStatus <==> NoneActive(schedule.stations, now - scheduleStartTime)
    ensures r != IdleStatus ==>
      exists i | 0 <= i < |schedule.stations| ::
        IsActive(schedule.stations, i, now - scheduleStartTime) && r == RunningStatus(schedule.stations, i, false)
  {
    match ActiveIndex(schedule.stations, now - scheduleStartTime)
    case Some(i) => RunningStatus(schedule.stations, i, false)
    case None => IdleStatus
  }

  /**
   * The writes that updateStatus makes to the status, in order: the pin test,
   * then the manual run (which ends the call when it hits), then the rain
   * delay, then idle on a day off, then the scheduled run or idle.
   */
  function StatusWrites(schedule: Schedule, now: int, wday: int, scheduleStartTime: int): (writes: seq<Status>)
    ensures |writes| > 0
  {
    var test := if schedule.testStationPin != -1 then [TestingStatus(schedule.testStationPin)] else [];
    match ManualRun(schedule, now)
    case Some(manual) => test + [manual]
    case None =>
      test
      + (if schedule.disableUntil > now then [DisabledStatus(schedule.disableUntil)] else [])
      + (if !ScheduledToday(schedule, wday) then [IdleStatus] else [])
      + [ScheduledRunOrIdle(schedule, now, scheduleStartTime)]
  }

  /** updateStatus as written: each step writes the whole status, and only a manual run ends the call early. */
  method UpdateStatus(service: StatusService, schedule: Schedule, actualTime: int, wday: int, scheduleStartTime: int)
    modifies service
    ensures service.state == Last(StatusWrites(schedule, actualTime, wday, scheduleStartTime))
  {
    var result;
    var testStationPin := schedule.testStationPin;
    if testStationPin != -1 {
      result := SetStatus(service, TestingStatus(testStationPin));
    }

    var manualStartTime := schedule.manualStartTime;
    if manualStartTime < actualTime {
      var running := UpdateScheduledStatus(service, schedule.stations, manualStartTime, actualTime, true);
      if running {
        return;
      }
    }

    if schedule.disableUntil > actualTime {
      result := SetStatus(service, DisabledStatus(schedule.disableUntil));
    }

    var scheduledToday := ScheduledToday(schedule, wday);
    if !scheduledToday {
      result := SetStatus(service, IdleStatus);
    }

    var running := UpdateScheduledStatus(service, schedule.stations, scheduleStartTime, actualTime, false);
    if !running {
      result := SetStatus(service, IdleStatus);
    }
  }

  function Last<T>(s: seq<T>): T
    requires |s| > 0
  {
    s[|s| - 1]
  }

  /**
   * As written, the status that updateStatus leaves is always a run or idle:
   * the pin test and the rain delay are overwritten in the same call.
   */
  lemma UpdateStatusEndsRunningOrIdle(schedule: Schedule, now: int, wday: int, scheduleStartTime: int)
    ensures Last(StatusWrites(schedule, now, wday, scheduleStartTime)).state in {RunningManual, RunningScheduled, Idle}
  {
  }

  /** As written, the weekday has no effect on the status that updateStatus leaves. */
  lemma UpdateStatusIgnoresWeekday(schedule: Schedule, now: int, wday: int, wday': int, scheduleStartTime: int)
    ensures Last(StatusWrites(schedule, now, wday, scheduleStartTime)) == Last(StatusWrites(schedule, now, wday', scheduleStartTime))
  {
  }

  /** A schedule in pin-test mode with no stations first writes the test status, then ends the call idle. */
  lemma UpdateStatusLosesPinTest()
    ensures var schedule := ZeroSchedule.(testStationPin := 4, manualStartTime := -1, monday := true);
            var writes := StatusWrites(schedule, 1000, 1, 0);
            && writes[0] == TestingStatus(4)
            && Last(writes) == IdleStatus
  {
  }

  /**
   * The cascade evidently intended: the first mode that applies decides the
   * status, in the order of the source — pin test, manual run, rain delay,
   * day off, scheduled run, idle.
   */
  function IntendedStatus(schedule: Schedule, now: int, wday: int, scheduleStartTime: int): (status: Status)
    ensures status.state != Invalid
    ensures status.state == Testing <==> schedule.testStationPin != -1
    ensures status.state == RunningManual <==> schedule.testStationPin == -1 && ManualRun(schedule, now).Some?
  {
    if schedule.testStationPin != -1 then TestingStatus(schedule.testStationPin)
    else if ManualRun(schedule, now).Some? then ManualRun(schedule, now).value
    else if schedule.disableUntil > now then DisabledStatus(schedule.disableUntil)
    else if !ScheduledToday(schedule, wday) then IdleStatus
    else ScheduledRunOrIdle(schedule, now, scheduleStartTime)
  }

  /** updateStatus with every mode ending the call, as the comments of the source describe the modes. */
  method UpdateStatusIntended(service: StatusService, schedule: Schedule, actualTime: int, wday: int, scheduleStartTime: int)
    modifies service
    ensures service.state == IntendedStatus(schedule, actualTime, wday, scheduleStartTime)
  {
    var result;
    if schedule.testStationPin != -1 {
      result := SetStatus(service, TestingStatus(schedule.testStationPin));
      return;
    }
    if schedule.manualStartTime < actualTime {
      var running := UpdateScheduledStatus(service, schedule.stations, schedule.manualStartTime, actualTime, true);
      if running {
        return;
      }
    }
    if schedule.disableUntil > actualTime {
      result := SetStatus(service, DisabledStatus(schedule.disableUntil));
      return;
    }
    if !ScheduledToday(schedule, wday) {
      result := SetStatus(service, IdleStatus);
      return;
    }
    var running := UpdateScheduledStatus(service, schedule.stations, scheduleStartTime, actualTime, false);
    if !running {
      result := SetStatus(service, IdleStatus);
    }
  }

  /** In the intended cascade the pin test wins, and a station runs only on a scheduled day or in a manual run. */
  lemma IntendedStatusModes(schedule: Schedule, now: int, wday: int, scheduleStartTime: int)
    ensures var status := IntendedStatus(schedule, now, wday, scheduleStartTime);
      && (schedule.testStationPin != -1 ==> status == TestingStatus(schedule.testStationPin))
      && (status.state == RunningScheduled ==> ScheduledToday(schedule, wday) && !(schedule.disableUntil > now))
      && (status.state == DisabledUntil <==>
            schedule.testStationPin == -1 && ManualRun(schedule, now).None? && schedule.disableUntil > now)
      && (status.state in {RunningManual, RunningScheduled} ==> 0 <= status.activePin)
  {
  }

  /** Where the pin test, the manual run and the rain delay are not involved, both cascades agree. */
  lemma IntendedAgreesWhenNoOverride(schedule: Schedule, now: int, wday: int, scheduleStartTime: int)
    requires schedule.testStationPin == -1 && !(schedule.disableUntil > now) && ScheduledToday(schedule, wday)
    ensures Last(StatusWrites(schedule, now, wday, scheduleStartTime)) == IntendedStatus(schedule, now, wday, scheduleStartTime)
  {
  }

  // ---------------------------------------------------------------- the valve hand-over

  datatype Level = Low | High

  /** The GPIO side of main.cpp: the pin levels written so far and the global `lastActiveStationPin`. */
  class StationDriver {
    var lastActiveStationPin: int
    var gpio: map<int, Level>

    /** Boot: no pin driven yet, and `lastActiveStationPin` initialised to -1. */
    constructor ()
      ensures lastActiveStationPin == -1 && gpio == map[]
    {
      lastActiveStationPin := -1;
      gpio := map[];
    }

    /** handleStatusChange, as written. */
    method HandleStatusChange(newStatus: Status)
      modifies this
      ensures (lastActiveStationPin, gpio) == StatusChange(old(lastActiveStationPin), old(gpio), newStatus.activePin)
    {
      if newStatus.activePin != lastActiveStationPin {
        if lastActiveStationPin != -1 {
          gpio := gpio[lastActiveStationPin := Low];
        }
        if newStatus.activePin != -1 {
          gpio := gpio[newStatus.activePin := High];
          lastActiveStationPin := newStatus.activePin;
        }
      }
    }

    /** handleStatusChange with `lastActiveStationPin` following the status to -1 as well. */
    method HandleStatusChangeIntended(newStatus: Status)
      modifies this
      ensures (lastActiveStationPin, gpio) == IntendedStatusChange(old(lastActiveStationPin), old(gpio), newStatus.activePin)
    {
      if newStatus.activePin != lastActiveStationPin {
        if lastActiveStationPin != -1 {
          gpio := gpio[lastActiveStationPin := Low];
        }
        if newStatus.activePin != -1 {
          gpio := gpio[newStatus.activePin := High];
        }
        lastActiveStationPin := newStatus.activePin;
      }
    }
  }

  /**
   * What handleStatusChange does to the remembered pin and the levels: nothing
   * when the pin is the remembered one; otherwise the remembered pin (if any)
   * goes LOW, and the new pin (if any) goes HIGH and is remembered.
   */
  function StatusChange(last: int, gpio: map<int, Level>, newPin: int): (r: (int, map<int, Level>))
    ensures newPin == last ==> r == (last, gpio)
    ensures newPin != last && newPin != -1 ==> r == (newPin, (if last != -1 then gpio[last := Low] else gpio)[newPin := High])
    ensures newPin != last && newPin == -1 ==> r == (last, gpio[last := Low])
  {
    if newPin == last then (last, gpio)
    else
      var lowered := if last != -1 then gpio[last := Low] else gpio;
      if newPin != -1 then (newPin, lowered[newPin := High]) else (last, lowered)
  }

  /** The pins driven HIGH: at most the remembered pin, and never the -1 of "no station". */
  predicate AtMostRememberedHigh(last: int, gpio: map<int, Level>)
  {
    forall p | p in gpio && gpio[p] == High :: p == last && p != -1
  }

  /**
   * As written, the hand-over keeps at most one valve open, and that valve is
   * the remembered pin; a new pin opens its valve, and going idle closes every
   * valve while the remembered pin stays as it was.
   */
  lemma StatusChangeOneValveOpen(last: int, gpio: map<int, Level>, newPin: int)
    requires AtMostRememberedHigh(last, gpio)
    ensures var r := StatusChange(last, gpio, newPin);
            && AtMostRememberedHigh(r.0, r.1)
            && (newPin != -1 && newPin != last ==> newPin in r.1 && r.1[newPin] == High)
            && (newPin == -1 ==> r.0 == last && forall p | p in r.1 :: r.1[p] == Low)
  {
  }

  /** The intended hand-over: like StatusChange, but going idle also forgets the pin. */
  function IntendedStatusChange(last: int, gpio: map<int, Level>, newPin: int): (r: (int, map<int, Level>))
    ensures r.0 == newPin
  {
    if newPin == last then (last, gpio)
    else
      var lowered := if last != -1 then gpio[last := Low] else gpio;
      (newPin, if newPin != -1 then lowered[newPin := High] else lowered)
  }

  /** The remembered pin is the one pin driven HIGH, and -1 means none is. */
  predicate DriverConsistent(last: int, gpio: map<int, Level>)
  {
    && (last != -1 ==> last in gpio && gpio[last] == High)
    && AtMostRememberedHigh(last, gpio)
  }

  /** The intended hand-over keeps the driver consistent, so the HIGH pin is always the status's pin. */
  lemma IntendedStatusChangeConsistent(last: int, gpio: map<int, Level>, newPin: int)
    requires DriverConsistent(last, gpio)
    ensures DriverConsistent(IntendedStatusChange(last, gpio, newPin).0, IntendedStatusChange(last, gpio, newPin).1)
    ensures var r := IntendedStatusChange(last, gpio, newPin);
            newPin != -1 ==> newPin in r.1 && r.1[newPin] == High
  {
  }

  /** The statuses' pins 4, then -1 (idle), then 4: as written, pin 4 ends LOW although station 4 is running again. */
  lemma StatusChangeMissesRestart()
    ensures var s1 := StatusChange(-1, map[], 4);
            var s2 := StatusChange(s1.0, s1.1, -1);
            var s3 := StatusChange(s2.0, s2.1, 4);
            && s1.1[4] == High && s2.1[4] == Low && s3.1[4] == Low
            && !DriverConsistent(s2.0, s2.1)
  {
  }

  /** The same pins with the intended hand-over: pin 4 is HIGH again. */
  lemma IntendedStatusChangeRestarts()
    ensures var s1 := IntendedStatusChange(-1, map[], 4);
            var s2 := IntendedStatusChange(s1.0, s1.1, -1);
            var s3 := IntendedStatusChange(s2.0, s2.1, 4);
            && s2.1[4] == Low && s3.1[4] == High
  {
  }
}
