/**
 * The firmware's run-time status (StatusService.h / StatusService.cpp): the
 * SystemState enumeration and its string codec, the Status record with its
 * JSON serialisation (`read`) and change-detecting deserialisation (`update`)
 * used by the status web socket, and the service's boot-time status.
 */
module Statuses {
  import opened ArduinoJson
  import opened StateUpdate

  /** What the controller is doing; INVALID marks a state string that names none of the others. */
  datatype SystemState = Idle | Testing | RunningManual | RunningScheduled | DisabledUntil | Invalid

  /** The status record: which pin and station are active, the state, and the two times that go with it. */
  datatype Status = Status(
    activePin: int,
    activeStation: string,
    enteredStateTime: int,
    leavingStateTime: int,
    state: SystemState)

  /** The state of a Status with static storage duration before anything is assigned (Idle is enumerator 0). */
  const ZeroStatus := Status(0, "", 0, 0, Idle)

  /** The status that StatusService::begin sets. */
  const BootStatus := Status(-1, "", -1, -1, Invalid)

  // ---------------------------------------------------------------- SystemState codec

  /** parseSystemState: the five state names, and INVALID for any other string. */
  function ParseSystemState(stateString: string): (state: SystemState)
    ensures state != Invalid <==> stateString in {"Idle", "Testing", "RunningManual", "RunningScheduled", "DisabledUntil"}
  {
    if stateString == "Idle" then Idle
    else if stateString == "Testing" then Testing
    else if stateString == "RunningManual" then RunningManual
    else if stateString == "RunningScheduled" then RunningScheduled
    else if stateString == "DisabledUntil" then DisabledUntil
    else Invalid
  }

  /** serialiseSystemState: the enumerator's own name, "INVALID" for INVALID. */
  function SerialiseSystemState(state: SystemState): (name: string)
    ensures name != ""
  {
    match state
    case Idle => "Idle"
    case Testing => "Testing"
    case RunningManual => "RunningManual"
    case RunningScheduled => "RunningScheduled"
    case DisabledUntil => "DisabledUntil"
    case Invalid => "INVALID"
  }

  /** Parsing a serialised state gives the state back, INVALID included. */
  lemma ParseSerialise(state: SystemState)
    ensures ParseSystemState(SerialiseSystemState(state)) == state
  {
    match state
    case Idle =>
    case Testing =>
    case RunningManual =>
    case RunningScheduled =>
    case DisabledUntil =>
    case Invalid =>
      assert "INVALID" != "Idle" && "INVALID" != "Testing";
  }

  /** Serialising a parsed name gives the name back for every string that names a valid state. */
  lemma SerialiseParse(stateString: string)
    requires ParseSystemState(stateString) != Invalid
    ensures SerialiseSystemState(ParseSystemState(stateString)) == stateString
  {
  }

  /** Every other string, "INVALID" itself among them, parses to INVALID. */
  lemma ParseRejectsOthers(stateString: string)
    requires stateString !in {"Idle", "Testing", "RunningManual", "RunningScheduled", "DisabledUntil"}
    ensures ParseSystemState(stateString) == Invalid
  {
  }

  // ---------------------------------------------------------------- Status

  /** The five keys Status::read writes. */
  const StatusKeys := {"activePin", "activeStation", "enteredStateTime", "leavingStateTime", "state"}

  /** Status::read into `root`: the four fields and the state's name. */
  function ReadStatus(status: Status, root: JsonObject): (r: JsonObject)
    ensures r.Keys == root.Keys + StatusKeys
    ensures forall k | k in root && k !in StatusKeys :: r[k] == root[k]
  {
    root["activePin" := JInt(status.activePin)]
        ["activeStation" := JString(status.activeStation)]
        ["enteredStateTime" := JInt(status.enteredStateTime)]
        ["leavingStateTime" := JInt(status.leavingStateTime)]
        ["state" := JString(SerialiseSystemState(status.state))]
  }

  /**
   * What Status::update does to `status` given `root`: a missing or negative
   * pin fails before anything is written; otherwise pin, station (default "")
   * and both times (default -1) are written, and then a state string that
   * names no state fails with those writes kept.
   */
  function StatusUpdate(root: JsonObject, status: Status): (r: Updated<Status>)
    ensures r.result == Error <==> IntOr(root, "activePin", -1) < 0 || ParseSystemState(StringOr(root, "state", "")) == Invalid
    ensures IntOr(root, "activePin", -1) < 0 ==> r.value == status
    ensures r.result != Error ==> Acceptable(r.value) && (r.result == Changed <==> r.value != status)
  {
    var activePin := IntOr(root, "activePin", -1);
    var written := status.(activePin := activePin,
                           activeStation := StringOr(root, "activeStation", ""),
                           enteredStateTime := IntOr(root, "enteredStateTime", -1),
                           leavingStateTime := IntOr(root, "leavingStateTime", -1));
    var state := ParseSystemState(StringOr(root, "state", ""));
    if activePin < 0 then Updated(status, Error)
    else if state == Invalid then Updated(written, Error)
    else Updated(written.(state := state), Verdict(written.(state := state) != status))
  }

  /** Status::update, statement by statement, each `if (x != v)` block being the updateStateValue step. */
  method UpdateStatus(root: JsonObject, status: Status) returns (status': Status, result: StateUpdateResult)
    ensures Updated(status', result) == StatusUpdate(root, status)
  {
    result := Unchanged;

    var activePin := IntOr(root, "activePin", -1);
    if activePin < 0 {
      return status, Error;
    }
    var pin, station, entered, leaving;
    pin, result := UpdateStateValue(status.activePin, activePin, result);
    station, result := UpdateStateValue(status.activeStation, StringOr(root, "activeStation", ""), result);
    entered, result := UpdateStateValue(status.enteredStateTime, IntOr(root, "enteredStateTime", -1), result);
    leaving, result := UpdateStateValue(status.leavingStateTime, IntOr(root, "leavingStateTime", -1), result);
    status' := Status(pin, station, entered, leaving, status.state);

    var state := ParseSystemState(StringOr(root, "state", ""));
    if state == Invalid {
      return status', Error;
    }
    var state';
    state', result := UpdateStateValue(status.state, state, result);
    status' := status'.(state := state');
  }

  /** A status that Status::update accepts back from its own serialisation. */
  predicate Acceptable(status: Status)
  {
    0 <= status.activePin <= INT_MAX && status.state != Invalid
    && IsInt(status.enteredStateTime) && IsInt(status.leavingStateTime)
  }

  /** Each field of the status can be read back from its serialisation when it fits in an `int`. */
  lemma ReadStatusFields(status: Status, root: JsonObject)
    requires Acceptable(status)
    ensures var json := ReadStatus(status, root);
      && IntOr(json, "activePin", -1) == status.activePin
      && StringOr(json, "activeStation", "") == status.activeStation
      && IntOr(json, "enteredStateTime", -1) == status.enteredStateTime
      && IntOr(json, "leavingStateTime", -1) == status.leavingStateTime
      && StringOr(json, "state", "") == SerialiseSystemState(status.state)
  {
  }

  /**
   * Updating any `target` from the serialisation of an acceptable status
   * turns it into that status and reports CHANGED exactly when they differed.
   */
  lemma StatusRoundTrip(status: Status, target: Status, root: JsonObject)
    requires Acceptable(status)
    ensures StatusUpdate(ReadStatus(status, root), target) == Updated(status, Verdict(target != status))
  {
    ReadStatusFields(status, root);
    ParseSerialise(status.state);
  }

  /** In particular a status updated from its own serialisation reports UNCHANGED. */
  lemma StatusReadUpdateUnchanged(status: Status, root: JsonObject)
    requires Acceptable(status)
    ensures StatusUpdate(ReadStatus(status, root), status) == Updated(status, Unchanged)
  {
    StatusRoundTrip(status, status, root);
  }

  /** A missing or negative pin fails with nothing written: an idle status (pin -1) is never accepted. */
  lemma StatusPinRejected(root: JsonObject, status: Status)
    requires IntOr(root, "activePin", -1) < 0
    ensures StatusUpdate(root, status) == Updated(status, Error)
  {
  }

  /** An unknown state name fails after the pin, station and both times were written, defaults included. */
  lemma StatusStateRejectedLate(root: JsonObject, status: Status)
    requires IntOr(root, "activePin", -1) >= 0
    requires ParseSystemState(StringOr(root, "state", "")) == Invalid
    ensures StatusUpdate(root, status).result == Error
    ensures StatusUpdate(root, status).value
         == Status(IntOr(root, "activePin", -1), StringOr(root, "activeStation", ""),
                   IntOr(root, "enteredStateTime", -1), IntOr(root, "leavingStateTime", -1), status.state)
  {
  }

  /**
   * Each absent key takes its default whatever else the object holds, once
   * the pin is accepted: "" for the station, -1 for either time, and a missing
   * state names no state, so the update fails.
   */
  lemma StatusDefaults(root: JsonObject, status: Status)
    requires IntOr(root, "activePin", -1) >= 0
    ensures "activeStation" !in root ==> StatusUpdate(root, status).value.activeStation == ""
    ensures "enteredStateTime" !in root ==> StatusUpdate(root, status).value.enteredStateTime == -1
    ensures "leavingStateTime" !in root ==> StatusUpdate(root, status).value.leavingStateTime == -1
    ensures "state" !in root ==> StatusUpdate(root, status).result == Error
  {
  }

  /** The boot status serialises with the state "INVALID", and Status::update rejects that serialisation untouched. */
  lemma BootStatusRejected(target: Status, root: JsonObject)
    ensures ReadStatus(BootStatus, root)["state"] == JString("INVALID")
    ensures StatusUpdate(ReadStatus(BootStatus, root), target) == Updated(target, Error)
  {
    assert IntOr(ReadStatus(BootStatus, root), "activePin", -1) == -1;
  }

  /** The status service: the StatefulService<Status> state that the web socket and main.cpp update. */
  class StatusService {
    var state: Status

    /** The global service object before begin(): its state is zero-initialised. */
    constructor ()
      ensures state == ZeroStatus
    {
      state := ZeroStatus;
    }

    /** StatusService::begin: no active pin or station, no times, state INVALID. */
    method Begin()
      modifies this
      ensures state == BootStatus
    {
      state := state.(activePin := -1);
      state := state.(activeStation := "");
      state := state.(enteredStateTime := -1);
      state := state.(leavingStateTime := -1);
      state := state.(state := Invalid);
    }
  }
}
