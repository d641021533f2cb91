/**
 * The generic load/save controller of the console (components/RestController.tsx):
 * three state cells, `data`, `loading` and `errorMessage`, driven by the events
 * "load started", "load settled", "save started", "save settled", a view's
 * `setData` and a form field's change.
 */
module RestControllers {
  import opened Wrappers
  import opened Js

  /** The parts of a change event on an input element that extractEventValue looks at. */
  datatype InputEvent = InputEvent(inputType: string, valueAsNumber: JsNumber, checked: bool, value: string)

  /** extractEventValue: a number for "number" inputs, the flag for "checkbox" inputs, the text otherwise. */
  function ExtractEventValue(event: InputEvent): (v: JsValue)
    ensures event.inputType == "number" ==> v == JsNum(event.valueAsNumber)
    ensures event.inputType == "checkbox" ==> v == JsBool(event.checked)
    ensures event.inputType != "number" && event.inputType != "checkbox" ==> v == JsStr(event.value)
  {
    if event.inputType == "number" then JsNum(event.valueAsNumber)
    else if event.inputType == "checkbox" then JsBool(event.checked)
    else JsStr(event.value)
  }

  /** The kind of the extracted value tells the kind of input, and back. */
  lemma ExtractEventValueKind(event: InputEvent)
    ensures ExtractEventValue(event).JsNum? <==> event.inputType == "number"
    ensures ExtractEventValue(event).JsBool? <==> event.inputType == "checkbox"
    ensures ExtractEventValue(event).JsStr? <==> event.inputType != "number" && event.inputType != "checkbox"
  {
  }

  /** `{ ...data, [name]: value }`: spreading undefined gives no fields. */
  function WithField(data: Option<JsObject>, name: string, value: JsValue): (r: JsObject)
    ensures name in r && r[name] == value
    ensures forall k | k in r && k != name :: data.Some? && k in data.value && r[k] == data.value[k]
    ensures data.Some? ==> forall k | k in data.value && k != name :: k in r && r[k] == data.value[k]
  {
    (if data.Some? then data.value else map[])[name := value]
  }

  class RestController {
    var data: Option<JsObject>
    var loading: bool
    var errorMessage: Option<string>
    /** The notifications enqueued so far, oldest first. */
    var notifications: seq<Notification>

    /** The initial state cells: no data, not loading, no error. */
    constructor ()
      ensures data == None && !loading && errorMessage == None && notifications == []
    {
      data := None;
      loading := false;
      errorMessage := None;
      notifications := [];
    }

    /** setNewData, the `setData` handed to views: new data, no error, not loading. */
    method SetNewData(newData: JsObject)
      modifies this
      ensures data == Some(newData) && errorMessage == None && !loading
      ensures notifications == old(notifications)
    {
      data := Some(newData);
      errorMessage := None;
      loading := false;
    }

    /** The synchronous part of loadData: loading, with data and error cleared. */
    method StartLoad()
      modifies this
      ensures loading && data == None && errorMessage == None
      ensures notifications == old(notifications)
    {
      loading := true;
      data := None;
      errorMessage := None;
    }

    /**
     * The rest of loadData once the GET settles: a 200 whose body parses
     * becomes the data; anything else is caught, notified as "Problem
     * fetching: …", clears the data and sets the error. Loading ends either way.
     */
    method LoadSettled(outcome: FetchOutcome<JsObject>)
      modifies this
      ensures !loading
      ensures outcome.Response? && outcome.status == 200 && outcome.body.Ok? ==>
        data == Some(outcome.body.value) && errorMessage == old(errorMessage) && notifications == old(notifications)
      ensures !(outcome.Response? && outcome.status == 200 && outcome.body.Ok?) ==>
        var message := MessageOrUnknown(LoadFailure(outcome));
        && data == None && errorMessage == Some(message)
        && notifications == old(notifications) + [Notification("Problem fetching: " + message, Error)]
    {
      if outcome.Response? && outcome.status == 200 && outcome.body.Ok? {
        data := Some(outcome.body.value);
      } else {
        var message := MessageOrUnknown(LoadFailure(outcome));
        notifications := notifications + [Notification("Problem fetching: " + message, Error)];
        data := None;
        errorMessage := Some(message);
      }
      loading := false;
    }

    /** The synchronous part of saveData: loading, and the current data as the request body. */
    method StartSave() returns (body: Option<JsObject>)
      modifies this
      ensures loading && body == old(data)
      ensures data == old(data) && errorMessage == old(errorMessage) && notifications == old(notifications)
    {
      loading := true;
      body := data;
    }

    /**
     * The rest of saveData once the POST settles. The POST is awaited outside
     * the `try`, so a rejected fetch changes nothing at all: no notification,
     * and `loading` stays true. A 200 whose body parses notifies "Update
     * successful.", stores the body and clears the error; anything else is
     * notified as "Problem updating: …", clears the data and sets the error.
     */
    method SaveSettled(outcome: FetchOutcome<JsObject>)
      modifies this
      ensures outcome.Rejected? ==>
        data == old(data) && loading == old(loading) && errorMessage == old(errorMessage) && notifications == old(notifications)
      ensures outcome.Response? ==> !loading
      ensures outcome.Response? && outcome.status == 200 && outcome.body.Ok? ==>
        && data == Some(outcome.body.value) && errorMessage == None
        && notifications == old(notifications) + [Notification("Update successful.", Success)]
      ensures outcome.Response? && !(outcome.status == 200 && outcome.body.Ok?) ==>
        var message := MessageOrUnknown(LoadFailure(outcome));
        && data == None && errorMessage == Some(message)
        && notifications == old(notifications) + [Notification("Problem updating: " + message, Error)]
    {
      if outcome.Rejected? {
        return;
      }
      if outcome.status == 200 && outcome.body.Ok? {
        notifications := notifications + [Notification("Update successful.", Success)];
        data := Some(outcome.body.value);
        errorMessage := None;
      } else {
        var message := MessageOrUnknown(LoadFailure(outcome));
        notifications := notifications + [Notification("Problem updating: " + message, Error)];
        data := None;
        errorMessage := Some(message);
      }
      loading := false;
    }

    /** saveData as evidently intended: a rejected POST is caught like any other failure, so loading always ends. */
    method SaveSettledIntended(outcome: FetchOutcome<JsObject>)
      modifies this
      ensures !loading
      ensures outcome.Response? && outcome.status == 200 && outcome.body.Ok? ==>
        && data == Some(outcome.body.value) && errorMessage == None
        && notifications == old(notifications) + [Notification("Update successful.", Success)]
      ensures !(outcome.Response? && outcome.status == 200 && outcome.body.Ok?) ==>
        var message := MessageOrUnknown(LoadFailure(outcome));
        && data == None && errorMessage == Some(message)
        && notifications == old(notifications) + [Notification("Problem updating: " + message, Error)]
    {
      if outcome.Response? && outcome.status == 200 && outcome.body.Ok? {
        notifications := notifications + [Notification("Update successful.", Success)];
        data := Some(outcome.body.value);
        errorMessage := None;
      } else {
        var message := MessageOrUnknown(LoadFailure(outcome));
        notifications := notifications + [Notification("Problem updating: " + message, Error)];
        data := None;
        errorMessage := Some(message);
      }
      loading := false;
    }

    /** handleValueChange(name): only field `name` of the data changes, to the event's value. */
    method HandleValueChange(name: string, event: InputEvent)
      modifies this
      ensures data == Some(WithField(old(data), name, ExtractEventValue(event)))
      ensures loading == old(loading) && errorMessage == old(errorMessage) && notifications == old(notifications)
    {
      data := Some(WithField(data, name, ExtractEventValue(event)));
    }
  }

  /** The message of the error a failed request is caught with: the status for a non-200, else the rejection's own. */
  function LoadFailure(outcome: FetchOutcome<JsObject>): (message: string)
    ensures outcome.Response? && outcome.status != 200 ==> message == InvalidStatusCode(outcome.status)
    ensures outcome.Rejected? ==> message == outcome.message
  {
    match outcome
    case Rejected(message) => message
    case Response(status, body) =>
      if status != 200 then InvalidStatusCode(status)
      else if body.Failure? then body.error
      else ""
  }

  /** A non-200 status is never reported with an empty message. */
  lemma InvalidStatusCodeNotEmpty(status: int)
    ensures MessageOrUnknown(InvalidStatusCode(status)) == InvalidStatusCode(status)
  {
  }

  // ---------------------------------------------------------------- scenarios

  /** Loading a resource whose GET answers 200 with a body: the body is shown, nothing is notified. */
  method LoadSucceeds(json: JsObject) returns (data: Option<JsObject>, loading: bool, errorMessage: Option<string>, notes: seq<Notification>)
    ensures data == Some(json) && !loading && errorMessage == None && notes == []
  {
    var c := new RestController();
    c.StartLoad();
    c.LoadSettled(Response(200, Ok(json)));
    data, loading, errorMessage, notes := c.data, c.loading, c.errorMessage, c.notifications;
  }

  /** Loading a resource whose GET answers another status: no data, the status as the error, one notification. */
  method LoadFailsWithStatus(status: int) returns (data: Option<JsObject>, loading: bool, errorMessage: Option<string>, notes: seq<Notification>)
    requires status != 200
    ensures data == None && !loading
    ensures errorMessage == Some(InvalidStatusCode(status))
    ensures notes == [Notification("Problem fetching: " + InvalidStatusCode(status), Error)]
  {
    var c := new RestController();
    c.StartLoad();
    c.LoadSettled(Response(status, Failure("")));
    InvalidStatusCodeNotEmpty(status);
    data, loading, errorMessage, notes := c.data, c.loading, c.errorMessage, c.notifications;
  }

  /** A rejection without a message is reported as "Unknown error". */
  method LoadRejectedWithoutMessage() returns (errorMessage: Option<string>, notes: seq<Notification>)
    ensures errorMessage == Some("Unknown error")
    ensures notes == [Notification("Problem fetching: Unknown error", Error)]
  {
    var c := new RestController();
    c.StartLoad();
    c.LoadSettled(Rejected(""));
    assert "Problem fetching: " + "Unknown error" == "Problem fetching: Unknown error";
    errorMessage, notes := c.errorMessage, c.notifications;
  }

  /** Editing a field and saving posts the loaded data with that one field replaced. */
  method EditThenSave(json: JsObject, name: string, event: InputEvent) returns (body: Option<JsObject>, loading: bool)
    ensures body == Some(json[name := ExtractEventValue(event)])
    ensures loading
  {
    var c := new RestController();
    c.StartLoad();
    c.LoadSettled(Response(200, Ok(json)));
    c.HandleValueChange(name, event);
    body := c.StartSave();
    loading := c.loading;
  }

  /** As written: after a loaded form's POST is rejected the controller keeps loading, with nothing notified. */
  method SaveRejectedKeepsLoading(json: JsObject, message: string) returns (data: Option<JsObject>, loading: bool, notes: seq<Notification>)
    ensures loading
    ensures data == Some(json) && notes == []
  {
    var c := new RestController();
    c.SetNewData(json);
    var body := c.StartSave();
    c.SaveSettled(Rejected(message));
    data, loading, notes := c.data, c.loading, c.notifications;
  }

  /** As intended: a rejected POST ends loading and is notified like any other failed update. */
  method SaveRejectedIntended(json: JsObject, message: string) returns (data: Option<JsObject>, loading: bool, errorMessage: Option<string>, notes: seq<Notification>)
    ensures !loading && data == None
    ensures errorMessage == Some(MessageOrUnknown(message))
    ensures notes == [Notification("Problem updating: " + MessageOrUnknown(message), Error)]
  {
    var c := new RestController();
    c.SetNewData(json);
    var body := c.StartSave();
    c.SaveSettledIntended(Rejected(message));
    data, loading, errorMessage, notes := c.data, c.loading, c.errorMessage, c.notifications;
  }
}
