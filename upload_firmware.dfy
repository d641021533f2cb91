/**
 * The firmware upload page (system/UploadFirmwareController.tsx): at most one
 * XMLHttpRequest at a time, its progress, and how its end is reported.
 * Requests are numbered in the order they are created.
 */
module UploadFirmware {
  import opened Wrappers
  import opened Js

  /** A ProgressEvent's counts. */
  datatype Progress = Progress(loaded: nat, total: nat)

  /** How an upload's promise settles: it resolves once the request completes with a status, or rejects with a named error. */
  datatype UploadOutcome = Completed(status: int) | Failed(errorName: string, message: string)

  /**
   * The notification for a settled upload, and whether the upload state is
   * cleared: 200 activates the firmware, another status is reported as
   * "Invalid status code: N", an AbortError only warns, an UploadError is
   * "Error during upload", and any other error is its message or "Unknown error".
   */
  function Report(outcome: UploadOutcome): (r: (Notification, bool))
    ensures outcome == Completed(200) ==> r == (Notification("Activating new firmware", Success), true)
    ensures outcome.Completed? && outcome.status != 200 ==>
      r == (Notification("Problem uploading: " + InvalidStatusCode(outcome.status), Error), true)
    ensures outcome.Failed? && outcome.errorName == "AbortError" ==> r == (Notification("Upload cancelled by user", Warning), false)
    ensures outcome.Failed? && outcome.errorName == "UploadError" ==> r == (Notification("Problem uploading: Error during upload", Error), true)
    ensures outcome.Failed? && outcome.errorName != "AbortError" && outcome.errorName != "UploadError" ==>
      r == (Notification("Problem uploading: " + MessageOrUnknown(outcome.message), Error), true)
  {
    match outcome
    case Completed(status) =>
      if status == 200 then (Notification("Activating new firmware", Success), true)
      else (Notification("Problem uploading: " + InvalidStatusCode(status), Error), true)
    case Failed(name, message) =>
      if name == "AbortError" then (Notification("Upload cancelled by user", Warning), false)
      else if name == "UploadError" then (Notification("Problem uploading: Error during upload", Error), true)
      else (Notification("Problem uploading: " + MessageOrUnknown(message), Error), true)
  }

  /** Only an abort leaves the state alone, and only an abort warns rather than fails or succeeds. */
  lemma ReportClearsUnlessAborted(outcome: UploadOutcome)
    ensures Report(outcome).1 <==> !(outcome.Failed? && outcome.errorName == "AbortError")
    ensures Report(outcome).0.variant == Warning <==> outcome.Failed? && outcome.errorName == "AbortError"
    ensures Report(outcome).0.variant == Success <==> outcome == Completed(200)
  {
  }

  class UploadController {
    /** The request in flight, if any. */
    var xhr: Option<nat>
    var progress: Option<Progress>
    var notifications: seq<Notification>
    /** How many requests have been created. */
    var requests: nat
    /** The requests aborted so far. */
    var aborted: set<nat>

    /** The request held is always one already created. */
    predicate Valid()
      reads this
    {
      xhr.Some? ==> xhr.value < requests
    }

    constructor ()
      ensures xhr == None && progress == None && notifications == [] && requests == 0 && aborted == {}
      ensures Valid()
    {
      xhr := None;
      progress := None;
      notifications := [];
      requests := 0;
      aborted := {};
    }

    /** The form shows "uploading" exactly while a request is held. */
    function Uploading(): (uploading: bool)
      reads this
      ensures uploading <==> xhr.Some?
    {
      xhr.Some?
    }

    /** uploadFile: ignored while a request is held; otherwise a new request is created and held. */
    method UploadFile()
      requires Valid()
      modifies this
      ensures Valid()
      ensures old(xhr).Some? ==> xhr == old(xhr) && requests == old(requests)
      ensures old(xhr).None? ==> xhr == Some(old(requests)) && requests == old(requests) + 1
      ensures progress == old(progress) && notifications == old(notifications) && aborted == old(aborted)
    {
      if xhr.Some? {
        return;
      }
      xhr := Some(requests);
      requests := requests + 1;
    }

    /** The upload's progress callback. */
    method ProgressReported(p: Progress)
      modifies this
      ensures progress == Some(p)
      ensures xhr == old(xhr) && notifications == old(notifications) && requests == old(requests) && aborted == old(aborted)
    {
      progress := Some(p);
    }

    /** The upload's promise settles: the report is notified and, unless it was an abort, progress and request are cleared. */
    method UploadSettled(outcome: UploadOutcome)
      requires Valid()
      modifies this
      ensures Valid()
      ensures notifications == old(notifications) + [Report(outcome).0]
      ensures Report(outcome).1 ==> xhr == None && progress == None
      ensures !Report(outcome).1 ==> xhr == old(xhr) && progress == old(progress)
      ensures requests == old(requests) && aborted == old(aborted)
    {
      var (notification, clear) := Report(outcome);
      notifications := notifications + [notification];
      if clear {
        progress := None;
        xhr := None;
      }
    }

    /** cancelUpload: while a request is held it is aborted and progress and request are cleared; otherwise nothing. */
    method CancelUpload()
      requires Valid()
      modifies this
      ensures Valid()
      ensures old(xhr).Some? ==> aborted == old(aborted) + {old(xhr).value} && xhr == None && progress == None
      ensures old(xhr).None? ==> aborted == old(aborted) && xhr == None && progress == old(progress)
      ensures notifications == old(notifications) && requests == old(requests)
    {
      if xhr.Some? {
        aborted := aborted + {xhr.value};
        progress := None;
        xhr := None;
      }
    }

    /** Unmounting the page aborts the request held, if any; nothing else changes. */
    method Unmount()
      modifies this
      ensures aborted == old(aborted) + (if old(xhr).Some? then {old(xhr).value} else {})
      ensures xhr == old(xhr) && progress == old(progress) && notifications == old(notifications) && requests == old(requests)
    {
      if xhr.Some? {
        aborted := aborted + {xhr.value};
      }
    }
  }

  // ---------------------------------------------------------------- scenarios

  /** Selecting a second file during an upload creates no second request. */
  method SecondFileIgnored() returns (requests: nat, uploading: bool)
    ensures requests == 1 && uploading
  {
    var c := new UploadController();
    c.UploadFile();
    c.UploadFile();
    requests, uploading := c.requests, c.Uploading();
  }

  /** A successful upload: progress shown while it runs, then activation announced and everything cleared. */
  method SuccessfulUpload(p: Progress) returns (during: Option<Progress>, uploading: bool, notes: seq<Notification>)
    ensures during == Some(p) && !uploading
    ensures notes == [Notification("Activating new firmware", Success)]
  {
    var c := new UploadController();
    c.UploadFile();
    c.ProgressReported(p);
    during := c.progress;
    c.UploadSettled(Completed(200));
    uploading, notes := c.Uploading(), c.notifications;
  }

  /** Cancelling aborts the request and clears the page at once; the abort then only warns. */
  method CancelThenAbortError(p: Progress, message: string)
    returns (aborted: set<nat>, uploading: bool, progress: Option<Progress>, notes: seq<Notification>)
    ensures aborted == {0} && !uploading && progress == None
    ensures notes == [Notification("Upload cancelled by user", Warning)]
  {
    var c := new UploadController();
    c.UploadFile();
    c.ProgressReported(p);
    c.CancelUpload();
    c.UploadSettled(Failed("AbortError", message));
    aborted, uploading, progress, notes := c.aborted, c.Uploading(), c.progress, c.notifications;
  }

  /** Cancelling with nothing uploading does nothing. */
  method CancelWhenIdle() returns (aborted: set<nat>, notes: seq<Notification>, requests: nat)
    ensures aborted == {} && notes == [] && requests == 0
  {
    var c := new UploadController();
    c.CancelUpload();
    aborted, notes, requests := c.aborted, c.notifications, c.requests;
  }

  /** A rejected status ends the upload with the status in the message, and a new file can then be uploaded. */
  method RejectedThenRetry(status: int) returns (notes: seq<Notification>, xhr: Option<nat>)
    requires status != 200
    ensures notes == [Notification("Problem uploading: " + InvalidStatusCode(status), Error)]
    ensures xhr == Some(1)
  {
    var c := new UploadController();
    c.UploadFile();
    c.UploadSettled(Completed(status));
    c.UploadFile();
    notes, xhr := c.notifications, c.xhr;
  }
}
