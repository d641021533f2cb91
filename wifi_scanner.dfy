/**
 * The WiFi network scanner (wifi/WiFiNetworkScanner.tsx): a scan request
 * followed by a bounded series of polls, 500 ms apart, of the network list
 * endpoint. The module-level counter `pollCount` limits the series to
 * NUM_POLLS polls; a 202 from a poll means "not ready yet".
 */
module WiFiScanner {
  import opened Wrappers
  import opened Js

  const NUM_POLLS: nat := 10
  const POLLING_FREQUENCY: nat := 500

  /** A scanned network; only the fields the scanner looks at. */
  datatype WiFiNetwork = WiFiNetwork(ssid: string, rssi: int)

  /** compareNetworks: the stronger signal (higher rssi) first. */
  function CompareNetworks(network1: WiFiNetwork, network2: WiFiNetwork): (r: int)
    ensures r == 1 <==> network1.rssi < network2.rssi
    ensures r == -1 <==> network1.rssi > network2.rssi
    ensures r == 0 <==> network1.rssi == network2.rssi
  {
    if network1.rssi < network2.rssi then 1
    else if network1.rssi > network2.rssi then -1
    else 0
  }

  /** compareNetworks orders every pair, is antisymmetric, and puts `a` first exactly when its signal is no weaker. */
  lemma CompareNetworksOrder(a: WiFiNetwork, b: WiFiNetwork)
    ensures CompareNetworks(a, b) == -CompareNetworks(b, a)
    ensures CompareNetworks(a, b) <= 0 <==> a.rssi >= b.rssi
  {
  }

  /** Sorting with compareNetworks lists the networks by descending rssi, and loses or adds none. */
  lemma SortedNetworksDescend(networks: seq<WiFiNetwork>)
    ensures var sorted := SortWith(networks, CompareNetworks);
      && multiset(sorted) == multiset(networks)
      && forall i | 0 <= i < |sorted| - 1 :: sorted[i].rssi >= sorted[i + 1].rssi
  {
    assert Total(CompareNetworks) by {
      forall a: WiFiNetwork, b: WiFiNetwork ensures CompareNetworks(a, b) <= 0 || CompareNetworks(b, a) <= 0 {
        CompareNetworksOrder(a, b);
      }
    }
    SortWithSorted(networks, CompareNetworks);
  }

  /** `"Scanning for networks returned unexpected response code: " + status`. */
  function UnexpectedScanStatus(status: int): string
  {
    "Scanning for networks returned unexpected response code: " + NumberToString(Num(status))
  }

  /** `"Device returned unexpected response code: " + status`. */
  function UnexpectedPollStatus(status: int): string
  {
    "Device returned unexpected response code: " + NumberToString(Num(status))
  }

  const TIMED_OUT := "Device did not return network list in timely manner."

  class Scanner {
    /** The module-level `let pollCount`. */
    var pollCount: nat
    var scanningForNetworks: bool
    var networkList: Option<seq<WiFiNetwork>>
    var errorMessage: Option<string>
    var notifications: seq<Notification>
    /** Poll timers set by schedulePollTimeout that have not fired yet. */
    var pendingPolls: nat

    /** The state before the first scan. */
    constructor ()
      ensures pollCount == 0 && !scanningForNetworks && networkList == None && errorMessage == None
      ensures notifications == [] && pendingPolls == 0
    {
      pollCount := 0;
      scanningForNetworks := false;
      networkList := None;
      errorMessage := None;
      notifications := [];
      pendingPolls := 0;
    }

    /** The catch of both requests: notify, keep the message, drop the list, stop scanning. */
    method Fail(message: string)
      modifies this
      ensures notifications == old(notifications) + [Notification("Problem scanning: " + message, Error)]
      ensures errorMessage == Some(message) && networkList == None && !scanningForNetworks
      ensures pollCount == old(pollCount) && pendingPolls == old(pendingPolls)
    {
      notifications := notifications + [Notification("Problem scanning: " + message, Error)];
      errorMessage := Some(message);
      networkList := None;
      scanningForNetworks := false;
    }

    /** The synchronous part of scanNetworks: the poll counter restarts, scanning, no list, no error. */
    method ScanNetworks()
      modifies this
      ensures pollCount == 0 && scanningForNetworks && networkList == None && errorMessage == None
      ensures notifications == old(notifications) && pendingPolls == old(pendingPolls)
    {
      pollCount := 0;
      scanningForNetworks := true;
      networkList := None;
      errorMessage := None;
    }

    /** The scan request settles: a 202 schedules one poll; anything else ends the scan with its error. */
    method ScanSettled(outcome: FetchOutcome<()>)
      modifies this
      ensures outcome.Response? && outcome.status == 202 ==>
        && pendingPolls == old(pendingPolls) + 1
        && pollCount == old(pollCount) && scanningForNetworks == old(scanningForNetworks)
        && networkList == old(networkList) && errorMessage == old(errorMessage) && notifications == old(notifications)
      ensures !(outcome.Response? && outcome.status == 202) ==>
        var message := if outcome.Response? then UnexpectedScanStatus(outcome.status) else outcome.message;
        && notifications == old(notifications) + [Notification("Problem scanning: " + message, Error)]
        && errorMessage == Some(message) && networkList == None && !scanningForNetworks
        && pollCount == old(pollCount) && pendingPolls == old(pendingPolls)
    {
      if outcome.Response? && outcome.status == 202 {
        pendingPolls := pendingPolls + 1;
      } else if outcome.Response? {
        Fail(UnexpectedScanStatus(outcome.status));
      } else {
        Fail(outcome.message);
      }
    }

    /**
     * A poll timer fires and its request settles. A 200 stores the networks
     * sorted by compareNetworks and ends the scan; a 202 counts the poll and
     * schedules the next one while fewer than NUM_POLLS were made, changing
     * nothing else, and otherwise ends the scan as timed out; any other status,
     * an unreadable body or a rejected fetch ends the scan with its error.
     */
    method Poll(outcome: FetchOutcome<seq<WiFiNetwork>>)
      requires pendingPolls > 0
      modifies this
      ensures outcome.Response? && outcome.status == 202 ==> pollCount == old(pollCount) + 1
      ensures !(outcome.Response? && outcome.status == 202) ==> pollCount == old(pollCount)
      ensures outcome.Response? && outcome.status == 202 && pollCount < NUM_POLLS ==>
        && pendingPolls == old(pendingPolls)
        && scanningForNetworks == old(scanningForNetworks) && networkList == old(networkList)
        && errorMessage == old(errorMessage) && notifications == old(notifications)
      ensures outcome.Response? && outcome.status == 200 && outcome.body.Ok? ==>
        && networkList == Some(SortWith(outcome.body.value, CompareNetworks))
        && errorMessage == None && !scanningForNetworks
        && notifications == old(notifications) && pendingPolls == old(pendingPolls) - 1
      ensures PollFailure(outcome, pollCount).Some? ==>
        var message := PollFailure(outcome, pollCount).value;
        && notifications == old(notifications) + [Notification("Problem scanning: " + message, Error)]
        && errorMessage == Some(message) && networkList == None && !scanningForNetworks
        && pendingPolls == old(pendingPolls) - 1
    {
      pendingPolls := pendingPolls - 1;
      if outcome.Response? && outcome.status == 202 {
        pollCount := pollCount + 1;
      }
      var failure := PollFailure(outcome, pollCount);
      if failure.Some? {
        Fail(failure.value);
      } else if outcome.Response? && outcome.status == 202 {
        pendingPolls := pendingPolls + 1;
      } else {
        networkList := Some(SortWith(outcome.body.value, CompareNetworks));
        errorMessage := None;
        scanningForNetworks := false;
      }
    }

    /** requestNetworkScan: a new scan only when none is running. */
    method RequestNetworkScan()
      modifies this
      ensures old(scanningForNetworks) ==>
        && pollCount == old(pollCount) && scanningForNetworks && networkList == old(networkList)
        && errorMessage == old(errorMessage) && notifications == old(notifications)
      ensures !old(scanningForNetworks) ==>
        pollCount == 0 && scanningForNetworks && networkList == None && errorMessage == None
        && notifications == old(notifications)
      ensures pendingPolls == old(pendingPolls)
    {
      if !scanningForNetworks {
        ScanNetworks();
      }
    }
  }

  /**
   * The error a settled poll ends the scan with, given the counter after the
   * poll; None when the poll stores the list or schedules another poll.
   */
  function PollFailure(outcome: FetchOutcome<seq<WiFiNetwork>>, pollCount: nat): (message: Option<string>)
    ensures outcome.Response? && outcome.status == 202 ==> (message.Some? <==> pollCount >= NUM_POLLS)
    ensures outcome.Response? && outcome.status == 200 ==> (message.Some? <==> outcome.body.Failure?)
    ensures outcome.Rejected? ==> message == Some(outcome.message)
    ensures outcome.Response? && outcome.status != 200 && outcome.status != 202 ==>
      message == Some(UnexpectedPollStatus(outcome.status))
  {
    match outcome
    case Rejected(m) => Some(m)
    case Response(status, body) =>
      if status == 200 then (if body.Failure? then Some(body.error) else None)
      else if status == 202 then (if pollCount < NUM_POLLS then None else Some(TIMED_OUT))
      else Some(UnexpectedPollStatus(status))
  }

  // ---------------------------------------------------------------- scenarios

  /**
   * A device that answers the scan with 202 and every poll with 202: exactly
   * NUM_POLLS polls are made, then the scan ends as timed out with one
   * notification and no list.
   */
  method AlwaysNotReady() returns (polls: nat, scanning: bool, errorMessage: Option<string>, notes: seq<Notification>)
    ensures polls == NUM_POLLS
    ensures !scanning && errorMessage == Some(TIMED_OUT)
    ensures notes == [Notification("Problem scanning: " + TIMED_OUT, Error)]
  {
    var s := new Scanner();
    s.RequestNetworkScan();
    s.ScanSettled(Response(202, Ok(())));
    polls := 0;
    while s.pendingPolls > 0
      invariant s.pollCount == polls <= NUM_POLLS
      invariant s.pendingPolls == if polls < NUM_POLLS then 1 else 0
      invariant polls < NUM_POLLS ==> s.scanningForNetworks && s.errorMessage == None && s.notifications == []
      invariant polls == NUM_POLLS ==>
        && !s.scanningForNetworks && s.errorMessage == Some(TIMED_OUT)
        && s.notifications == [Notification("Problem scanning: " + TIMED_OUT, Error)]
      decreases NUM_POLLS - polls
    {
      s.Poll(Response(202, Failure("")));
      polls := polls + 1;
    }
    scanning, errorMessage, notes := s.scanningForNetworks, s.errorMessage, s.notifications;
  }

  /** A device that returns the list on the first poll: the list is shown strongest first and nothing is notified. */
  method ReadyAtFirstPoll(networks: seq<WiFiNetwork>) returns (list: Option<seq<WiFiNetwork>>, scanning: bool, notes: seq<Notification>)
    ensures list.Some? && multiset(list.value) == multiset(networks)
    ensures forall i | 0 <= i < |list.value| - 1 :: list.value[i].rssi >= list.value[i + 1].rssi
    ensures !scanning && notes == []
  {
    var s := new Scanner();
    s.RequestNetworkScan();
    s.ScanSettled(Response(202, Ok(())));
    s.Poll(Response(200, Ok(networks)));
    SortedNetworksDescend(networks);
    list, scanning, notes := s.networkList, s.scanningForNetworks, s.notifications;
  }

  /** A scan request answered with another status ends the scan at once, naming the status. */
  method ScanRefused(status: int) returns (scanning: bool, errorMessage: Option<string>, pendingPolls: nat)
    requires status != 202
    ensures !scanning && errorMessage == Some(UnexpectedScanStatus(status)) && pendingPolls == 0
  {
    var s := new Scanner();
    s.RequestNetworkScan();
    s.ScanSettled(Response(status, Ok(())));
    scanning, errorMessage, pendingPolls := s.scanningForNetworks, s.errorMessage, s.pendingPolls;
  }

  /** While a scan runs, requesting another one changes nothing: the poll counter is not reset. */
  method RequestWhileScanning() returns (pollCount: nat, pendingPolls: nat)
    ensures pollCount == 1 && pendingPolls == 1
  {
    var s := new Scanner();
    s.RequestNetworkScan();
    s.ScanSettled(Response(202, Ok(())));
    s.Poll(Response(202, Failure("")));
    s.RequestNetworkScan();
    pollCount, pendingPolls := s.pollCount, s.pendingPolls;
  }
}
