/** A sequence of check cycles of one service, with the open outage threaded
    from each check to the next the way storage carries it between cycles. */
module History {
  import opened Wrappers
  import opened Outages

  /** One check: when it started and what the prober reported. */
  datatype Check = Check(timestamp: int, probe: ProbeResult)

  /** Runs `checks` in order starting from the outage `open`; the result holds
      every event emitted, in order, and the outage open at the end. */
  function Run(service: Service, checks: seq<Check>, open: Option<Outage>): (r: CheckOutcome)
    // listeners for "ping" hear one ping per check
    ensures |Heard(r.events, PingName)| == |checks|
    // an outage is open at the end exactly when the last check failed
    ensures |checks| > 0 ==> (r.open.Some? <==> checks[|checks| - 1].probe.Failed())
    ensures |checks| == 0 ==> r.open == open
    decreases |checks|
  {
    if |checks| == 0 then CheckOutcome([], open)
    else
      var first := Classify(service, checks[0].probe, checks[0].timestamp, open);
      var rest := Run(service, checks[1..], first.open);
      PingAlwaysHeard(service, checks[0].probe, checks[0].timestamp, open);
      HeardAppend(first.events, rest.events, PingName);
      CheckOutcome(first.events + rest.events, rest.open)
  }

  /** Listeners for "ping" hear the checks in order, each ping carrying its
      check's measured latency, error and body. */
  lemma {:induction false} PingsFollowChecks(service: Service, checks: seq<Check>, open: Option<Outage>)
    ensures var pings := Heard(Run(service, checks, open).events, PingName);
      |pings| == |checks| &&
      forall i :: 0 <= i < |checks| ==> pings[i] == PingOf(checks[i])
    decreases |checks|
  {
    if |checks| > 0 {
      var c := checks[0];
      var first := Classify(service, c.probe, c.timestamp, open);
      var rest := Run(service, checks[1..], first.open);
      PingAlwaysHeard(service, c.probe, c.timestamp, open);
      HeardAppend(first.events, rest.events, PingName);
      PingsFollowChecks(service, checks[1..], first.open);
      var pings := Heard(Run(service, checks, open).events, PingName);
      assert pings == [PingOf(c)] + Heard(rest.events, PingName);
      forall i | 0 <= i < |checks|
        ensures pings[i] == PingOf(checks[i])
      {
        if i > 0 {
          assert checks[1..][i - 1] == checks[i];
        }
      }
    }
  }

  /** The ping event of a check. */
  function PingOf(c: Check): Event {
    Ping(c.probe.latency, c.probe.error, c.probe.body)
  }

  /** The start of the outage `o`, if any. */
  function StartOf(o: Option<Outage>): Option<int> {
    match o
    case None => None
    case Some(outage) => Some(outage.timestamp)
  }

  /** Reference definition, read from the newest check backwards: an outage is
      open when the newest check failed, and it started at the first failure of
      the trailing run of failures (or at `initial` when every check failed and
      an outage was already open before them). */
  function OpenSince(checks: seq<Check>, initial: Option<int>): Option<int>
    decreases |checks|
  {
    if |checks| == 0 then initial
    else
      var last := checks[|checks| - 1];
      if !last.probe.Failed() then None
      else
        match OpenSince(checks[..|checks| - 1], initial)
        case Some(start) => Some(start)
        case None => Some(last.timestamp)
  }

  /** Running one more check extends the run by that check's classification. */
  lemma {:induction false} RunSnoc(service: Service, checks: seq<Check>, c: Check, open: Option<Outage>)
    ensures Run(service, checks + [c], open) ==
      (var before := Run(service, checks, open);
       var step := Classify(service, c.probe, c.timestamp, before.open);
       CheckOutcome(before.events + step.events, step.open))
    decreases |checks|
  {
    if |checks| == 0 {
      assert checks + [c] == [c];
      RunSingle(service, c, open);
    } else {
      var first := Classify(service, checks[0].probe, checks[0].timestamp, open);
      assert (checks + [c])[1..] == checks[1..] + [c];
      RunSnoc(service, checks[1..], c, first.open);
      var mid := Run(service, checks[1..], first.open);
      var step := Classify(service, c.probe, c.timestamp, mid.open);
      assert first.events + (mid.events + step.events) == (first.events + mid.events) + step.events;
    }
  }

  /** A run of one check is that check's classification. */
  lemma RunSingle(service: Service, c: Check, open: Option<Outage>)
    ensures Run(service, [c], open) == Classify(service, c.probe, c.timestamp, open)
  {
    assert [c][1..] == [];
    var step := Classify(service, c.probe, c.timestamp, open);
    assert step.events + [] == step.events;
  }

  /** The outage the run leaves open started exactly where the reference
      definition says: consecutive failures never move an outage's start. */
  lemma {:induction false} RunKeepsOutageStart(service: Service, checks: seq<Check>, open: Option<Outage>)
    ensures StartOf(Run(service, checks, open).open) == OpenSince(checks, StartOf(open))
    decreases |checks|
  {
    if |checks| > 0 {
      var init := checks[..|checks| - 1];
      var last := checks[|checks| - 1];
      assert checks == init + [last];
      RunSnoc(service, init, last, open);
      RunKeepsOutageStart(service, init, open);
    }
  }

  /** The open outage's error is the error of the newest check. */
  lemma RunKeepsNewestError(service: Service, checks: seq<Check>, open: Option<Outage>)
    requires |checks| > 0 && checks[|checks| - 1].probe.Failed()
    ensures Run(service, checks, open).open.Some?
    ensures Run(service, checks, open).open.value.error == checks[|checks| - 1].probe.error.value
  {
    var init := checks[..|checks| - 1];
    var last := checks[|checks| - 1];
    assert checks == init + [last];
    RunSnoc(service, init, last, open);
  }

  /** Every outage opened is closed again or still open: the number of
      "new-outage" events plus an outage open beforehand equals the number of
      "service-back" events plus an outage still open at the end. */
  lemma {:induction false} OutagesBalance(service: Service, checks: seq<Check>, open: Option<Outage>)
    ensures var r := Run(service, checks, open);
      |Heard(r.events, NewOutageName)| + (if open.Some? then 1 else 0)
        == |Heard(r.events, ServiceBackName)| + (if r.open.Some? then 1 else 0)
    decreases |checks|
  {
    if |checks| > 0 {
      var c := checks[0];
      var first := Classify(service, c.probe, c.timestamp, open);
      var rest := Run(service, checks[1..], first.open);
      OutagesBalance(service, checks[1..], first.open);
      HeardAppend(first.events, rest.events, NewOutageName);
      HeardAppend(first.events, rest.events, ServiceBackName);
      CheckBalance(service, c, open);
    }
  }

  /** The balance for one check: it opens an outage only when none was open
      and closes one only when one was. */
  lemma CheckBalance(service: Service, c: Check, open: Option<Outage>)
    ensures var r := Classify(service, c.probe, c.timestamp, open);
      |Heard(r.events, NewOutageName)| + (if open.Some? then 1 else 0)
        == |Heard(r.events, ServiceBackName)| + (if r.open.Some? then 1 else 0)
  {
    HeardOfCheck(service, c.probe, c.timestamp, open, NewOutageName);
    HeardOfCheck(service, c.probe, c.timestamp, open, ServiceBackName);
    WarningsAreOnlyWarnings(service, c.probe, NewOutageName);
    WarningsAreOnlyWarnings(service, c.probe, ServiceBackName);
  }

  /** While an outage stays open, every failing check is a "current-outage"
      that carries the open outage's start, and none is a "new-outage". */
  lemma {:induction false} FailuresWhileOpen(service: Service, checks: seq<Check>, open: Outage)
    requires forall i :: 0 <= i < |checks| ==> checks[i].probe.error.Some?
    ensures var r := Run(service, checks, Some(open));
      && Heard(r.events, NewOutageName) == []
      && |Heard(r.events, CurrentOutageName)| == |checks|
      && forall i :: 0 <= i < |checks| ==>
           Heard(r.events, CurrentOutageName)[i] == CurrentOutage(Outage(open.timestamp, checks[i].probe.error.value))
    decreases |checks|
  {
    if |checks| > 0 {
      var c := checks[0];
      var first := Classify(service, c.probe, c.timestamp, Some(open));
      var next := Outage(open.timestamp, c.probe.error.value);
      assert first.open == Some(next);
      var rest := Run(service, checks[1..], first.open);
      FailuresWhileOpen(service, checks[1..], next);
      RepeatedFailureIsCurrentOutage(service, c.probe, c.timestamp, open);
      HeardAppend(first.events, rest.events, NewOutageName);
      HeardAppend(first.events, rest.events, CurrentOutageName);
    }
  }

  /** A run of failures from a healthy service: the first is a "new-outage" at
      its own time, every later one a "current-outage" carrying that first time. */
  lemma FailureRun(service: Service, checks: seq<Check>)
    requires |checks| > 0
    requires forall i :: 0 <= i < |checks| ==> checks[i].probe.error.Some?
    ensures var r := Run(service, checks, None);
      && Heard(r.events, NewOutageName) == [NewOutage(Outage(checks[0].timestamp, checks[0].probe.error.value))]
      && |Heard(r.events, CurrentOutageName)| == |checks| - 1
      && forall i :: 1 <= i < |checks| ==>
           Heard(r.events, CurrentOutageName)[i - 1] == CurrentOutage(Outage(checks[0].timestamp, checks[i].probe.error.value))
  {
    var c := checks[0];
    var first := Classify(service, c.probe, c.timestamp, None);
    var start := Outage(c.timestamp, c.probe.error.value);
    assert first.open == Some(start);
    var rest := Run(service, checks[1..], first.open);
    var r := Run(service, checks, None);
    assert r.events == first.events + rest.events;
    FailuresWhileOpen(service, checks[1..], start);
    FirstFailureIsNewOutage(service, c.probe, c.timestamp);
    HeardAppend(first.events, rest.events, NewOutageName);
    HeardAppend(first.events, rest.events, CurrentOutageName);
    var later := Heard(rest.events, CurrentOutageName);
    assert Heard(r.events, CurrentOutageName) == later;
    forall i | 1 <= i < |checks|
      ensures later[i - 1] == CurrentOutage(Outage(c.timestamp, checks[i].probe.error.value))
    {
      assert checks[1..][i - 1] == checks[i];
    }
  }
}
