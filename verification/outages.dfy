/** One check cycle of the monitor: a probe result is classified against the
    outage that is currently open for the service, producing the events the
    engine emits and the open outage that storage holds afterwards. */
module Outages {
  import opened Wrappers

  type ServiceId = string

  /** The configuration of a monitored service. Host and url are opaque to the
      engine and are not modelled. Intervals are in milliseconds. */
  datatype Service = Service(
    id: ServiceId,
    interval: nat,
    failureInterval: nat,
    warningThreshold: int)

  /** What the prober reports for one attempt; `error` is null on success and
      `latency` is the time the engine measured around the probe. */
  datatype ProbeResult = ProbeResult(error: Option<string>, body: Option<string>, latency: nat) {
    predicate Failed() {
      error.Some?
    }
  }

  /** An open outage record: when the failure episode started and the last error seen. */
  datatype Outage = Outage(timestamp: int, error: string)

  /** The names listeners subscribe to; `Text` is the name as the engine spells it. */
  datatype EventName = NewOutageName | CurrentOutageName | ServiceBackName | ServiceOkName | LatencyWarningName | PingName {
    function Text(): string {
      match this
      case NewOutageName => "new-outage"
      case CurrentOutageName => "current-outage"
      case ServiceBackName => "service-back"
      case ServiceOkName => "service-ok"
      case LatencyWarningName => "latency-warning"
      case PingName => "ping"
    }
  }

  /** The events the engine emits, each with the data its listeners receive. */
  datatype Event =
    | NewOutage(outage: Outage)
    | CurrentOutage(outage: Outage)
    | ServiceBack(outage: Outage)
    | ServiceOk(elapsedTime: nat, body: Option<string>)
    | LatencyWarning(elapsedTime: nat)
    | Ping(elapsedTime: nat, error: Option<string>, body: Option<string>)
  {
    /** The name a listener subscribes to. */
    function Name(): EventName {
      match this
      case NewOutage(_) => NewOutageName
      case CurrentOutage(_) => CurrentOutageName
      case ServiceBack(_) => ServiceBackName
      case ServiceOk(_, _) => ServiceOkName
      case LatencyWarning(_) => LatencyWarningName
      case Ping(_, _, _) => PingName
    }
  }

  /** The outcome of one check: the events emitted, in order, and the outage
      left open in storage (None when the service is up). */
  datatype CheckOutcome = CheckOutcome(events: seq<Event>, open: Option<Outage>)

  /** The events a listener registered for `name` receives, in emission order. */
  function Heard(events: seq<Event>, name: EventName): (r: seq<Event>)
    ensures |r| <= |events|
    ensures forall i :: 0 <= i < |r| ==> r[i].Name() == name && r[i] in events
  {
    if |events| == 0 then []
    else (if events[0].Name() == name then [events[0]] else []) + Heard(events[1..], name)
  }

  lemma {:induction false} HeardAppend(a: seq<Event>, b: seq<Event>, name: EventName)
    ensures Heard(a + b, name) == Heard(a, name) + Heard(b, name)
  {
    if |a| == 0 {
      assert a + b == b;
    } else {
      assert (a + b)[1..] == a[1..] + b;
      HeardAppend(a[1..], b, name);
    }
  }

  /** A listener hears a single event exactly when it subscribed to its name. */
  lemma HeardOne(e: Event, name: EventName)
    ensures Heard([e], name) == if e.Name() == name then [e] else []
  {
    assert [e][1..] == [];
  }

  /** The open outage after the check: a failure opens one starting at this
      check or keeps the open one's start with the newest error; a success
      closes it. */
  function OpenAfter(probe: ProbeResult, timestamp: int, current: Option<Outage>): Option<Outage> {
    match probe.error
    case None => None
    case Some(err) =>
      match current
      case None => Some(Outage(timestamp, err))
      case Some(o) => Some(Outage(o.timestamp, err))
  }

  /** The event that reports the service's state, before any warning and the ping. */
  function StatusEvent(probe: ProbeResult, timestamp: int, current: Option<Outage>): Event {
    match probe.error
    case Some(err) =>
      (match current
       case None => NewOutage(Outage(timestamp, err))
       case Some(o) => CurrentOutage(Outage(o.timestamp, err)))
    case None =>
      (match current
       case Some(o) => ServiceBack(o)
       case None => ServiceOk(probe.latency, probe.body))
  }

  /** The latency warning of a successful check that took longer than the threshold. */
  function Warnings(service: Service, probe: ProbeResult): seq<Event> {
    if !probe.Failed() && probe.latency > service.warningThreshold then [LatencyWarning(probe.latency)] else []
  }

  /** Classifies one check of `service` made at `timestamp`, given the outage
      currently open in storage. */
  function Classify(service: Service, probe: ProbeResult, timestamp: int, current: Option<Outage>): (r: CheckOutcome)
    // the ping that reports the measured latency is always emitted, last
    ensures |r.events| > 0 && r.events[|r.events| - 1] == Ping(probe.latency, probe.error, probe.body)
    // storage holds an open outage exactly when this check failed
    ensures r.open.Some? <==> probe.Failed()
    ensures probe.Failed() ==> r.open.value.error == probe.error.value
    ensures probe.Failed() ==> r.open.value.timestamp == (if current.Some? then current.value.timestamp else timestamp)
  {
    var status := StatusEvent(probe, timestamp, current);
    var ping := Ping(probe.latency, probe.error, probe.body);
    CheckOutcome([status] + Warnings(service, probe) + [ping], OpenAfter(probe, timestamp, current))
  }

  /** What a listener for `name` hears of one check. */
  lemma HeardOfCheck(service: Service, probe: ProbeResult, timestamp: int, current: Option<Outage>, name: EventName)
    ensures Heard(Classify(service, probe, timestamp, current).events, name) ==
      (var status := StatusEvent(probe, timestamp, current);
       (if status.Name() == name then [status] else []) + Heard(Warnings(service, probe), name)
         + (if name == PingName then [Ping(probe.latency, probe.error, probe.body)] else []))
  {
    HeardSplit(StatusEvent(probe, timestamp, current), Warnings(service, probe),
      Ping(probe.latency, probe.error, probe.body), name);
  }

  /** Every check is heard exactly once by "ping" listeners, with the measured latency. */
  lemma PingAlwaysHeard(service: Service, probe: ProbeResult, timestamp: int, current: Option<Outage>)
    ensures Heard(Classify(service, probe, timestamp, current).events, PingName) == [Ping(probe.latency, probe.error, probe.body)]
  {
    HeardOfCheck(service, probe, timestamp, current, PingName);
  }

  /** The latency warning part of a check is heard only by "latency-warning" listeners. */
  lemma WarningsAreOnlyWarnings(service: Service, probe: ProbeResult, name: EventName)
    requires name != LatencyWarningName
    ensures Heard(Warnings(service, probe), name) == []
  {
    if Warnings(service, probe) != [] {
      HeardOne(LatencyWarning(probe.latency), name);
    }
  }

  /** Each check is heard by exactly one of the four status listeners
      ("new-outage", "current-outage", "service-ok", "service-back"), which
      hears its status event once; the other three hear nothing of it. */
  lemma OneStatusPerCheck(service: Service, probe: ProbeResult, timestamp: int, current: Option<Outage>, name: EventName)
    requires name != LatencyWarningName && name != PingName
    ensures Heard(Classify(service, probe, timestamp, current).events, name) ==
      (if StatusEvent(probe, timestamp, current).Name() == name then [StatusEvent(probe, timestamp, current)] else [])
  {
    HeardOfCheck(service, probe, timestamp, current, name);
    WarningsAreOnlyWarnings(service, probe, name);
  }

  /** A failure with no open outage is a "new-outage" starting at the check's
      time, and never a "current-outage", "service-ok" or "service-back". */
  lemma FirstFailureIsNewOutage(service: Service, probe: ProbeResult, timestamp: int)
    requires probe.Failed()
    ensures Heard(Classify(service, probe, timestamp, None).events, NewOutageName) == [NewOutage(Outage(timestamp, probe.error.value))]
    ensures Heard(Classify(service, probe, timestamp, None).events, CurrentOutageName) == []
    ensures Heard(Classify(service, probe, timestamp, None).events, ServiceOkName) == []
    ensures Heard(Classify(service, probe, timestamp, None).events, ServiceBackName) == []
  {
    OneStatusPerCheck(service, probe, timestamp, None, NewOutageName);
    OneStatusPerCheck(service, probe, timestamp, None, CurrentOutageName);
    OneStatusPerCheck(service, probe, timestamp, None, ServiceOkName);
    OneStatusPerCheck(service, probe, timestamp, None, ServiceBackName);
  }

  /** A failure while an outage is open is a "current-outage" that keeps the
      open outage's start and reports the newest error, and never a
      "new-outage", "service-ok" or "service-back". */
  lemma RepeatedFailureIsCurrentOutage(service: Service, probe: ProbeResult, timestamp: int, open: Outage)
    requires probe.Failed()
    ensures Heard(Classify(service, probe, timestamp, Some(open)).events, CurrentOutageName) == [CurrentOutage(Outage(open.timestamp, probe.error.value))]
    ensures Heard(Classify(service, probe, timestamp, Some(open)).events, NewOutageName) == []
    ensures Heard(Classify(service, probe, timestamp, Some(open)).events, ServiceOkName) == []
    ensures Heard(Classify(service, probe, timestamp, Some(open)).events, ServiceBackName) == []
  {
    OneStatusPerCheck(service, probe, timestamp, Some(open), CurrentOutageName);
    OneStatusPerCheck(service, probe, timestamp, Some(open), NewOutageName);
    OneStatusPerCheck(service, probe, timestamp, Some(open), ServiceOkName);
    OneStatusPerCheck(service, probe, timestamp, Some(open), ServiceBackName);
  }

  /** A success with no open outage is a "service-ok" carrying the measured
      latency and the body, and never a "service-back", "new-outage" or
      "current-outage". */
  lemma SuccessIsServiceOk(service: Service, probe: ProbeResult, timestamp: int)
    requires !probe.Failed()
    ensures Heard(Classify(service, probe, timestamp, None).events, ServiceOkName) == [ServiceOk(probe.latency, probe.body)]
    ensures Heard(Classify(service, probe, timestamp, None).events, ServiceBackName) == []
    ensures Heard(Classify(service, probe, timestamp, None).events, NewOutageName) == []
    ensures Heard(Classify(service, probe, timestamp, None).events, CurrentOutageName) == []
  {
    OneStatusPerCheck(service, probe, timestamp, None, ServiceOkName);
    OneStatusPerCheck(service, probe, timestamp, None, ServiceBackName);
    OneStatusPerCheck(service, probe, timestamp, None, NewOutageName);
    OneStatusPerCheck(service, probe, timestamp, None, CurrentOutageName);
  }

  /** A success while an outage is open is a "service-back" carrying the open
      outage's record, and never a "service-ok", "new-outage" or
      "current-outage"; afterwards no outage is open. */
  lemma SuccessAfterOutageIsServiceBack(service: Service, probe: ProbeResult, timestamp: int, open: Outage)
    requires !probe.Failed()
    ensures Heard(Classify(service, probe, timestamp, Some(open)).events, ServiceBackName) == [ServiceBack(open)]
    ensures Heard(Classify(service, probe, timestamp, Some(open)).events, ServiceOkName) == []
    ensures Heard(Classify(service, probe, timestamp, Some(open)).events, NewOutageName) == []
    ensures Heard(Classify(service, probe, timestamp, Some(open)).events, CurrentOutageName) == []
    ensures Classify(service, probe, timestamp, Some(open)).open == None
  {
    OneStatusPerCheck(service, probe, timestamp, Some(open), ServiceBackName);
    OneStatusPerCheck(service, probe, timestamp, Some(open), ServiceOkName);
    OneStatusPerCheck(service, probe, timestamp, Some(open), NewOutageName);
    OneStatusPerCheck(service, probe, timestamp, Some(open), CurrentOutageName);
  }

  /** A successful check is warned about, with its measured latency, exactly
      when the latency exceeds the service's threshold; the warning comes in
      addition to the "service-ok" or "service-back" event. */
  lemma SlowSuccessWarns(service: Service, probe: ProbeResult, timestamp: int, current: Option<Outage>)
    requires !probe.Failed()
    ensures probe.latency > service.warningThreshold ==>
      Heard(Classify(service, probe, timestamp, current).events, LatencyWarningName) == [LatencyWarning(probe.latency)]
    ensures probe.latency <= service.warningThreshold ==>
      Heard(Classify(service, probe, timestamp, current).events, LatencyWarningName) == []
  {
    HeardOfCheck(service, probe, timestamp, current, LatencyWarningName);
    HeardOne(LatencyWarning(probe.latency), LatencyWarningName);
  }

  /** What a listener hears of one check, split into the status event, the
      warnings and the ping. */
  lemma HeardSplit(status: Event, warnings: seq<Event>, ping: Event, name: EventName)
    ensures Heard([status] + warnings + [ping], name) ==
      (if status.Name() == name then [status] else []) + Heard(warnings, name)
        + (if ping.Name() == name then [ping] else [])
  {
    HeardAppend([status] + warnings, [ping], name);
    HeardAppend([status], warnings, name);
    HeardOne(status, name);
    HeardOne(ping, name);
  }

  /** The engine's ping(task): one check whose time is the task's timestamp
      when it gives one, and the current clock otherwise. */
  function PingTask(service: Service, requested: Option<int>, now: int, probe: ProbeResult, current: Option<Outage>): (r: CheckOutcome)
    ensures requested.Some? && probe.Failed() && current.None? ==> r.open == Some(Outage(requested.value, probe.error.value))
    ensures requested.None? && probe.Failed() && current.None? ==> r.open == Some(Outage(now, probe.error.value))
  {
    Classify(service, probe, match requested case Some(t) => t case None => now, current)
  }

  /** A ping task's first failure is heard once as a "new-outage" carrying the
      task's timestamp, or the clock's time when the task gives none. */
  lemma PingTaskFirstFailure(service: Service, requested: Option<int>, now: int, probe: ProbeResult)
    requires probe.Failed()
    ensures requested.Some? ==>
      Heard(PingTask(service, requested, now, probe, None).events, NewOutageName) == [NewOutage(Outage(requested.value, probe.error.value))]
    ensures requested.None? ==>
      Heard(PingTask(service, requested, now, probe, None).events, NewOutageName) == [NewOutage(Outage(now, probe.error.value))]
  {
    FirstFailureIsNewOutage(service, probe, match requested case Some(t) => t case None => now);
  }

  /** Listeners subscribe by distinct names: two event names spelled the same
      way are the same name, so hearing by `EventName` is hearing by the
      engine's string. */
  lemma EventNamesAreDistinct(a: EventName, b: EventName)
    ensures a.Text() == b.Text() <==> a == b
  {
  }
}
