/** The service, probe responses and clock of the engine's test suite, and
    each test case restated over the model. */
module Fixture {
  import opened Wrappers
  import opened Outages
  import opened History
  import opened Lifecycle

  /** The fake clock's start, in milliseconds. */
  const InitialTime: int := 946684800

  const TestService: Service := Service("X34dF", 4 * 1000, 5 * 1000, 1500)

  const ErrorResponse: ProbeResult := ProbeResult(Some("mocked error"), None, 0)
  const SuccessResponse: ProbeResult := ProbeResult(None, Some("ok"), 300)
  const LatencyWarningResponse: ProbeResult := ProbeResult(None, Some("ok"), 1600)

  /** A first failing ping, with an explicit timestamp, is heard as a
      "new-outage" with the mocked error and that timestamp. */
  lemma FirstFailureScenario()
    ensures Heard(PingTask(TestService, Some(InitialTime), InitialTime, ErrorResponse, None).events, NewOutageName)
      == [NewOutage(Outage(InitialTime, "mocked error"))]
  {
    FirstFailureIsNewOutage(TestService, ErrorResponse, InitialTime);
  }

  /** Two failing pings in a row: the second is heard as a "current-outage"
      with the mocked error and the first failure's timestamp. */
  lemma SecondFailureScenario()
    ensures Heard(Run(TestService, [Check(InitialTime, ErrorResponse), Check(InitialTime, ErrorResponse)], None).events,
      CurrentOutageName) == [CurrentOutage(Outage(InitialTime, "mocked error"))]
  {
    var checks := [Check(InitialTime, ErrorResponse), Check(InitialTime, ErrorResponse)];
    FailureRun(TestService, checks);
  }

  /** A successful ping with no open outage is heard as "service-ok" with elapsed time 300. */
  lemma ServiceOkScenario()
    ensures Heard(PingTask(TestService, None, InitialTime, SuccessResponse, None).events, ServiceOkName)
      == [ServiceOk(300, Some("ok"))]
  {
    SuccessIsServiceOk(TestService, SuccessResponse, InitialTime);
  }

  /** Every ping is heard by "ping" listeners with elapsed time 300. */
  lemma PingScenario()
    ensures Heard(PingTask(TestService, None, InitialTime, SuccessResponse, None).events, PingName)
      == [Ping(300, None, Some("ok"))]
  {
    PingAlwaysHeard(TestService, SuccessResponse, InitialTime, None);
  }

  /** A successful ping while an outage opened at the initial time is open is
      heard as "service-back" carrying that initial time. */
  lemma ServiceBackScenario()
    ensures Heard(PingTask(TestService, None, InitialTime, SuccessResponse, Some(Outage(InitialTime, "some error"))).events,
      ServiceBackName) == [ServiceBack(Outage(InitialTime, "some error"))]
  {
    SuccessAfterOutageIsServiceBack(TestService, SuccessResponse, InitialTime, Outage(InitialTime, "some error"));
  }

  /** A successful ping taking 1600 against a threshold of 1500 is heard as a
      "latency-warning" with elapsed time 1600. */
  lemma LatencyWarningScenario()
    ensures Heard(PingTask(TestService, None, InitialTime, LatencyWarningResponse, None).events, LatencyWarningName)
      == [LatencyWarning(1600)]
  {
    SlowSuccessWarns(TestService, LatencyWarningResponse, InitialTime, None);
  }

  /** Starting the test service by id marks it running and launches its first
      check; stopping it by id, or stopping all, marks it stopped again. */
  lemma StartStopByIdScenario()
    ensures var w := Construct([TestService]);
      && Start(w, Some("X34dF")).Success?
      && Start(w, Some("X34dF")).value.launched == ["X34dF"]
      && Start(w, Some("X34dF")).value.registry.running["X34dF"]
      && Stop(Start(w, Some("X34dF")).value.registry, Some("X34dF")).Success?
      && !Stop(Start(w, Some("X34dF")).value.registry, Some("X34dF")).value.running["X34dF"]
      && !StopAll(Start(w, Some("X34dF")).value.registry).running["X34dF"]
  {
    var w := Construct([TestService]);
    assert TestService in [TestService];
  }

  /** start and stop without an id, or with an id nobody registered, fail. */
  lemma InvalidIdScenario()
    ensures var w := Construct([TestService]);
      && Start(w, None).Failure?
      && Start(w, Some("4444444")).Failure?
      && Stop(w, None).Failure?
      && Stop(w, Some("3333333")).Failure?
  {
    var w := Construct([TestService]);
    assert Ids([TestService]) == {"X34dF"};
  }

  /** startAll over the test service runs it and launches its first check. */
  method StartAllScenario() returns (s: Started)
    ensures s.launched == ["X34dF"]
    ensures "X34dF" in s.registry.running && s.registry.running["X34dF"]
  {
    var w := Construct([TestService]);
    assert Ids([TestService]) == {"X34dF"};
    s := StartAll(w);
    assert "X34dF" in s.launched;
    assert s.launched[0] in s.launched;
  }

  /** startAll and stopAll over no services succeed and launch nothing. */
  method EmptyRegistryScenario() returns (s: Started, stopped: Registry)
    ensures s.launched == []
    ensures stopped.running == map[]
  {
    var w := Construct([]);
    s := StartAll(w);
    stopped := StopAll(w);
  }
}
