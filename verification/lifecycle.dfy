/** The engine's service registry and its lifecycle operations. Which services
    are running is the only state the operations change; starting a service
    hands it to the scheduler for an immediate first check, which the model
    records as a launch of its id. */
module Lifecycle {
  import opened Wrappers
  import opened Outages

  /** Raised, at the call site, by start and stop. */
  datatype LifecycleError = InvalidServiceId(id: Option<ServiceId>)

  /** The services the engine was built with, in order, and whether each id is running. */
  datatype Registry = Registry(services: seq<Service>, running: map<ServiceId, bool>) {

    /** Exactly the ids of the configured services have a running flag. */
    ghost predicate Valid() {
      running.Keys == Ids(services)
    }
  }

  /** What a start operation leaves behind: the new registry and the ids
      whose first check was launched. */
  datatype Started = Started(registry: Registry, launched: seq<ServiceId>)

  function Ids(services: seq<Service>): set<ServiceId> {
    set i | 0 <= i < |services| :: services[i].id
  }

  /** Builds the engine over `services`; nothing is started. */
  function Construct(services: seq<Service>): (w: Registry)
    ensures w.Valid()
    ensures w.services == services
    ensures forall s :: s in services ==> s.id in w.running && !w.running[s.id]
  {
    Registry(services, map id | id in Ids(services) :: false)
  }

  /** start and stop accept an id only when it is given, not empty and registered. */
  predicate Accepts(w: Registry, id: Option<ServiceId>) {
    id.Some? && id.value != "" && id.value in w.running
  }

  /** Marks `id` running and launches its first check, unless it already runs. */
  function Activate(w: Registry, id: ServiceId): (s: Started)
    requires id in w.running
    ensures s.registry.services == w.services
    ensures s.registry.running == w.running[id := true]
    ensures s.launched == (if w.running[id] then [] else [id])
  {
    if w.running[id] then Started(w, [])
    else Started(w.(running := w.running[id := true]), [id])
  }

  /** start(id): fails on a missing, empty or unknown id; otherwise the
      service runs afterwards, a stopped service gets its first check launched,
      and no other service changes. */
  function Start(w: Registry, id: Option<ServiceId>): (r: Result<Started, LifecycleError>)
    ensures r.Failure? <==> !Accepts(w, id)
    ensures r.Failure? ==> r.error == InvalidServiceId(id)
    ensures w.Valid() && r.Success? ==> r.value.registry.Valid()
    ensures r.Success? ==> r.value.registry.services == w.services
    ensures r.Success? ==> r.value.registry.running.Keys == w.running.Keys
    ensures r.Success? ==> r.value.registry.running[id.value]
    ensures r.Success? ==> forall other :: other in w.running && other != id.value ==>
      r.value.registry.running[other] == w.running[other]
    ensures r.Success? ==> (r.value.launched == [id.value] <==> !w.running[id.value])
    ensures r.Success? ==> (r.value.launched == [] <==> w.running[id.value])
  {
    if !Accepts(w, id) then Failure(InvalidServiceId(id))
    else Success(Activate(w, id.value))
  }

  /** stop(id): fails on a missing, empty or unknown id; otherwise the service
      is not running afterwards and no other service changes. */
  function Stop(w: Registry, id: Option<ServiceId>): (r: Result<Registry, LifecycleError>)
    ensures r.Failure? <==> !Accepts(w, id)
    ensures r.Failure? ==> r.error == InvalidServiceId(id)
    ensures w.Valid() && r.Success? ==> r.value.Valid()
    ensures r.Success? ==> r.value.services == w.services
    ensures r.Success? ==> r.value.running.Keys == w.running.Keys
    ensures r.Success? ==> !r.value.running[id.value]
    ensures r.Success? ==> forall other :: other in w.running && other != id.value ==>
      r.value.running[other] == w.running[other]
  {
    if !Accepts(w, id) then Failure(InvalidServiceId(id))
    else Success(w.(running := w.running[id.value := false]))
  }

  /** stopAll(): every registered service is stopped; never fails. */
  function StopAll(w: Registry): (r: Registry)
    ensures w.Valid() ==> r.Valid()
    ensures r.services == w.services
    ensures r.running.Keys == w.running.Keys
    ensures forall id :: id in r.running ==> !r.running[id]
  {
    w.(running := map id | id in w.running :: false)
  }

  /** startAll(): every registered service runs afterwards; each service that
      was stopped gets exactly one first check launched and no running service
      gets another. An empty registry launches nothing. */
  method StartAll(w: Registry) returns (s: Started)
    requires w.Valid()
    ensures s.registry.Valid()
    ensures s.registry.services == w.services
    ensures s.registry.running.Keys == w.running.Keys
    ensures forall id :: id in s.registry.running ==> s.registry.running[id]
    ensures forall id :: id in s.launched <==> id in w.running && !w.running[id]
    ensures forall i, j :: 0 <= i < j < |s.launched| ==> s.launched[i] != s.launched[j]
    ensures |s.launched| <= |w.services|
    ensures |w.services| == 0 ==> s == Started(w, [])
  {
    var current := w;
    var launched: seq<ServiceId> := [];
    var k := 0;
    while k < |w.services|
      invariant 0 <= k <= |w.services|
      invariant current.services == w.services
      invariant current.running.Keys == w.running.Keys
      invariant forall j :: 0 <= j < k ==> current.running[w.services[j].id]
      invariant forall id :: id in current.running && current.running[id] && !w.running[id] ==>
        exists j :: 0 <= j < k && w.services[j].id == id
      invariant forall id :: id in current.running && w.running[id] ==> current.running[id]
      invariant forall id :: id in launched <==> id in w.running && !w.running[id] && current.running[id]
      invariant forall i, j :: 0 <= i < j < |launched| ==> launched[i] != launched[j]
      invariant |launched| <= k
      invariant k == 0 ==> current == w && launched == []
    {
      var id := w.services[k].id;
      assert id in Ids(w.services);
      var step := Activate(current, id);
      current := step.registry;
      launched := launched + step.launched;
      k := k + 1;
    }
    s := Started(current, launched);
  }

  /** Stopping a service that start has just launched gives back the registry
      as it was before the start. */
  lemma StopUndoesStart(w: Registry, id: ServiceId)
    requires Accepts(w, Some(id)) && !w.running[id]
    ensures Start(w, Some(id)).Success?
    ensures Stop(Start(w, Some(id)).value.registry, Some(id)) == Success(w)
  {
    var started := Start(w, Some(id)).value.registry;
    assert started.running == w.running[id := true];
    assert started.running[id := false] == w.running;
  }

  /** Stopping is idempotent: stopping a stopped service changes nothing. */
  lemma StopIsIdempotent(w: Registry, id: Option<ServiceId>)
    requires Accepts(w, id)
    ensures Stop(w, id).Success?
    ensures Stop(Stop(w, id).value, id) == Stop(w, id)
  {
    var once := Stop(w, id).value;
    assert once.running[id.value := false] == once.running;
  }

  /** stopAll is idempotent, and after it every single stop is a no-op. */
  lemma StopAllIsIdempotent(w: Registry, id: Option<ServiceId>)
    ensures StopAll(StopAll(w)) == StopAll(w)
    ensures Accepts(w, id) ==> Stop(StopAll(w), id) == Success(StopAll(w))
  {
    var stopped := StopAll(w);
    assert StopAll(stopped).running == stopped.running;
    if Accepts(w, id) {
      assert stopped.running[id.value := false] == stopped.running;
    }
  }
}
