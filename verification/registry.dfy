/**
  The subscription registry: the set of transition UUIDs whose
  "transition_start" and "destroy" handlers are attached. Attaching a
  handler pair is modelled as adding the UUID.
 */
module Registry {
  import opened Wrappers

  type Uuid = string

  /** A destroy signal for a UUID that is not registered (`del` raises `KeyError`). */
  datatype Fault = KeyError(uuid: Uuid)

  /** The registry after a resync, and the UUIDs whose handlers it attached, in order. */
  datatype Resynced = Resynced(registry: set<Uuid>, attached: seq<Uuid>)

  ghost predicate Distinct(us: seq<Uuid>)
  {
    forall i, j :: 0 <= i < j < |us| ==> us[i] != us[j]
  }

  /**
    Walks the live transitions in order and attaches handlers to each
    UUID not yet registered; registered UUIDs are left alone and nothing
    is ever removed.
   */
  function Resync(registry: set<Uuid>, live: seq<Uuid>): (r: Resynced)
    decreases |live|
    ensures r.registry == registry + set u | u in live
    ensures forall u :: u in r.attached <==> u in live && u !in registry
    ensures Distinct(r.attached)
  {
    if live == [] then Resynced(registry, [])
    else if live[0] in registry then
      var rest := Resync(registry, live[1..]);
      assert (set u | u in live) == {live[0]} + set u | u in live[1..];
      rest
    else
      var rest := Resync(registry + {live[0]}, live[1..]);
      assert (set u | u in live) == {live[0]} + set u | u in live[1..];
      Resynced(rest.registry, [live[0]] + rest.attached)
  }

  /** A second resync against the same live list changes nothing and attaches nothing. */
  lemma ResyncIdempotent(registry: set<Uuid>, live: seq<Uuid>)
    ensures var once := Resync(registry, live);
      Resync(once.registry, live) == Resynced(once.registry, [])
  {
    var once := Resync(registry, live);
    ResyncOfCovered(once.registry, live);
  }

  /** Resyncing UUIDs that are all registered attaches nothing. */
  lemma {:induction false} ResyncOfCovered(registry: set<Uuid>, live: seq<Uuid>)
    requires forall i :: 0 <= i < |live| ==> live[i] in registry
    ensures Resync(registry, live).attached == []
    decreases |live|
  {
    if live != [] {
      ResyncOfCovered(registry, live[1..]);
    }
  }

  /** Across two resyncs no UUID has its handlers attached twice. */
  lemma ResyncAttachesOnce(registry: set<Uuid>, live1: seq<Uuid>, live2: seq<Uuid>)
    ensures var first := Resync(registry, live1);
      forall u :: u in first.attached ==> u !in Resync(first.registry, live2).attached
  {
  }

  /**
    The destroy handler: removes exactly `uuid`, or fails with `KeyError`
    when it is not registered.
   */
  function Destroy(registry: set<Uuid>, uuid: Uuid): (r: Result<set<Uuid>, Fault>)
    ensures r.Failure? <==> uuid !in registry
    ensures r.Failure? ==> r.error == KeyError(uuid)
    ensures r.Success? ==> uuid !in r.value && |r.value| == |registry| - 1
    ensures r.Success? ==> forall u :: u != uuid ==> (u in r.value <==> u in registry)
  {
    if uuid in registry then Success(registry - {uuid}) else Failure(KeyError(uuid))
  }

  /** Destroying a registered UUID and resyncing it again restores the registry, re-attaching once. */
  lemma DestroyThenResync(registry: set<Uuid>, uuid: Uuid)
    requires uuid in registry
    ensures Destroy(registry, uuid).Success?
    ensures Resync(Destroy(registry, uuid).value, [uuid]) == Resynced(registry, [uuid])
  {
    var rest := Destroy(registry, uuid).value;
    assert [uuid][1..] == [];
    assert rest + {uuid} == registry;
  }

  /** Resyncing a new UUID and then destroying it leaves the registry as it was. */
  lemma ResyncThenDestroy(registry: set<Uuid>, uuid: Uuid)
    requires uuid !in registry
    ensures Destroy(Resync(registry, [uuid]).registry, uuid) == Success(registry)
  {
  }
}
