/** The observer registry of the CoAP library (coap_observe_server_register,
    _search, _unregister and _next_get), modelled by the contract the server
    relies on: a fixed number of slots, each free or holding one observer.
    Unregistering frees a slot without moving the others, so a cursor kept
    across the removal of a slot at or before it still finds the same next
    observer (ScanAfterClear). */
module Registry {
  import opened Coap
  import opened Resources

  /** coap_observer_t: who watches which resource, under which token, and in
      which content format its notifications are written. */
  datatype Observer = Observer(remote: Remote, resource: ResourceId, token: seq<byte>, ct: ContentFormat)

  /** The slot table; None is a free slot. */
  type Table = seq<Option<Observer>>

  /** A slot holding an observer of `resource` at `remote`: the search key. */
  predicate IsKey(e: Option<Observer>, remote: Remote, resource: ResourceId)
  {
    e.Some? && e.value.remote == remote && e.value.resource == resource
  }

  /** A slot holding an observer of `resource`. */
  predicate Watches(e: Option<Observer>, resource: ResourceId)
  {
    e.Some? && e.value.resource == resource
  }

  /** The free slot a registration takes: the first from `from` on. */
  function FirstFree(t: Table, from: nat): (r: Option<nat>)
    ensures r.Some? ==> from <= r.value < |t| && t[r.value].None?
    ensures forall j :: from <= j < |t| && (r.None? || j < r.value) ==> t[j].Some?
    decreases |t| - from
  {
    if from >= |t| then None
    else if t[from].None? then Some(from)
    else FirstFree(t, from + 1)
  }

  /** coap_observe_server_search: the first slot from `from` on keyed by
      (remote, resource). */
  function Search(t: Table, remote: Remote, resource: ResourceId, from: nat): (r: Option<nat>)
    ensures r.Some? ==> from <= r.value < |t| && IsKey(t[r.value], remote, resource)
    ensures forall j :: from <= j < |t| && (r.None? || j < r.value) ==> !IsKey(t[j], remote, resource)
    decreases |t| - from
  {
    if from >= |t| then None
    else if IsKey(t[from], remote, resource) then Some(from)
    else Search(t, remote, resource, from + 1)
  }

  /** The first slot from `from` on that watches `resource`. */
  function Scan(t: Table, resource: ResourceId, from: nat): (r: Option<nat>)
    ensures r.Some? ==> from <= r.value < |t| && Watches(t[r.value], resource)
    ensures forall j :: from <= j < |t| && (r.None? || j < r.value) ==> !Watches(t[j], resource)
    decreases |t| - from
  {
    if from >= |t| then None
    else if Watches(t[from], resource) then Some(from)
    else Scan(t, resource, from + 1)
  }

  /** coap_observe_server_next_get: the observer of `resource` after the
      cursor `prev`, or the first one when there is no cursor yet. */
  function NextGet(t: Table, prev: Option<nat>, resource: ResourceId): (r: Option<nat>)
    ensures r.Some? ==> r.value < |t| && Watches(t[r.value], resource) && (prev.Some? ==> prev.value < r.value)
    ensures forall j :: 0 <= j < |t| && (prev.None? || prev.value < j) && (r.None? || j < r.value) ==> !Watches(t[j], resource)
  {
    Scan(t, resource, if prev.None? then 0 else prev.value + 1)
  }

  /** Registration: the observer goes into the first free slot; a full table
      refuses it and stays as it is. No search for an existing entry is made. */
  function Register(t: Table, o: Observer): (r: Table)
    ensures |r| == |t|
    ensures FirstFree(t, 0).None? ==> r == t
    ensures FirstFree(t, 0).Some? ==>
              r[FirstFree(t, 0).value] == Some(o) &&
              forall j :: 0 <= j < |t| && j != FirstFree(t, 0).value ==> r[j] == t[j]
  {
    match FirstFree(t, 0)
    case Some(i) => t[i := Some(o)]
    case None => t
  }

  /** search followed, when it succeeds, by unregister. */
  function RemoveObserver(t: Table, remote: Remote, resource: ResourceId): (r: Table)
    ensures |r| == |t|
    ensures Search(t, remote, resource, 0).None? ==> r == t
    ensures Search(t, remote, resource, 0).Some? ==>
              r[Search(t, remote, resource, 0).value].None? &&
              forall j :: 0 <= j < |t| && j != Search(t, remote, resource, 0).value ==> r[j] == t[j]
  {
    match Search(t, remote, resource, 0)
    case Some(i) => t[i := None]
    case None => t
  }

  /** A cursor survives removals behind it: freeing a slot before `from`,
      the cursor's own slot included, does not change which slot the scan
      from `from` finds next. */
  lemma {:induction false} ScanAfterClear(t: Table, resource: ResourceId, from: nat, k: nat)
    requires k < from && k < |t|
    ensures Scan(t[k := None], resource, from) == Scan(t, resource, from)
    decreases |t| - from
  {
    if from < |t| {
      ScanAfterClear(t, resource, from + 1, k);
    }
  }

  /** Number of registered observers. */
  function Occupied(t: Table): nat
  {
    if t == [] then 0 else (if t[0].Some? then 1 else 0) + Occupied(t[1..])
  }

  lemma {:induction false} OccupiedClear(t: Table, i: nat)
    requires i < |t| && t[i].Some?
    ensures Occupied(t[i := None]) + 1 == Occupied(t)
  {
    if i > 0 {
      assert t[i := None][1..] == t[1..][i - 1 := None];
      OccupiedClear(t[1..], i - 1);
    } else {
      assert t[i := None][1..] == t[1..];
    }
  }

  lemma {:induction false} OccupiedFill(t: Table, i: nat, o: Observer)
    requires i < |t| && t[i].None?
    ensures Occupied(t[i := Some(o)]) == Occupied(t) + 1
  {
    if i > 0 {
      assert t[i := Some(o)][1..] == t[1..][i - 1 := Some(o)];
      OccupiedFill(t[1..], i - 1, o);
    } else {
      assert t[i := Some(o)][1..] == t[1..];
    }
  }

  /** Registration adds exactly one observer, into a slot that was free,
      unless every slot is taken; then nothing changes. The new entry is not
      compared with existing ones. */
  lemma RegisterEffect(t: Table, o: Observer)
    ensures |Register(t, o)| == |t|
    ensures Occupied(Register(t, o)) == Occupied(t) + (if FirstFree(t, 0).Some? then 1 else 0)
    ensures FirstFree(t, 0).None? <==> forall j :: 0 <= j < |t| ==> t[j].Some?
    ensures FirstFree(t, 0).None? ==> Register(t, o) == t
    ensures FirstFree(t, 0).Some? ==> exists i :: 0 <= i < |t| && t[i].None? && Register(t, o) == t[i := Some(o)]
  {
    match FirstFree(t, 0)
    case Some(i) => OccupiedFill(t, i, o);
    case None =>
  }

  /** Removal by key frees exactly the first slot holding that key and leaves
      every other slot as it was; with no such slot the table is unchanged. */
  lemma RemoveObserverEffect(t: Table, remote: Remote, resource: ResourceId)
    ensures |RemoveObserver(t, remote, resource)| == |t|
    ensures Occupied(RemoveObserver(t, remote, resource)) + (if Search(t, remote, resource, 0).Some? then 1 else 0)
            == Occupied(t)
    ensures Search(t, remote, resource, 0).None? <==> forall j :: 0 <= j < |t| ==> !IsKey(t[j], remote, resource)
    ensures Search(t, remote, resource, 0).None? ==> RemoveObserver(t, remote, resource) == t
    ensures Search(t, remote, resource, 0).Some? ==>
              var i := Search(t, remote, resource, 0).value;
              IsKey(t[i], remote, resource) && RemoveObserver(t, remote, resource)[i].None? &&
              forall j :: 0 <= j < |t| && j != i ==> RemoveObserver(t, remote, resource)[j] == t[j]
  {
    match Search(t, remote, resource, 0)
    case Some(i) => OccupiedClear(t, i);
    case None =>
  }
}
