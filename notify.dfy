/** What one sweep of notify_all_led3_subscribers sends: one 2.05 per
    observer of the resource, in slot order, with consecutive Observe values. */
module Notify {
  import opened Coap
  import opened Resources
  import opened Registry
  import opened Exchange
  import opened Led3Value

  /** The notification to one observer: its token and remote, the Observe
      value `sequence`, Max-Age `maxAge`, the LED written in the observer's
      format, and the observer as the delivery callback's argument. */
  function Notification(o: Observer, t: MsgType, sequence: uint32, maxAge: uint32, on: bool): (m: Message)
    ensures m.mtype == t && m.code == Content205 && m.id == 0
    ensures m.token == o.token && m.remote == o.remote && m.observer == Some(o)
    ensures m.options == [ObserveOpt(sequence), MaxAgeOpt(maxAge)]
    ensures m.payload == LedPayload(o.ct, on)
  {
    Message(t, Content205, 0, o.token, o.remote, [ObserveOpt(sequence), MaxAgeOpt(maxAge)], LedPayload(o.ct, on), Some(o))
  }

  /** The observers of `resource`, in the order next_get visits them. */
  function Subscribers(t: Table, resource: ResourceId): seq<Observer>
    decreases |t|
  {
    if t == [] then []
    else
      Subscribers(t[..|t| - 1], resource) + (if Watches(t[|t| - 1], resource) then [t[|t| - 1].value] else [])
  }

  /** The messages of one sweep: subscriber k is sent the Observe value
      `first` + k, modulo 2^32. */
  function Sweep(subs: seq<Observer>, t: MsgType, first: uint32, maxAge: uint32, on: bool): (ms: seq<Message>)
    ensures |ms| == |subs|
  {
    seq(|subs|, k requires 0 <= k < |subs| => Notification(subs[k], t, Add32(first, k), maxAge, on))
  }

  /** Exactly the registered observers of a resource are its subscribers. */
  lemma {:induction false} SubscribersExact(t: Table, resource: ResourceId, o: Observer)
    ensures o in Subscribers(t, resource) <==> o.resource == resource && Some(o) in t
    decreases |t|
  {
    if t != [] {
      var front := t[..|t| - 1];
      SubscribersExact(front, resource, o);
      assert t == front + [t[|t| - 1]];
      assert Some(o) in t <==> Some(o) in front || Some(o) == t[|t| - 1];
    }
  }

  /** Number of slots holding exactly `o`. */
  function SlotsHolding(t: Table, o: Observer): nat
    decreases |t|
  {
    if t == [] then 0
    else SlotsHolding(t[..|t| - 1], o) + (if t[|t| - 1] == Some(o) then 1 else 0)
  }

  /** An observer of the resource is visited once per slot holding it (a
      client registered twice is notified twice); others are not visited. */
  lemma {:induction false} SubscribersCount(t: Table, resource: ResourceId, o: Observer)
    ensures multiset(Subscribers(t, resource))[o] == (if o.resource == resource then SlotsHolding(t, o) else 0)
    decreases |t|
  {
    if t != [] {
      SubscribersCount(t[..|t| - 1], resource, o);
    }
  }

  /** No table yields more subscribers than it has slots. */
  lemma {:induction false} SubscribersBound(t: Table, resource: ResourceId)
    ensures |Subscribers(t, resource)| <= Occupied(t) <= |t|
    decreases |t|
  {
    if t != [] {
      SubscribersBound(t[..|t| - 1], resource);
      OccupiedSnoc(t[..|t| - 1], t[|t| - 1]);
      assert t[..|t| - 1] + [t[|t| - 1]] == t;
    }
  }

  lemma {:induction false} OccupiedSnoc(t: Table, e: Option<Observer>)
    ensures Occupied(t + [e]) == Occupied(t) + (if e.Some? then 1 else 0)
    decreases |t|
  {
    if t == [] {
      assert [e][1..] == [];
    } else {
      assert (t + [e])[1..] == t[1..] + [e];
      OccupiedSnoc(t[1..], e);
    }
  }

  /** Taking one more slot into the prefix adds its observer, if it watches. */
  lemma SubscribersStep(t: Table, resource: ResourceId, i: nat)
    requires i < |t|
    ensures Subscribers(t[..i + 1], resource)
            == Subscribers(t[..i], resource) + (if Watches(t[i], resource) then [t[i].value] else [])
  {
    assert t[..i + 1][..i] == t[..i];
  }

  /** Slots that do not watch the resource add no subscribers. */
  lemma {:induction false} SubscribersSkip(t: Table, resource: ResourceId, i: nat, j: nat)
    requires i <= j <= |t|
    requires forall k :: i <= k < j ==> !Watches(t[k], resource)
    ensures Subscribers(t[..j], resource) == Subscribers(t[..i], resource)
    decreases j - i
  {
    if i < j {
      SubscribersSkip(t, resource, i, j - 1);
      SubscribersStep(t, resource, j - 1);
    }
  }

  /** Sending to one more subscriber appends its notification, stamped with
      the next Observe value. */
  lemma SweepSnoc(subs: seq<Observer>, o: Observer, t: MsgType, first: uint32, maxAge: uint32, on: bool)
    ensures Sweep(subs + [o], t, first, maxAge, on)
            == Sweep(subs, t, first, maxAge, on) + [Notification(o, t, Add32(first, |subs|), maxAge, on)]
  {
  }

  /** One step of the sweep loop: from cursor position `from`, the next
      observer found at slot `i` extends the sweep so far by its notification,
      stamped with the next Observe value, and the count of notified
      subscribers by one. */
  lemma SweepAdvance(slots: Table, resource: ResourceId, from: nat, i: nat,
                     t: MsgType, first: uint32, maxAge: uint32, on: bool)
    requires from <= i < |slots| && Watches(slots[i], resource)
    requires forall j :: from <= j < i ==> !Watches(slots[j], resource)
    ensures Sweep(Subscribers(slots[..i + 1], resource), t, first, maxAge, on)
            == Sweep(Subscribers(slots[..from], resource), t, first, maxAge, on)
               + [Notification(slots[i].value, t, Add32(first, |Subscribers(slots[..from], resource)|), maxAge, on)]
    ensures Add32(Add32(first, |Subscribers(slots[..from], resource)|), 1)
            == Add32(first, |Subscribers(slots[..i + 1], resource)|)
  {
    var done := Subscribers(slots[..from], resource);
    SubscribersSkip(slots, resource, from, i);
    SubscribersStep(slots, resource, i);
    assert Subscribers(slots[..i + 1], resource) == done + [slots[i].value];
    SweepSnoc(done, slots[i].value, t, first, maxAge, on);
    Add32Step(first, |done|);
  }

  /** A sweep sends one 2.05 per subscriber, each to that subscriber under its
      token, with the sweep's type and Max-Age and the LED in the subscriber's
      format; successive Observe values differ by one modulo 2^32, starting
      from `first`. */
  lemma SweepMessages(subs: seq<Observer>, t: MsgType, first: uint32, maxAge: uint32, on: bool)
    ensures |Sweep(subs, t, first, maxAge, on)| == |subs|
    ensures forall k :: 0 <= k < |subs| ==>
              var m := Sweep(subs, t, first, maxAge, on)[k];
              m.mtype == t && m.code == Content205 && m.token == subs[k].token && m.remote == subs[k].remote &&
              m.options == [ObserveOpt(Add32(first, k)), MaxAgeOpt(maxAge)] &&
              ParseLedPayload(subs[k].ct, m.payload) == Some(on) && m.observer == Some(subs[k])
    ensures |subs| > 0 ==> Sweep(subs, t, first, maxAge, on)[0].options[0] == ObserveOpt(first)
    ensures forall k :: 0 <= k < |subs| - 1 ==>
              Sweep(subs, t, first, maxAge, on)[k + 1].options[0].sequence
              == Add32(Sweep(subs, t, first, maxAge, on)[k].options[0].sequence, 1)
  {
    forall k | 0 <= k < |subs| - 1
      ensures Add32(first, k + 1) == Add32(Add32(first, k), 1)
    {
      Add32Step(first, k);
    }
  }
}
