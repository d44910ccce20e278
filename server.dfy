/** The application state of the observe server and its event handlers: the
    led3 and discovery request callbacks, the once-a-second tick, the
    notification sweep, the delivery-failure callback and the button. */
module Server {
  import opened Coap
  import opened Resources
  import opened Registry
  import opened Exchange
  import opened Led3Value
  import opened Notify
  import opened Schedule

  /** Final outcome the message layer reports for a confirmable notification. */
  datatype TransmissionStatus = ResetByPeer | Timeout | OtherStatus(code: uint32)

  datatype ButtonAction = Push | Release

  /** BUTTON_ONE or any other button pin. */
  datatype ButtonPin = ButtonOne | OtherPin

  /** The loop of notify_all_led3_subscribers: walk the observer table with
      next_get from the start and build, for every observer of led3 found,
      its notification with the next Observe value; `sn` is the counter after
      the last one. */
  method SweepLoop(tbl: Table, t: MsgType, first: uint32, age: uint32, on: bool)
    returns (sent: seq<Message>, sn: uint32)
    ensures sent == Sweep(Subscribers(tbl, Led3), t, first, age, on)
    ensures sn == Add32(first, |Subscribers(tbl, Led3)|)
  {
    sent, sn := [], first;
    ghost var from: nat := 0;
    var prev: Option<nat> := None;
    var next := NextGet(tbl, prev, Led3);
    while next.Some?
      invariant from <= |tbl| && from == (if prev.None? then 0 else prev.value + 1)
      invariant next == NextGet(tbl, prev, Led3)
      invariant sent == Sweep(Subscribers(tbl[..from], Led3), t, first, age, on)
      invariant sn == Add32(first, |Subscribers(tbl[..from], Led3)|)
      decreases |tbl| - from
    {
      var i := next.value;
      SweepAdvance(tbl, Led3, from, i, t, first, age, on);
      sent := sent + [Notification(tbl[i].value, t, sn, age, on)];
      sn := Add32(sn, 1);
      prev := next;
      from := i + 1;
      next := NextGet(tbl, prev, Led3);
    }
    SubscribersSkip(tbl, Led3, from, |tbl|);
    assert tbl[..|tbl|] == tbl;
  }

  class ObserveServer {
    /** LED_THREE, the value of /lights/led3. */
    var led: bool
    /** m_observer_sequence_num: the next Observe value. */
    var seqNum: uint32
    /** m_led3.expire_time: the freshness countdown of led3. */
    var expireTime: uint32
    /** msg_count of app_coap_time_tick: scheduled pushes so far, mod 2^32. */
    var msgCount: uint32
    /** The message layer's observer table. */
    var slots: Table
    /** Every message handed to coap_message_send, oldest first. */
    var outbox: seq<Message>
    /** Number of slots of the observer table. */
    const capacity: nat
    /** m_well_known_core: the discovery document generated at start-up. */
    const wellKnown: seq<byte>
    /** Scheduled pushes so far, without wrap-around. */
    ghost var pushes: nat

    ghost predicate Valid()
      reads this`slots, this`msgCount, this`pushes
    {
      |slots| == capacity && msgCount == pushes % Two32
    }

    /** The state after start-up: all LEDs off, counters zero, no observers.
        The countdown starts from whatever coap_resource_create gave it. */
    constructor (capacity: nat, initialExpire: uint32, wellKnown: seq<byte>)
      ensures Valid()
      ensures this.capacity == capacity && this.wellKnown == wellKnown
      ensures !led && seqNum == 0 && expireTime == initialExpire && msgCount == 0 && pushes == 0
      ensures slots == seq(capacity, _ => None) && outbox == []
    {
      this.capacity := capacity;
      this.wellKnown := wellKnown;
      led := false;
      seqNum := 0;
      expireTime := initialExpire;
      msgCount := 0;
      pushes := 0;
      slots := seq(capacity, _ => None);
      outbox := [];
    }

    /** notify_all_led3_subscribers: one 2.05 of type `t` to every observer of
        led3, in slot order, each taking the next Observe value. */
    method NotifyAll(t: MsgType)
      modifies this`outbox, this`seqNum
      ensures outbox == old(outbox) + Sweep(Subscribers(slots, Led3), t, old(seqNum), expireTime, led)
      ensures seqNum == Add32(old(seqNum), |Subscribers(slots, Led3)|)
    {
      var sent, sn := SweepLoop(slots, t, seqNum, expireTime, led);
      outbox := outbox + sent;
      seqNum := sn;
    }

    /** The GET branch of led3_callback. */
    method HandleGet(req: Request)
      requires Valid() && req.code == Get
      modifies this`slots, this`seqNum, this`outbox
      ensures Valid()
      ensures MatchSelect(req.accept, SupportedFormats(Led3)).None? ==>
                slots == old(slots) && seqNum == old(seqNum) &&
                outbox == old(outbox) + [Message(Rst, UnsupportedContentFormat415, req.id, req.token, req.remote, [], [], None)]
      ensures MatchSelect(req.accept, SupportedFormats(Led3)).Some? ==>
                var ct := MatchSelect(req.accept, SupportedFormats(Led3)).value;
                var registered := req.observe == Some(0) && FirstFree(old(slots), 0).Some?;
                outbox == old(outbox) + [Reply(req, Content205,
                                               if registered then [ObserveOpt(old(seqNum)), MaxAgeOpt(expireTime)] else [],
                                               LedPayload(ct, led))] &&
                seqNum == (if registered then Add32(old(seqNum), 1) else old(seqNum)) &&
                slots == (if req.observe == Some(0) then Register(old(slots), Observer(req.remote, Led3, req.token, ct))
                          else if req.observe.Some? then RemoveObserver(old(slots), req.remote, Led3)
                          else old(slots))
    {
      var ct := MatchSelect(req.accept, SupportedFormats(Led3));
      if ct.None? {
        var response := Reply(req, UnsupportedContentFormat415, [], []);
        response := response.(mtype := Rst);
        outbox := outbox + [response];
      } else {
        var options: seq<CoapOption> := [];
        if req.observe.Some? {
          if req.observe.value == 0 {
            var free := FirstFree(slots, 0);
            if free.Some? {
              slots := slots[free.value := Some(Observer(req.remote, Led3, req.token, ct.value))];
              options := [ObserveOpt(seqNum), MaxAgeOpt(expireTime)];
              seqNum := Add32(seqNum, 1);
            }
          } else {
            var handle := Search(slots, req.remote, Led3, 0);
            if handle.Some? {
              slots := slots[handle.value := None];
            }
          }
        }
        outbox := outbox + [Reply(req, Content205, options, LedPayload(ct.value, led))];
      }
    }

    /** The PUT branch of led3_callback: the answer, then the NON sweep. */
    method HandlePut(req: Request)
      requires req.code == Put && |req.payload| > 0
      modifies this`led, this`seqNum, this`outbox
      ensures var cmd := ParseCommand(req.payload[0]);
              led == (if cmd.Some? then Apply(cmd.value, old(led)) else old(led)) &&
              outbox == old(outbox) + [Reply(req, if cmd.Some? then Changed204 else BadRequest400, [], [])]
                                    + Sweep(Subscribers(slots, Led3), Non, old(seqNum), expireTime, led) &&
              seqNum == Add32(old(seqNum), |Subscribers(slots, Led3)|)
    {
      var code := Changed204;
      match ParseCommand(req.payload[0]) {
        case Some(c) => led := Apply(c, led);
        case None => code := BadRequest400;
      }
      outbox := outbox + [Reply(req, code, [], [])];
      NotifyAll(Non);
    }

    /** led3_callback. GET answers 2.05 with the LED in the negotiated format,
        registering or removing an observer as the Observe option asks, or
        4.15 with type RST when no accepted format is supported. PUT sets the
        LED from the first payload byte and answers 2.04, or 4.00 for an
        unknown byte; after the answer every observer is notified once with
        NON. Other methods answer 4.05. */
    method HandleLed3(req: Request)
      requires Valid()
      requires req.code == Put ==> |req.payload| > 0
      modifies this`led, this`slots, this`seqNum, this`outbox
      ensures Valid()
      // Every request gets exactly one response, first, echoing its message ID and token.
      ensures |outbox| > |old(outbox)| && outbox[..|old(outbox)|] == old(outbox)
      ensures Echoes(req, outbox[|old(outbox)|]) && outbox[|old(outbox)|].observer.None?
      ensures outbox[|old(outbox)|].code != UnsupportedContentFormat415 ==>
                outbox[|old(outbox)|].mtype == ResponseType(req.mtype)
      // GET without a common format: 4.15, RST, nothing else changes.
      ensures req.code == Get && MatchSelect(req.accept, SupportedFormats(Led3)).None? ==>
                led == old(led) && slots == old(slots) && seqNum == old(seqNum) &&
                outbox == old(outbox) + [Message(Rst, UnsupportedContentFormat415, req.id, req.token, req.remote, [], [], None)]
      // GET with a common format: 2.05 with the LED in that format.
      ensures req.code == Get && MatchSelect(req.accept, SupportedFormats(Led3)).Some? ==>
                var ct := MatchSelect(req.accept, SupportedFormats(Led3)).value;
                var registered := req.observe == Some(0) && FirstFree(old(slots), 0).Some?;
                led == old(led) &&
                outbox == old(outbox) + [Reply(req, Content205,
                                               if registered then [ObserveOpt(old(seqNum)), MaxAgeOpt(expireTime)] else [],
                                               LedPayload(ct, led))] &&
                seqNum == (if registered then Add32(old(seqNum), 1) else old(seqNum)) &&
                slots == (if req.observe == Some(0) then Register(old(slots), Observer(req.remote, Led3, req.token, ct))
                          else if req.observe.Some? then RemoveObserver(old(slots), req.remote, Led3)
                          else old(slots))
      // PUT: the command byte decides the LED and the code; one NON sweep follows.
      ensures req.code == Put ==>
                var cmd := ParseCommand(req.payload[0]);
                led == (if cmd.Some? then Apply(cmd.value, old(led)) else old(led)) &&
                slots == old(slots) &&
                outbox == old(outbox) + [Reply(req, if cmd.Some? then Changed204 else BadRequest400, [], [])]
                                      + Sweep(Subscribers(slots, Led3), Non, old(seqNum), expireTime, led) &&
                seqNum == Add32(old(seqNum), |Subscribers(slots, Led3)|)
      // Any other method: 4.05 and nothing else.
      ensures req.code != Get && req.code != Put ==>
                led == old(led) && slots == old(slots) && seqNum == old(seqNum) &&
                outbox == old(outbox) + [Reply(req, MethodNotAllowed405, [], [])]
    {
      match req.code {
      case Get =>
        HandleGet(req);
      case Put =>
        ghost var sent := outbox;
        HandlePut(req);
        ghost var answer := Reply(req, if ParseCommand(req.payload[0]).Some? then Changed204 else BadRequest400, [], []);
        ghost var sweep := Sweep(Subscribers(slots, Led3), Non, old(seqNum), expireTime, led);
        assert outbox == sent + ([answer] + sweep);
        assert outbox[..|sent|] == sent && outbox[|sent|] == answer;
      case _ =>
        outbox := outbox + [Reply(req, MethodNotAllowed405, [], [])];
      }
    }

    /** well_known_core_callback: always 2.05 with Content-Format
        link-format and the discovery document generated at start-up. */
    method HandleWellKnownCore(req: Request)
      requires Valid()
      modifies this
      ensures Valid()
      ensures led == old(led) && slots == old(slots) && seqNum == old(seqNum)
      ensures expireTime == old(expireTime) && msgCount == old(msgCount) && pushes == old(pushes)
      ensures outbox == old(outbox) + [Reply(req, Content205, [ContentFormatOpt(LinkFormat)], wellKnown)]
      ensures Echoes(req, outbox[|outbox| - 1]) && outbox[|outbox| - 1].mtype == ResponseType(req.mtype)
    {
      outbox := outbox + [Reply(req, Content205, [ContentFormatOpt(LinkFormat)], wellKnown)];
    }

    /** app_coap_time_tick: once per second. When the countdown has reached
        the margin it is re-armed to led3's max-age and every observer is
        notified, with CON on every fourth scheduled push and NON otherwise;
        else the countdown loses one and nothing is sent. */
    method Tick()
      requires Valid()
      modifies this
      ensures Valid()
      ensures led == old(led) && slots == old(slots)
      ensures expireTime == NextExpire(old(expireTime), Led3MaxAge)
      ensures Due(old(expireTime)) ==>
                pushes == old(pushes) + 1 && msgCount == Add32(old(msgCount), 1) &&
                outbox == old(outbox) + Sweep(Subscribers(slots, Led3), PushType(old(pushes)), old(seqNum), Led3MaxAge, led) &&
                seqNum == Add32(old(seqNum), |Subscribers(slots, Led3)|)
      ensures !Due(old(expireTime)) ==>
                pushes == old(pushes) && msgCount == old(msgCount) &&
                outbox == old(outbox) && seqNum == old(seqNum)
    {
      if expireTime <= NotifyDelta {
        expireTime := Led3MaxAge;
        CadenceSurvivesWrap(pushes);
        if msgCount % 4 == 0 {
          NotifyAll(Con);
        } else {
          NotifyAll(Non);
        }
        msgCount := Add32(msgCount, 1);
        pushes := pushes + 1;
        MsgCountStep(old(pushes));
      } else {
        expireTime := expireTime - 1;
      }
    }

    /** observer_con_message_callback as written: a reset or a time-out
        removes the observer the notification went to, found by remote and
        resource; any other outcome changes nothing. When no such observer is
        registered any more the error check halts the device, which `fatal`
        reports; the error handler first switches every LED on, LED_THREE
        included. */
    method OnResultAsWritten(o: Observer, status: TransmissionStatus) returns (fatal: bool)
      requires Valid()
      modifies this
      ensures Valid()
      ensures led == (if fatal then true else old(led))
      ensures seqNum == old(seqNum) && expireTime == old(expireTime) && outbox == old(outbox)
      ensures msgCount == old(msgCount) && pushes == old(pushes)
      ensures (status.ResetByPeer? || status.Timeout?) ==>
                fatal == Search(old(slots), o.remote, o.resource, 0).None? &&
                slots == RemoveObserver(old(slots), o.remote, o.resource)
      ensures !(status.ResetByPeer? || status.Timeout?) ==> !fatal && slots == old(slots)
    {
      fatal := false;
      match status {
        case ResetByPeer | Timeout =>
          var handle := Search(slots, o.remote, o.resource, 0);
          if handle.None? {
            fatal := true;
            led := true;
          } else {
            slots := slots[handle.value := None];
          }
        case OtherStatus(_) =>
      }
    }

    /** The delivery-failure callback as section 4.5 of RFC 7641 asks for it:
        a reset or a time-out removes the observer the notification went to,
        if it is still registered, and the server carries on either way; any
        other outcome changes nothing. */
    method OnResult(o: Observer, status: TransmissionStatus)
      requires Valid()
      modifies this
      ensures Valid()
      ensures led == old(led) && seqNum == old(seqNum) && expireTime == old(expireTime) && outbox == old(outbox)
      ensures msgCount == old(msgCount) && pushes == old(pushes)
      ensures (status.ResetByPeer? || status.Timeout?) ==>
                slots == RemoveObserver(old(slots), o.remote, o.resource) &&
                forall j :: 0 <= j < |slots| && Some(j) != Search(old(slots), o.remote, o.resource, 0) ==> slots[j] == old(slots)[j]
      ensures !(status.ResetByPeer? || status.Timeout?) ==> slots == old(slots)
    {
      match status {
        case ResetByPeer | Timeout =>
          var handle := Search(slots, o.remote, o.resource, 0);
          if handle.Some? {
            slots := slots[handle.value := None];
          }
        case OtherStatus(_) =>
      }
    }

    /** button_event_handler: pressing button one inverts the LED and
        notifies every observer once with NON. */
    method ButtonEvent(pin: ButtonPin, action: ButtonAction)
      requires Valid()
      modifies this
      ensures Valid()
      ensures slots == old(slots) && expireTime == old(expireTime) && msgCount == old(msgCount) && pushes == old(pushes)
      ensures pin == ButtonOne && action == Push ==>
                led == !old(led) &&
                outbox == old(outbox) + Sweep(Subscribers(slots, Led3), Non, old(seqNum), expireTime, led) &&
                seqNum == Add32(old(seqNum), |Subscribers(slots, Led3)|)
      ensures !(pin == ButtonOne && action == Push) ==>
                led == old(led) && outbox == old(outbox) && seqNum == old(seqNum)
    {
      if action == Push {
        if pin == ButtonOne {
          led := !led;
          NotifyAll(Non);
        }
      }
    }
  }

  /** Deregistering leaves nothing for the failure callback to find: when at
      most one slot holds the key (remote, resource), the search after
      RemoveObserver fails, and with it the error check at the callback. */
  lemma StaleObserverHalts(t: Table, remote: Remote, resource: ResourceId)
    requires forall j, k :: 0 <= j < |t| && 0 <= k < |t| && IsKey(t[j], remote, resource) && IsKey(t[k], remote, resource) ==> j == k
    ensures Search(RemoveObserver(t, remote, resource), remote, resource, 0).None?
  {
    var r := RemoveObserver(t, remote, resource);
    match Search(t, remote, resource, 0)
    case None =>
    case Some(i) =>
      assert forall j :: 0 <= j < |r| ==> !IsKey(r[j], remote, resource);
  }

  /** The input that halts the device as written: led3 has one observer,
      `o` in slot `i`, and a tick is due whose push is confirmable. The tick
      sends `m`, a CON notification to `o`; before it is acknowledged the
      client sends a GET with a nonzero Observe value, which deregisters it;
      then `m` times out. The failure callback, given `m`'s observer, finds
      nothing and halts the device. */
  method PushDeregisterTimeout(s: ObserveServer, i: nat, o: Observer, get: Request) returns (m: Message, fatal: bool)
    requires s.Valid()
    requires i < |s.slots| && s.slots[i] == Some(o) && o.resource == Led3
    requires forall j :: 0 <= j < |s.slots| && j != i ==> s.slots[j].None?
    requires Due(s.expireTime) && s.pushes % 4 == 0
    requires get.code == Get && get.observe.Some? && get.observe.value != 0 && get.remote == o.remote
    requires MatchSelect(get.accept, SupportedFormats(Led3)).Some?
    modifies s
    ensures m in s.outbox && m.mtype == Con && m.observer == Some(o)
    ensures fatal && s.led
  {
    var n := |s.outbox|;
    ghost var first := s.seqNum;
    s.Tick();
    ghost var subs := Subscribers(s.slots, Led3);
    SubscribersExact(s.slots, Led3, o);
    SweepMessages(subs, Con, first, Led3MaxAge, s.led);
    m := s.outbox[n];
    assert m == Sweep(subs, Con, first, Led3MaxAge, s.led)[0];
    SubscribersExact(s.slots, Led3, subs[0]);
    assert subs[0] == o;
    StaleObserverHalts(s.slots, o.remote, Led3);
    s.HandleLed3(get);
    assert m in s.outbox;
    fatal := s.OnResultAsWritten(m.observer.value, Timeout);
  }

  /** Writing the LED with PUT and reading it back with GET: the GET response
      carries the written state in the negotiated format. */
  method PutThenGet(s: ObserveServer, put: Request, get: Request)
    requires s.Valid()
    requires put.code == Put && |put.payload| > 0 && ParseCommand(put.payload[0]).Some?
    requires get.code == Get && MatchSelect(get.accept, SupportedFormats(Led3)).Some?
    modifies s
    ensures s.Valid()
    ensures s.led == Apply(ParseCommand(put.payload[0]).value, old(s.led))
    ensures |s.outbox| > 0 &&
            ParseLedPayload(MatchSelect(get.accept, SupportedFormats(Led3)).value, s.outbox[|s.outbox| - 1].payload)
            == Some(s.led)
  {
    s.HandleLed3(put);
    s.HandleLed3(get);
  }
}
