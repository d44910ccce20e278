/** The freshness countdown of app_coap_time_tick and the cadence of
    confirmable pushes, as functions of the state one tick sees. */
module Schedule {
  import opened Coap

  /** OBSERVE_NOTIFY_DELTA_MAX_AGE: seconds before Max-Age runs out at which
      observers are sent a fresh value. */
  const NotifyDelta: nat := 2

  /** A push is due once the countdown has reached the margin. */
  predicate Due(e: nat)
  {
    e <= NotifyDelta
  }

  /** The countdown after one tick: re-armed to `maxAge` when due, one less
      otherwise. */
  function NextExpire(e: nat, maxAge: nat): nat
  {
    if Due(e) then maxAge else e - 1
  }

  /** The countdown after `n` ticks. */
  function ExpireAfter(e: nat, maxAge: nat, n: nat): nat
    decreases n
  {
    if n == 0 then e else ExpireAfter(NextExpire(e, maxAge), maxAge, n - 1)
  }

  /** How many of `n` ticks push to the observers. */
  function PushesIn(e: nat, maxAge: nat, n: nat): nat
    decreases n
  {
    if n == 0 then 0 else (if Due(e) then 1 else 0) + PushesIn(NextExpire(e, maxAge), maxAge, n - 1)
  }

  /** The type of scheduled push number k (from 0): every fourth is
      confirmable, so that unreachable observers get noticed. */
  function PushType(k: nat): MsgType
  {
    if k % 4 == 0 then Con else Non
  }

  /** msg_count keeps the push count modulo 2^32; since 4 divides 2^32 the
      wrap does not disturb the cadence. */
  lemma CadenceSurvivesWrap(k: nat)
    ensures (k % Two32) % 4 == k % 4
  {
    var q := k / Two32;
    assert k == (q * 0x4000_0000) * 4 + k % Two32;
  }

  /** Incrementing msg_count after push k keeps it equal to the push count
      modulo 2^32. */
  lemma MsgCountStep(k: nat)
    ensures ((k % Two32) + 1) % Two32 == (k + 1) % Two32
  {
    var q, r := k / Two32, k % Two32;
    assert k + 1 == q * Two32 + (r + 1);
    if r + 1 == Two32 {
      assert k + 1 == (q + 1) * Two32;
    }
  }

  /** Ticks compose: `a` ticks and then `b` more are `a + b` ticks. */
  lemma {:induction false} RunSplit(e: nat, maxAge: nat, a: nat, b: nat)
    ensures ExpireAfter(e, maxAge, a + b) == ExpireAfter(ExpireAfter(e, maxAge, a), maxAge, b)
    ensures PushesIn(e, maxAge, a + b) == PushesIn(e, maxAge, a) + PushesIn(ExpireAfter(e, maxAge, a), maxAge, b)
    decreases a
  {
    if a > 0 {
      RunSplit(NextExpire(e, maxAge), maxAge, a - 1, b);
      assert a + b - 1 == (a - 1) + b;
    }
  }

  /** Above the margin the countdown only counts down: it loses one per tick
      and nothing is pushed until it reaches the margin. */
  lemma {:induction false} CountdownQuiet(e: nat, maxAge: nat, n: nat)
    requires n + NotifyDelta <= e
    ensures ExpireAfter(e, maxAge, n) == e - n
    ensures PushesIn(e, maxAge, n) == 0
    decreases n
  {
    if n > 0 {
      CountdownQuiet(e - 1, maxAge, n - 1);
    }
  }

  /** After a re-arm to `maxAge` the next push comes maxAge - NotifyDelta + 1
      ticks later, and not before; that tick re-arms the countdown again, so
      pushes repeat with this period. */
  lemma PushPeriod(maxAge: nat)
    requires NotifyDelta < maxAge
    ensures PushesIn(maxAge, maxAge, maxAge - NotifyDelta) == 0
    ensures PushesIn(maxAge, maxAge, maxAge - NotifyDelta + 1) == 1
    ensures ExpireAfter(maxAge, maxAge, maxAge - NotifyDelta + 1) == maxAge
  {
    var n := maxAge - NotifyDelta;
    CountdownQuiet(maxAge, maxAge, n);
    RunSplit(maxAge, maxAge, n, 1);
  }

  /** A countdown that starts within [0, maxAge] stays there. */
  lemma {:induction false} ExpireBounded(e: nat, maxAge: nat, n: nat)
    requires e <= maxAge
    ensures ExpireAfter(e, maxAge, n) <= maxAge
    decreases n
  {
    if n > 0 {
      ExpireBounded(NextExpire(e, maxAge), maxAge, n - 1);
    }
  }
}
