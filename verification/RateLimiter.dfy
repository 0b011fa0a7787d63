/**
 * The per-key token bucket, with `real` for the source's floating point. Calls are made under a mutex, so each is
 * atomic; its time is an argument.
 */
module RateLimiter {
  import opened Basics

  datatype Bucket = Bucket(tokens: real, updated: real)

  /** Tokens per second, and the most a bucket holds. */
  datatype Policy = Policy(perMinute: int, burst: int)

  function Rate(p: Policy): real {
    p.perMinute as real / 60.0
  }

  /** What a bucket gains from one instant to another. */
  function Gain(p: Policy, from: real, to: real): real {
    (to - from) * Rate(p)
  }

  /** The bucket just before a call at `now` tries to take a token. */
  function Refilled(p: Policy, b: Option<Bucket>, now: real): Bucket {
    if b.None? then Bucket(p.burst as real, now)
    else
      var tokens := b.value.tokens + Gain(p, b.value.updated, now);
      Bucket(if tokens > p.burst as real then p.burst as real else tokens, now)
  }

  predicate Allows(p: Policy, b: Option<Bucket>, now: real) {
    Refilled(p, b, now).tokens >= 1.0
  }

  function After(p: Policy, b: Option<Bucket>, now: real): Bucket {
    var full := Refilled(p, b, now);
    if full.tokens >= 1.0 then full.(tokens := full.tokens - 1.0) else full
  }

  function Lookup(buckets: map<Id, Bucket>, key: Id): Option<Bucket> {
    if key in buckets then Some(buckets[key]) else None
  }

  class RateLimit {
    const policy: Policy
    var buckets: map<Id, Bucket>

    constructor (perMinute: int, burst: int)
      ensures policy == Policy(perMinute, burst) && buckets == map[]
    {
      policy := Policy(perMinute, burst);
      buckets := map[];
    }

    /**
     * A call that is refused is told to retry; the conversion to whole seconds truncates. At a rate of zero the wait is
     * infinite, and what its conversion gives depends on the machine.
     */
    method Allow(id: Id, now: real) returns (allowed: bool, retry: int)
      modifies this
      ensures allowed == Allows(policy, Lookup(old(buckets), id), now)
      ensures buckets == old(buckets)[id := After(policy, Lookup(old(buckets), id), now)]
      ensures if allowed then retry == 0 else retry >= 1
      ensures !allowed && policy.perMinute != 0 ==> retry == RetryAfter(policy, buckets[id].tokens)
    {
      if id !in buckets {
        buckets := buckets[id := Bucket(policy.burst as real, now)];
      }
      var b := buckets[id];
      var elapsed := now - b.updated;
      b := b.(tokens := b.tokens + elapsed * (policy.perMinute as real / 60.0));
      if b.tokens > policy.burst as real {
        b := b.(tokens := policy.burst as real);
      }
      b := b.(updated := now);
      if b.tokens >= 1.0 {
        b := b.(tokens := b.tokens - 1.0);
        buckets := buckets[id := b];
        return true, 0;
      }
      buckets := buckets[id := b];
      if policy.perMinute == 0 {
        retry := *;
      } else {
        retry := ((1.0 - b.tokens) / (policy.perMinute as real / 60.0)).Floor;
      }
      if retry < 1 {
        retry := 1;
      }
      return false, retry;
    }
  }

  /** Seconds until the next token, truncated and at least one; one if there is none to come. */
  function RetryAfter(p: Policy, tokens: real): int
    requires p.perMinute != 0
  {
    Max(1, ((1.0 - tokens) / Rate(p)).Floor)
  }

  // ---------- one key over time ----------

  predicate Ordered(from: real, times: seq<real>) {
    (forall i :: 0 <= i < |times| ==> from <= times[i])
        && (forall i, j :: 0 <= i < j < |times| ==> times[i] <= times[j])
  }

  function AllowedCount(p: Policy, b: Option<Bucket>, times: seq<real>): nat
    decreases |times|
  {
    if times == [] then 0
    else (if Allows(p, b, times[0]) then 1 else 0) + AllowedCount(p, Some(After(p, b, times[0])), times[1..])
  }

  function Final(p: Policy, b: Bucket, times: seq<real>): Bucket
    decreases |times|
  {
    if times == [] then b else Final(p, After(p, Some(b), times[0]), times[1..])
  }

  predicate Sound(p: Policy, b: Bucket) {
    0.0 <= b.tokens <= p.burst as real
  }

  lemma GainAdds(p: Policy, x: real, y: real, z: real)
    requires p.perMinute >= 0
    ensures Gain(p, x, y) + Gain(p, y, z) == Gain(p, x, z)
    ensures x <= y ==> Gain(p, x, y) >= 0.0
    ensures Gain(p, x, x) == 0.0
  {
  }

  /** One call: what it takes and leaves is at most what was there plus what time added. */
  lemma OneCall(p: Policy, b: Bucket, now: real)
    requires p.perMinute >= 0 && Sound(p, b) && b.updated <= now
    ensures var next := After(p, Some(b), now);
            && Sound(p, next) && next.updated == now
            && (if Allows(p, Some(b), now) then 1.0 else 0.0) + next.tokens <= b.tokens + Gain(p, b.updated, now)
  {
    GainAdds(p, b.updated, now, now);
    hide Gain;
  }

  /** Potential: tokens taken plus tokens left never exceed the tokens at the start plus what time added. */
  lemma {:induction false} Potential(p: Policy, b: Bucket, times: seq<real>)
    requires p.perMinute >= 0 && Sound(p, b) && Ordered(b.updated, times)
    ensures var end := Final(p, b, times);
            && Sound(p, end) && end.updated == (if times == [] then b.updated else times[|times| - 1])
            && AllowedCount(p, Some(b), times) as real + end.tokens <= b.tokens + Gain(p, b.updated, end.updated)
    decreases |times|
  {
    GainAdds(p, b.updated, b.updated, b.updated);
    hide Gain, Allows, After, Sound;
    if times != [] {
      OneCall(p, b, times[0]);
      Potential(p, After(p, Some(b), times[0]), times[1..]);
      GainAdds(p, b.updated, times[0], Final(p, b, times).updated);
    }
  }

  lemma WindowGain(p: Policy, b: Option<Bucket>, times: seq<real>)
    requires p.perMinute >= 0 && p.burst >= 0 && times != []
    requires b.Some? ==> Sound(p, b.value) && b.value.updated <= times[0]
    requires Ordered(times[0], times)
    ensures AllowedCount(p, b, times) as real <= p.burst as real + Gain(p, times[0], times[|times| - 1])
  {
    var full := Refilled(p, b, times[0]);
    GainAdds(p, if b.Some? then b.value.updated else times[0], times[0], times[0]);
    hide Gain;
    assert Sound(p, full) && Refilled(p, Some(full), times[0]) == full;
    assert AllowedCount(p, Some(full), times) == AllowedCount(p, b, times);
    Potential(p, full, times);
    assert Sound(p, Final(p, full, times));
  }

  /** A rate per minute, over an interval in seconds. */
  lemma GainMeans(p: Policy, from: real, to: real)
    ensures Gain(p, from, to) == (to - from) * (p.perMinute as real / 60.0)
  {
  }

  /** In any window of calls for one key, no more than the burst plus the rate times the window's length are allowed. */
  lemma WindowBound(p: Policy, b: Option<Bucket>, times: seq<real>)
    requires p.perMinute >= 0 && p.burst >= 0 && times != []
    requires b.Some? ==> Sound(p, b.value) && b.value.updated <= times[0]
    requires Ordered(times[0], times)
    ensures AllowedCount(p, b, times) as real
              <= p.burst as real + (times[|times| - 1] - times[0]) * (p.perMinute as real / 60.0)
  {
    hide Gain, AllowedCount, Sound, Ordered;
    WindowGain(p, b, times);
    GainMeans(p, times[0], times[|times| - 1]);
  }

  /** A new key may call `burst` times at once, and no more. */
  lemma {:induction false} FreshBurst(p: Policy, n: nat, now: real)
    requires 0 <= p.burst
    ensures AllowedCount(p, None, seq(n, _ => now)) == Min(n, p.burst)
  {
    if n > 0 {
      var times := seq(n, _ => now);
      assert Refilled(p, None, now) == Bucket(p.burst as real, now) ==
             Refilled(p, Some(Bucket(p.burst as real, now)), now);
      assert AllowedCount(p, None, times) == AllowedCount(p, Some(Bucket(p.burst as real, now)), times);
      Burst(p, p.burst, n, now);
    }
  }

  /** At one instant nothing is refilled: as many calls are allowed as there are tokens. */
  lemma {:induction false} Burst(p: Policy, tokens: nat, n: nat, now: real)
    requires tokens <= p.burst
    ensures AllowedCount(p, Some(Bucket(tokens as real, now)), seq(n, _ => now)) == Min(n, tokens)
    decreases n
  {
    if n > 0 {
      var times := seq(n, _ => now);
      assert times[1..] == seq(n - 1, _ => now);
      assert Refilled(p, Some(Bucket(tokens as real, now)), now) == Bucket(tokens as real, now);
      Burst(p, if tokens >= 1 then tokens - 1 else 0, n - 1, now);
    }
  }

  predicate Unhurried(p: Policy, from: real, times: seq<real>)
    decreases |times|
  {
    times != [] ==> (times[0] - from) * (p.perMinute as real / 60.0) >= 1.0 && Unhurried(p, times[0], times[1..])
  }

  lemma SlowCall(p: Policy, b: Bucket, now: real)
    requires p.burst >= 1 && Sound(p, b) && Gain(p, b.updated, now) >= 1.0
    ensures Allows(p, Some(b), now) && Sound(p, After(p, Some(b), now)) && After(p, Some(b), now).updated == now
  {
    hide Gain;
  }

  /** A key that calls no faster than the rate, with room for one token, is never refused. */
  lemma {:induction false} SlowCallerAllowed(p: Policy, b: Bucket, times: seq<real>)
    requires p.perMinute > 0 && p.burst >= 1 && Sound(p, b) && Unhurried(p, b.updated, times)
    ensures AllowedCount(p, Some(b), times) == |times|
    decreases |times|
  {
    if times != [] {
      GainMeans(p, b.updated, times[0]);
      hide Gain, Sound, After, Allows, Refilled;
      SlowCall(p, b, times[0]);
      SlowCallerAllowed(p, After(p, Some(b), times[0]), times[1..]);
    }
  }

  // ---------- many keys ----------

  datatype Call = Call(key: Id, at: real)

  function After1(p: Policy, buckets: map<Id, Bucket>, c: Call): map<Id, Bucket> {
    buckets[c.key := After(p, Lookup(buckets, c.key), c.at)]
  }

  /** Calls allowed for `key` when everyone's calls are served in order. */
  function AllowedFor(p: Policy, buckets: map<Id, Bucket>, calls: seq<Call>, key: Id): nat
    decreases |calls|
  {
    if calls == [] then 0
    else (if calls[0].key == key && Allows(p, Lookup(buckets, key), calls[0].at) then 1 else 0)
         + AllowedFor(p, After1(p, buckets, calls[0]), calls[1..], key)
  }

  function TimesOf(calls: seq<Call>, key: Id): seq<real> {
    if calls == [] then []
    else if calls[0].key == key then [calls[0].at] + TimesOf(calls[1..], key)
    else TimesOf(calls[1..], key)
  }

  /** Other keys' calls never affect a key. */
  lemma {:induction false} KeysAreIsolated(p: Policy, buckets: map<Id, Bucket>, calls: seq<Call>, key: Id)
    ensures AllowedFor(p, buckets, calls, key) == AllowedCount(p, Lookup(buckets, key), TimesOf(calls, key))
    decreases |calls|
  {
    if calls != [] {
      KeysAreIsolated(p, After1(p, buckets, calls[0]), calls[1..], key);
      if calls[0].key == key {
        assert TimesOf(calls, key)[1..] == TimesOf(calls[1..], key);
      }
    }
  }

  predicate InOrder(from: real, calls: seq<Call>) {
    (forall i :: 0 <= i < |calls| ==> from <= calls[i].at)
        && (forall i, j :: 0 <= i < j < |calls| ==> calls[i].at <= calls[j].at)
  }

  lemma {:induction false} TimesInOrder(calls: seq<Call>, key: Id, from: real)
    requires InOrder(from, calls)
    ensures Ordered(from, TimesOf(calls, key))
    ensures forall t :: t in TimesOf(calls, key) ==> calls != [] && t <= calls[|calls| - 1].at
  {
    if calls != [] {
      TimesInOrder(calls[1..], key, calls[0].at);
    }
  }

  /**
   * From the start of the gateway: one key's allowed calls, among everyone's, stay within burst plus rate times time.
   */
  lemma RateBound(p: Policy, calls: seq<Call>, key: Id)
    requires p.perMinute >= 0 && p.burst >= 0 && calls != [] && InOrder(calls[0].at, calls)
    ensures AllowedFor(p, map[], calls, key) as real
              <= p.burst as real + (calls[|calls| - 1].at - calls[0].at) * (p.perMinute as real / 60.0)
  {
    hide Gain, AllowedFor, InOrder;
    RateGain(p, calls, key);
    GainMeans(p, calls[0].at, calls[|calls| - 1].at);
  }

  lemma RateGain(p: Policy, calls: seq<Call>, key: Id)
    requires p.perMinute >= 0 && p.burst >= 0 && calls != [] && InOrder(calls[0].at, calls)
    ensures AllowedFor(p, map[], calls, key) as real <= p.burst as real + Gain(p, calls[0].at, calls[|calls| - 1].at)
  {
    var first, last := calls[0].at, calls[|calls| - 1].at;
    GainAdds(p, first, last, last);
    assert Lookup(map[], key) == None;
    hide Gain, Allows, After, Refilled, Sound;
    KeysAreIsolated(p, map[], calls, key);
    TimesInOrder(calls, key, first);
    var times := TimesOf(calls, key);
    if times != [] {
      WindowGain(p, None, times);
      GainAdds(p, first, times[0], times[|times| - 1]);
      GainAdds(p, first, times[|times| - 1], last);
      GainAdds(p, times[|times| - 1], last, last);
      assert times[|times| - 1] in times;
    }
  }

  // ---------- the advertised retry ----------

  /**
   * A refused key that waits exactly as long as it was told is allowed if and only if the wait for a token was a whole
   * number of seconds, or no more than one.
   */
  lemma RetryExactly(p: Policy, b: Bucket)
    requires p.perMinute > 0 && p.burst >= 1 && b.tokens < 1.0
    ensures var wait := (1.0 - b.tokens) / Rate(p);
            Allows(p, Some(b), b.updated + RetryAfter(p, b.tokens) as real) <==>
                wait <= 1.0 || wait == wait.Floor as real
  {
    var wait := (1.0 - b.tokens) / Rate(p);
    var told := RetryAfter(p, b.tokens) as real;
    assert told == Max(1, wait.Floor) as real && Rate(p) > 0.0;
    hide Allows, Gain, RetryAfter, Rate;
    AllowsExactly(p, b, b.updated + told);
    GainIs(p, b.updated, told);
    WaitIs(Rate(p), wait, 1.0 - b.tokens);
    Scale(Rate(p), told, wait);
    WholeSeconds(wait);
  }

  lemma AllowsExactly(p: Policy, b: Bucket, now: real)
    requires p.burst >= 1
    ensures Allows(p, Some(b), now) <==> b.tokens + Gain(p, b.updated, now) >= 1.0
  {
    hide Gain;
  }

  lemma GainIs(p: Policy, from: real, length: real)
    ensures Gain(p, from, from + length) == length * Rate(p)
  {
    hide Rate;
    assert (from + length) - from == length;
  }

  lemma WholeSeconds(wait: real)
    requires wait > 0.0
    ensures Max(1, wait.Floor) as real >= wait <==> wait <= 1.0 || wait == wait.Floor as real
  {
  }

  lemma Scale(rate: real, x: real, y: real)
    requires rate > 0.0
    ensures x * rate >= y * rate <==> x >= y
  {
  }

  lemma WaitIs(rate: real, wait: real, need: real)
    requires rate > 0.0 && need > 0.0 && wait == need / rate
    ensures wait > 0.0 && wait * rate == need
  {
  }
}
