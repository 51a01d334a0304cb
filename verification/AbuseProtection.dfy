/**
 Token buckets with least-recently-used eviction, and the in-flight limit.  Tokens are counted in
 sixty-thousandths, so that one millisecond refills a whole number of them.
 */
module AbuseProtection {
  import opened Common

  datatype Policy = EdgeSync | EdgePayment | ProviderCallback | OperatorLogin | OperatorRead | OperatorMutation | Public

  datatype Limits = Limits(requestsPerMinute: nat, burst: nat, maxInFlight: nat) {
    /** The ranges the constructor enforces. */
    predicate Valid() {
      10 <= requestsPerMinute <= 100000 && 5 <= burst <= 10000 && burst <= requestsPerMinute && 1 <= maxInFlight <= 5000
    }
  }

  datatype Config = Config(limits: map<Policy, Limits>, maxBuckets: nat) {
    predicate Valid() {
      1000 <= maxBuckets <= 100000 && (forall p: Policy :: p in limits) && forall p :: p in limits ==> limits[p].Valid()
    }
  }

  datatype Key = Key(policy: Policy, client: string)

  datatype Bucket = Bucket(tokens: int, updatedAt: int)

  datatype Decision = Decision(allowed: bool, remaining: int, retryAfterSeconds: int)

  const TOKEN := 60000

  // ---------- one bucket ----------

  function Available(l: Limits, existing: Option<Bucket>, now: int): int {
    if existing.None? then l.burst * TOKEN
    else Min(l.burst * TOKEN, existing.value.tokens + Max(0, now - existing.value.updatedAt) * l.requestsPerMinute)
  }

  function CeilingDivide(a: int, b: int): int
    requires b > 0
  {
    -((-a) / b)
  }

  function Decide(l: Limits, existing: Option<Bucket>, now: int): (Bucket, Decision)
    requires l.Valid()
  {
    var available := Available(l, existing, now);
    if available < TOKEN then
      (Bucket(available, now), Decision(false, 0, Max(1, CeilingDivide(TOKEN - available, l.requestsPerMinute * 1000))))
    else (Bucket(available - TOKEN, now), Decision(true, Max(0, (available - TOKEN) / TOKEN), 0))
  }

  // ---------- the bucket table ----------

  /** A JavaScript Map: `order` is its insertion order. */
  datatype Table = Table(order: seq<Key>, buckets: map<Key, Bucket>)

  function Without(order: seq<Key>, key: Key): seq<Key> {
    if order == [] then []
    else if order[0] == key then order[1..]
    else [order[0]] + Without(order[1..], key)
  }

  function Delete(t: Table, key: Key): Table { Table(Without(t.order, key), t.buckets - {key}) }

  function EvictDownTo(t: Table, room: nat): Table
    decreases |t.order|
  {
    if |t.order| <= room || t.order == [] then t else EvictDownTo(Table(t.order[1..], t.buckets - {t.order[0]}), room)
  }

  function Touch(t: Table, key: Key, b: Bucket, maxBuckets: nat): Table
    requires maxBuckets > 0
  {
    var kept := EvictDownTo(if key in t.buckets then Delete(t, key) else t, maxBuckets - 1);
    Table(kept.order + [key], kept.buckets[key := b])
  }

  function Lookup(t: Table, key: Key): Option<Bucket> { if key in t.buckets then Some(t.buckets[key]) else None }

  function Consume(cfg: Config, t: Table, key: Key, now: int): (Table, Decision)
    requires cfg.Valid()
  {
    var (bucket, decision) := Decide(cfg.limits[key.policy], Lookup(t, key), now);
    (Touch(t, key, bucket, cfg.maxBuckets), decision)
  }

  // ---------- requests in flight ----------

  function InFlight(counts: map<Policy, nat>, p: Policy): nat { if p in counts then counts[p] else 0 }

  function TryEnter(cfg: Config, counts: map<Policy, nat>, p: Policy): (map<Policy, nat>, bool)
    requires cfg.Valid()
  {
    if InFlight(counts, p) >= cfg.limits[p].maxInFlight then (counts, false)
    else (counts[p := InFlight(counts, p) + 1], true)
  }

  function Leave(counts: map<Policy, nat>, p: Policy): map<Policy, nat> {
    if InFlight(counts, p) <= 1 then counts - {p} else counts[p := InFlight(counts, p) - 1]
  }

  class AbuseProtectionService {
    const cfg: Config
    var order: seq<Key>
    var buckets: map<Key, Bucket>
    var inFlight: map<Policy, nat>

    function State(): Table
      reads this
    {
      Table(order, buckets)
    }

    constructor (cfg: Config)
      requires cfg.Valid()
      ensures this.cfg == cfg && State() == Table([], map[]) && inFlight == map[]
    {
      this.cfg := cfg;
      order, buckets, inFlight := [], map[], map[];
    }

    method TouchBucket(key: Key, b: Bucket)
      requires cfg.Valid()
      modifies this`order, this`buckets
      ensures State() == Touch(old(State()), key, b, cfg.maxBuckets)
    {
      if key in buckets { order, buckets := Without(order, key), buckets - {key}; }
      ghost var start := State();
      while |order| >= cfg.maxBuckets
        invariant EvictDownTo(State(), cfg.maxBuckets - 1) == EvictDownTo(start, cfg.maxBuckets - 1)
        decreases |order|
      {
        var oldest := order[0];
        order, buckets := order[1..], buckets - {oldest};
      }
      order, buckets := order + [key], buckets[key := b];
    }

    method ConsumeToken(policy: Policy, client: string, now: int) returns (decision: Decision)
      requires cfg.Valid()
      modifies this`order, this`buckets
      ensures (State(), decision) == Consume(cfg, old(State()), Key(policy, client), now)
    {
      hide Touch, CeilingDivide;
      var key, l := Key(policy, client), cfg.limits[policy];
      var available := l.burst * TOKEN;
      if key in buckets {
        var elapsed := Max(0, now - buckets[key].updatedAt);
        available := Min(l.burst * TOKEN, buckets[key].tokens + elapsed * l.requestsPerMinute);
      }
      if available < TOKEN {
        TouchBucket(key, Bucket(available, now));
        var missing := TOKEN - available;
        return Decision(false, 0, Max(1, CeilingDivide(missing, l.requestsPerMinute * 1000)));
      }
      var remaining := available - TOKEN;
      TouchBucket(key, Bucket(remaining, now));
      return Decision(true, Max(0, remaining / TOKEN), 0);
    }

    method Enter(p: Policy) returns (entered: bool)
      requires cfg.Valid()
      modifies this`inFlight
      ensures (inFlight, entered) == TryEnter(cfg, old(inFlight), p)
    {
      var current := if p in inFlight then inFlight[p] else 0;
      if current >= cfg.limits[p].maxInFlight { return false; }
      inFlight := inFlight[p := current + 1];
      return true;
    }

    method Exit(p: Policy)
      modifies this`inFlight
      ensures inFlight == Leave(old(inFlight), p)
    {
      var current := if p in inFlight then inFlight[p] else 0;
      if current <= 1 { inFlight := inFlight - {p}; } else { inFlight := inFlight[p := current - 1]; }
    }
  }

  // ---------- waiting as told ----------

  lemma {:induction false} CeilingBounds(a: int, b: int)
    requires b > 0
    ensures a <= CeilingDivide(a, b) * b < a + b
  {
  }

  lemma {:induction false} Scale(r: int, rate: int, missing: int, elapsed: int)
    requires rate > 0 && missing <= r * (rate * 1000) && elapsed >= 1000 * r
    ensures missing <= elapsed * rate
  {
    assert elapsed * rate >= (1000 * r) * rate;
    assert (1000 * r) * rate == r * (rate * 1000);
  }

  lemma {:induction false} ScaleBelow(s: int, r: int, rate: int, missing: int)
    requires rate > 0 && s < r && r * (rate * 1000) < missing + rate * 1000
    ensures (1000 * s) * rate < missing
  {
    assert s * (rate * 1000) <= (r - 1) * (rate * 1000);
    assert (r - 1) * (rate * 1000) == r * (rate * 1000) - rate * 1000;
    assert (1000 * s) * rate == s * (rate * 1000);
  }

  /**
   A refused client that waits retryAfterSeconds is admitted, and apart from the one-second minimum no
   shorter whole number of seconds would do.
   */
  lemma {:induction false} RetryAfterIsRight(l: Limits, existing: Option<Bucket>, now: int, later: int)
    requires l.Valid() && !Decide(l, existing, now).1.allowed
    ensures var (bucket, refused) := Decide(l, existing, now);
      && refused.retryAfterSeconds >= 1
      && (later >= now + 1000 * refused.retryAfterSeconds ==> Decide(l, Some(bucket), later).1.allowed)
      && (forall s :: 1 <= s < refused.retryAfterSeconds ==> !Decide(l, Some(bucket), now + 1000 * s).1.allowed)
  {
    hide CeilingDivide;
    var available, rate := Available(l, existing, now), l.requestsPerMinute;
    var missing := TOKEN - available;
    var r := CeilingDivide(missing, rate * 1000);
    CeilingBounds(missing, rate * 1000);
    if later >= now + 1000 * Max(1, r) {
      WholeSeconds(r, rate * 1000);
      Scale(Max(1, r), rate, missing, later - now);
    }
    forall s | 1 <= s < r ensures (1000 * s) * rate < missing { ScaleBelow(s, r, rate, missing); }
  }

  lemma {:induction false} WholeSeconds(r: int, unit: int)
    requires unit > 0
    ensures r * unit <= Max(1, r) * unit
  {
  }

  // ---------- admissions in a window ----------

  /** How many of the requests, all for one key and at the given times, are let through. */
  function Admitted(l: Limits, existing: Option<Bucket>, times: seq<int>): (res: (nat, Option<Bucket>))
    requires l.Valid()
    decreases |times|
  {
    if times == [] then (0, existing)
    else
      var n := |times| - 1;
      var (count, bucket) := Admitted(l, existing, times[..n]);
      var (after, decision) := Decide(l, bucket, times[n]);
      (count + if decision.allowed then 1 else 0, Some(after))
  }

  predicate NonDecreasing(times: seq<int>) { forall i, j :: 0 <= i < j < |times| ==> times[i] <= times[j] }

  lemma {:induction false} TokensSpent(l: Limits, existing: Option<Bucket>, times: seq<int>)
    requires l.Valid() && NonDecreasing(times) && times != []
    ensures var (count, bucket) := Admitted(l, existing, times);
      && bucket.Some? && bucket.value.updatedAt == times[|times| - 1]
      && count * TOKEN + bucket.value.tokens
           <= Available(l, existing, times[0]) + (times[|times| - 1] - times[0]) * l.requestsPerMinute
    decreases |times|
  {
    hide CeilingDivide;
    var n := |times| - 1;
    if n == 0 {
      assert times[..0] == [];
      assert Admitted(l, existing, []) == (0, existing);
    } else {
      var init := times[..n];
      TokensSpent(l, existing, init);
      assert init[|init| - 1] == times[n - 1] && init[0] == times[0];
      Distribute(times[n - 1] - times[0], times[n] - times[n - 1], l.requestsPerMinute);
    }
  }

  lemma {:induction false} Distribute(a: int, b: int, c: int)
    ensures (a + b) * c == a * c + b * c
  {
  }

  /**
   In any window of time one client gets at most burst + rate × length admissions, whatever its bucket
   held when the window began.
   */
  lemma {:induction false} WindowBound(l: Limits, existing: Option<Bucket>, times: seq<int>, start: int, length: nat)
    requires l.Valid() && NonDecreasing(times)
    requires forall t :: t in times ==> start <= t <= start + length
    requires existing.Some? ==> existing.value.tokens >= 0
    ensures Admitted(l, existing, times).0 * TOKEN <= l.burst * TOKEN + length * l.requestsPerMinute
  {
    if times != [] {
      TokensSpent(l, existing, times);
      TokensStay(l, existing, times);
      var first, last := times[0], times[|times| - 1];
      assert first in times && last in times;
      Monotone(last - first, length, l.requestsPerMinute);
    } else {
      Monotone(0, length, l.requestsPerMinute);
    }
  }

  lemma {:induction false} Monotone(a: int, b: int, c: int)
    requires a <= b && c >= 0
    ensures a * c <= b * c
  {
  }

  lemma {:induction false} TokensStay(l: Limits, existing: Option<Bucket>, times: seq<int>)
    requires l.Valid() && (existing.Some? ==> existing.value.tokens >= 0)
    ensures Admitted(l, existing, times).1.Some? ==> Admitted(l, existing, times).1.value.tokens >= 0
    decreases |times|
  {
    hide CeilingDivide;
    if times != [] {
      var n := |times| - 1;
      TokensStay(l, existing, times[..n]);
      var bucket := Admitted(l, existing, times[..n]).1;
      if bucket.Some? { Monotone(0, Max(0, times[n] - bucket.value.updatedAt), l.requestsPerMinute); }
    }
  }

  // ---------- exactly when every call is admitted ----------

  /** Tokens the j-th call would find if the bucket had last been full at the i-th and every call since was admitted. */
  function Room(l: Limits, times: seq<int>, i: int, j: int): int
    requires 0 <= i <= j < |times|
  {
    l.burst * TOKEN + (times[j] - times[i]) * l.requestsPerMinute - (j - i) * TOKEN
  }

  /** What call j finds if every call before it was admitted: the least of what any full moment leaves for it. */
  lemma {:induction false} FindsLeast(l: Limits, times: seq<int>, j: nat) returns (full: nat)
    requires l.Valid() && NonDecreasing(times) && j < |times| && Admitted(l, None, times[..j]).0 == j
    ensures var found := Available(l, Admitted(l, None, times[..j]).1, times[j]);
      && full <= j && found == Room(l, times, full, j)
      && forall i :: 0 <= i <= j ==> found <= Room(l, times, i, j)
    decreases j
  {
    hide CeilingDivide;
    full := j;
    if j > 0 {
      assert times[..j][..j - 1] == times[..j - 1];
      AtMostAll(l, times[..j - 1]);
      var before := FindsLeast(l, times, j - 1);
      forall i | 0 <= i < j
        ensures Room(l, times, i, j) ==
          Room(l, times, i, j - 1) - TOKEN + (times[j] - times[j - 1]) * l.requestsPerMinute
      {
        Distribute(times[j - 1] - times[i], times[j] - times[j - 1], l.requestsPerMinute);
      }
      var bucket := Admitted(l, None, times[..j]).1.value;
      assert bucket.tokens == Room(l, times, before, j - 1) - TOKEN && bucket.updatedAt == times[j - 1];
      if Room(l, times, before, j) < l.burst * TOKEN { full := before; }
    }
  }

  lemma {:induction false} AtMostAll(l: Limits, times: seq<int>)
    requires l.Valid()
    ensures Admitted(l, None, times).0 <= |times|
    decreases |times|
  {
    hide Decide;
    if times != [] { AtMostAll(l, times[..|times| - 1]); }
  }

  /** No stretch of calls is longer than the burst and what is refilled from its first to its last call. */
  ghost predicate Affordable(l: Limits, times: seq<int>) {
    forall i, j :: 0 <= i <= j < |times| ==>
      (j - i + 1) * TOKEN <= l.burst * TOKEN + (times[j] - times[i]) * l.requestsPerMinute
  }

  /** While the clock does not go back, every call of a new client is admitted exactly when they are affordable. */
  lemma {:induction false} AllAdmittedExactlyWhen(l: Limits, times: seq<int>)
    requires l.Valid() && NonDecreasing(times)
    ensures Admitted(l, None, times).0 == |times| <==> Affordable(l, times)
    decreases |times|
  {
    hide Available, CeilingDivide;
    if times != [] {
      var n := |times| - 1;
      var init := times[..n];
      AllAdmittedExactlyWhen(l, init);
      AtMostAll(l, init);
      if Admitted(l, None, init).0 == n {
        var full := FindsLeast(l, times, n);
        forall i | 0 <= i <= n
          ensures Room(l, times, i, n) >= TOKEN
            <==> (n - i + 1) * TOKEN <= l.burst * TOKEN + (times[n] - times[i]) * l.requestsPerMinute
        {
        }
        AffordableMore(l, times);
      } else {
        NotAffordableYet(l, times);
      }
    }
  }

  lemma {:induction false} AffordableMore(l: Limits, times: seq<int>)
    requires times != [] && Affordable(l, times[..|times| - 1])
    ensures var n := |times| - 1;
      Affordable(l, times) <==>
        forall i :: 0 <= i <= n ==>
          (n - i + 1) * TOKEN <= l.burst * TOKEN + (times[n] - times[i]) * l.requestsPerMinute
  {
    var init := times[..|times| - 1];
    forall i, j | 0 <= i <= j < |init|
      ensures (j - i + 1) * TOKEN <= l.burst * TOKEN + (times[j] - times[i]) * l.requestsPerMinute
    {
      assert init[i] == times[i] && init[j] == times[j];
    }
  }

  lemma {:induction false} NotAffordableYet(l: Limits, times: seq<int>)
    requires times != [] && !Affordable(l, times[..|times| - 1])
    ensures !Affordable(l, times)
  {
    var init := times[..|times| - 1];
    var i, j :| 0 <= i <= j < |init|
      && (j - i + 1) * TOKEN > l.burst * TOKEN + (init[j] - init[i]) * l.requestsPerMinute;
    assert init[i] == times[i] && init[j] == times[j];
  }

  /** Further calls at the same moment are admitted for as long as whole tokens are left. */
  lemma {:induction false} CallsAtOnce(l: Limits, b: Bucket, times: seq<int>)
    requires l.Valid() && 0 <= b.tokens <= l.burst * TOKEN && forall t :: t in times ==> t == b.updatedAt
    ensures var (count, bucket) := Admitted(l, Some(b), times);
      && count == Min(|times|, b.tokens / TOKEN)
      && bucket == Some(Bucket(b.tokens - count * TOKEN, b.updatedAt))
    decreases |times|
  {
    hide CeilingDivide;
    if times != [] {
      var n := |times| - 1;
      forall t | t in times[..n] ensures t == b.updatedAt { assert t in times; }
      CallsAtOnce(l, b, times[..n]);
      assert times[n] in times;
    }
  }

  /** An admitted client that is told n remaining can call n times more at that moment, and not once more. */
  lemma {:induction false} RemainingIsRight(l: Limits, existing: Option<Bucket>, now: int, times: seq<int>)
    requires l.Valid() && Decide(l, existing, now).1.allowed && forall t :: t in times ==> t == now
    ensures var (bucket, decision) := Decide(l, existing, now);
      Admitted(l, Some(bucket), times).0 == Min(|times|, decision.remaining)
  {
    CallsAtOnce(l, Decide(l, existing, now).0, times);
  }

  // ---------- the table never overflows, and keeps what is in use ----------

  ghost predicate TableOk(t: Table, maxBuckets: nat) {
    && (forall k :: k in t.order <==> k in t.buckets)
    && (forall i, j :: 0 <= i < j < |t.order| ==> t.order[i] != t.order[j])
    && |t.order| <= maxBuckets
  }

  lemma {:induction false} WithoutIs(order: seq<Key>, key: Key)
    requires forall i, j :: 0 <= i < j < |order| ==> order[i] != order[j]
    ensures var after := Without(order, key);
      && (forall k :: k in after <==> k in order && k != key)
      && (forall i, j :: 0 <= i < j < |after| ==> after[i] != after[j])
      && |after| == |order| - (if key in order then 1 else 0)
    decreases |order|
  {
    if order != [] {
      var rest := order[1..];
      WithoutIs(rest, key);
      assert order == [order[0]] + rest;
      if order[0] == key {
        assert key !in rest;
      } else {
        var after := Without(order, key);
        forall i, j | 0 <= i < j < |after| ensures after[i] != after[j] {
          assert after[j] == Without(rest, key)[j - 1] && after[j] in Without(rest, key);
          if i > 0 { assert after[i] == Without(rest, key)[i - 1]; }
        }
      }
    }
  }

  lemma {:induction false} AppendOk(t: Table, key: Key, b: Bucket, maxBuckets: nat)
    requires TableOk(t, maxBuckets) && key !in t.order && |t.order| < maxBuckets
    ensures TableOk(Table(t.order + [key], t.buckets[key := b]), maxBuckets)
  {
  }

  lemma {:induction false} DeleteOk(t: Table, key: Key, maxBuckets: nat)
    requires TableOk(t, maxBuckets) && key in t.buckets
    ensures TableOk(Delete(t, key), maxBuckets) && key !in Delete(t, key).order && |Delete(t, key).order| < maxBuckets
  {
    WithoutIs(t.order, key);
  }

  lemma {:induction false} DropOldestOk(t: Table, maxBuckets: nat)
    requires TableOk(t, maxBuckets) && t.order != []
    ensures TableOk(Table(t.order[1..], t.buckets - {t.order[0]}), maxBuckets)
    ensures forall k :: k in t.order[1..] ==> k in t.order
  {
    assert t.order == [t.order[0]] + t.order[1..];
  }

  /** A touch moves the key to the end; only a new key in a full table costs the oldest one its bucket. */
  lemma {:induction false} TouchKeeps(t: Table, key: Key, b: Bucket, maxBuckets: nat)
    requires TableOk(t, maxBuckets) && maxBuckets > 0
    ensures TableOk(Touch(t, key, b, maxBuckets), maxBuckets)
    ensures Touch(t, key, b, maxBuckets) ==
      if key in t.buckets then Table(Without(t.order, key) + [key], t.buckets[key := b])
      else if |t.order| < maxBuckets then Table(t.order + [key], t.buckets[key := b])
      else Table(t.order[1..] + [key], (t.buckets - {t.order[0]})[key := b])
  {
    hide TableOk, Without;
    KeysMatch(t, key, maxBuckets);
    if key in t.buckets {
      DeleteOk(t, key, maxBuckets);
      AppendOk(Delete(t, key), key, b, maxBuckets);
      assert (t.buckets - {key})[key := b] == t.buckets[key := b];
    } else if |t.order| < maxBuckets {
      AppendOk(t, key, b, maxBuckets);
    } else {
      var rest := Table(t.order[1..], t.buckets - {t.order[0]});
      DropOldestOk(t, maxBuckets);
      AppendOk(rest, key, b, maxBuckets);
      assert EvictDownTo(rest, maxBuckets - 1) == rest;
    }
  }

  lemma {:induction false} KeysMatch(t: Table, key: Key, maxBuckets: nat)
    requires TableOk(t, maxBuckets)
    ensures key in t.order <==> key in t.buckets
    ensures |t.order| <= maxBuckets
  {
  }

  datatype Call = Call(key: Key, now: int)

  function ConsumeAll(cfg: Config, t: Table, calls: seq<Call>): (res: (Table, seq<Decision>))
    requires cfg.Valid()
    ensures |res.1| == |calls|
    decreases |calls|
  {
    if calls == [] then (t, [])
    else
      var n := |calls| - 1;
      var (before, decisions) := ConsumeAll(cfg, t, calls[..n]);
      var (after, decision) := Consume(cfg, before, calls[n].key, calls[n].now);
      (after, decisions + [decision])
  }

  /** However many clients call, there are never more than maxBuckets buckets. */
  lemma {:induction false} NeverTooManyBuckets(cfg: Config, t: Table, calls: seq<Call>)
    requires cfg.Valid() && TableOk(t, cfg.maxBuckets)
    ensures TableOk(ConsumeAll(cfg, t, calls).0, cfg.maxBuckets)
    decreases |calls|
  {
    hide TableOk, Touch, Decide;
    if calls != [] {
      var n := |calls| - 1;
      NeverTooManyBuckets(cfg, t, calls[..n]);
      var before := ConsumeAll(cfg, t, calls[..n]).0;
      TouchKeeps(before, calls[n].key,
                 Decide(cfg.limits[calls[n].key.policy], Lookup(before, calls[n].key), calls[n].now).0, cfg.maxBuckets);
    }
  }

  // ---------- what eviction takes ----------

  function KeysOf(calls: seq<Call>): set<Key> { set c | c in calls :: c.key }

  /** Everything behind `key` in the order was used by the calls. */
  ghost predicate Behind(t: Table, key: Key, used: set<Key>) {
    exists i :: 0 <= i < |t.order| && t.order[i] == key && forall j :: i < j < |t.order| ==> t.order[j] in used
  }

  lemma {:induction false} DistinctCount(order: seq<Key>, used: set<Key>)
    requires (forall i, j :: 0 <= i < j < |order| ==> order[i] != order[j]) && forall k :: k in order ==> k in used
    ensures |order| <= |used|
    decreases |order|
  {
    if order != [] {
      var n := |order| - 1;
      assert order[n] in order;
      forall k | k in order[..n] ensures k in used - {order[n]} { }
      DistinctCount(order[..n], used - {order[n]});
    }
  }

  /** While fewer than maxBuckets keys are used, a touch does not evict what is in front of them. */
  lemma {:induction false} TouchSpares(t: Table, key: Key, b: Bucket, maxBuckets: nat, k: Key, used: set<Key>)
    requires TableOk(t, maxBuckets) && maxBuckets > 0 && Behind(t, k, used) && key != k
    requires |used + {key}| < maxBuckets
    ensures Behind(Touch(t, key, b, maxBuckets), k, used + {key})
    ensures k in Touch(t, key, b, maxBuckets).buckets && Touch(t, key, b, maxBuckets).buckets[k] == t.buckets[k]
  {
    hide Without;
    TouchKeeps(t, key, b, maxBuckets);
    var i :| 0 <= i < |t.order| && t.order[i] == k && forall j :: i < j < |t.order| ==> t.order[j] in used;
    assert k in t.order;
    if key in t.buckets {
      MovedBack(t.order, key, k, i, used);
    } else if |t.order| < maxBuckets {
      assert (t.order + [key])[i] == k;
    } else {
      NotOldest(t.order, key, i, used, maxBuckets);
      assert (t.order[1..] + [key])[i - 1] == k;
    }
  }

  /** In a full table the first place belongs to someone else: everyone behind k is counted in `used`. */
  lemma {:induction false} NotOldest(order: seq<Key>, key: Key, i: nat, used: set<Key>, maxBuckets: nat)
    requires (forall a, b :: 0 <= a < b < |order| ==> order[a] != order[b]) && key !in order
    requires i < |order| && |order| >= maxBuckets && |used + {key}| < maxBuckets
    requires forall j :: i < j < |order| ==> order[j] in used
    ensures i > 0
  {
    if i == 0 {
      var rest := order[1..] + [key];
      forall a, b | 0 <= a < b < |rest| ensures rest[a] != rest[b] {
        assert order[a + 1] != key;
        if b < |order| - 1 { assert rest[b] == order[b + 1]; }
      }
      DistinctCount(rest, used + {key});
    }
  }

  lemma {:induction false} MovedBack(order: seq<Key>, key: Key, k: Key, i: nat, used: set<Key>)
    requires i < |order| && order[i] == k && k != key && forall j :: i < j < |order| ==> order[j] in used
    ensures var after := Without(order, key) + [key];
      exists n :: 0 <= n < |after| && after[n] == k && forall j :: n < j < |after| ==> after[j] in used + {key}
  {
    var n := WithoutKeepsPlace(order, key, i, used);
    assert (Without(order, key) + [key])[n] == k;
  }

  lemma {:induction false} WithoutKeepsPlace(order: seq<Key>, key: Key, i: nat, used: set<Key>) returns (i': nat)
    requires i < |order| && order[i] != key && forall j :: i < j < |order| ==> order[j] in used
    ensures i' < |Without(order, key)| && Without(order, key)[i'] == order[i]
    ensures forall j :: i' < j < |Without(order, key)| ==> Without(order, key)[j] in used
    decreases |order|
  {
    if order[0] == key {
      i' := i - 1;
    } else if i == 0 {
      i' := 0;
      WithoutSubset(order[1..], key);
      forall k | k in Without(order[1..], key) ensures k in used {
        var j :| 0 <= j < |order| - 1 && order[1..][j] == k;
        assert order[j + 1] == k;
      }
      forall j | 0 < j < |Without(order, key)| ensures Without(order, key)[j] in used {
        assert Without(order, key)[j] == Without(order[1..], key)[j - 1];
      }
    } else {
      assert forall j :: i - 1 < j < |order[1..]| ==> order[1..][j] == order[j + 1];
      var inner := WithoutKeepsPlace(order[1..], key, i - 1, used);
      i' := inner + 1;
      forall j | i' < j < |Without(order, key)| ensures Without(order, key)[j] in used {
        assert Without(order, key)[j] == Without(order[1..], key)[j - 1];
      }
    }
  }

  lemma {:induction false} WithoutSubset(order: seq<Key>, key: Key)
    ensures forall k :: k in Without(order, key) ==> k in order
    decreases |order|
  {
    if order != [] { WithoutSubset(order[1..], key); }
  }

  lemma {:induction false} Smaller(a: set<Key>, b: set<Key>)
    requires a <= b
    ensures |a| <= |b|
  {
    assert b == a + (b - a);
  }

  // ---------- one client among many ----------

  function TimesOf(calls: seq<Call>, key: Key): seq<int> {
    if calls == [] then []
    else
      var n := |calls| - 1;
      TimesOf(calls[..n], key) + if calls[n].key == key then [calls[n].now] else []
  }

  function AdmittedFor(calls: seq<Call>, decisions: seq<Decision>, key: Key): nat
    requires |calls| == |decisions|
  {
    if calls == [] then 0
    else
      var n := |calls| - 1;
      AdmittedFor(calls[..n], decisions[..n], key) + if calls[n].key == key && decisions[n].allowed then 1 else 0
  }

  lemma {:induction false} TouchedItself(t: Table, key: Key, b: Bucket, maxBuckets: nat)
    requires TableOk(t, maxBuckets) && maxBuckets > 0
    ensures Behind(Touch(t, key, b, maxBuckets), key, {}) && Lookup(Touch(t, key, b, maxBuckets), key) == Some(b)
  {
    hide TableOk;
    TouchKeeps(t, key, b, maxBuckets);
    var after := Touch(t, key, b, maxBuckets);
    assert after.order[|after.order| - 1] == key;
  }

  lemma {:induction false} StaysOut(t: Table, key: Key, b: Bucket, maxBuckets: nat, k: Key)
    requires TableOk(t, maxBuckets) && maxBuckets > 0 && k !in t.buckets && k != key
    ensures k !in Touch(t, key, b, maxBuckets).buckets
  {
    TouchKeeps(t, key, b, maxBuckets);
  }

  lemma {:induction false} BehindMore(t: Table, key: Key, used: set<Key>, more: set<Key>)
    requires Behind(t, key, used) && used <= more
    ensures Behind(t, key, more)
  {
  }

  /**
   As long as fewer than maxBuckets other clients call, those in `used` before the calls included, a
   client is treated exactly as if it had a bucket of its own that is never evicted.
   */
  lemma {:induction false} ClientIsAlone(cfg: Config, t: Table, key: Key, calls: seq<Call>, used: set<Key>)
    requires cfg.Valid() && TableOk(t, cfg.maxBuckets) && (key in t.buckets ==> Behind(t, key, used))
    requires key !in used && |used + (KeysOf(calls) - {key})| < cfg.maxBuckets
    ensures var (after, decisions) := ConsumeAll(cfg, t, calls);
      && AdmittedFor(calls, decisions, key)
           == Admitted(cfg.limits[key.policy], Lookup(t, key), TimesOf(calls, key)).0
      && Lookup(after, key) == Admitted(cfg.limits[key.policy], Lookup(t, key), TimesOf(calls, key)).1
      && (key in after.buckets ==> Behind(after, key, used + (KeysOf(calls) - {key})))
    decreases |calls|
  {
    hide TableOk, Consume, Behind, Decide, ConsumeAll, AdmittedFor, TimesOf, Admitted, KeysOf, Lookup;
    var l := cfg.limits[key.policy];
    if calls == [] {
      NoCalls(cfg, t, key);
      NoKeys(key);
      assert used + (KeysOf([]) - {key}) == used;
    } else {
      var n := |calls| - 1;
      var init, c := calls[..n], calls[n];
      assert calls == init + [c];
      OneMoreKey(init, c, key, used);
      ClientIsAlone(cfg, t, key, init, used);
      NeverTooManyBuckets(cfg, t, init);
      var (before, decisions) := ConsumeAll(cfg, t, init);
      OneCall(cfg, before, c, key, used + (KeysOf(init) - {key}));
      OneMoreCall(cfg, t, init, c, key);
      OneMoreTime(l, Lookup(t, key), TimesOf(init, key), c.now);
    }
  }

  lemma {:induction false} NoKeys(key: Key)
    ensures KeysOf([]) - {key} == {}
  {
  }

  lemma {:induction false} KeysGrow(init: seq<Call>, c: Call)
    ensures KeysOf(init + [c]) == KeysOf(init) + {c.key}
  {
  }

  lemma {:induction false} OneMoreKey(init: seq<Call>, c: Call, key: Key, used: set<Key>)
    ensures var now, later := used + (KeysOf(init) - {key}), used + (KeysOf(init + [c]) - {key});
      later == now + ({c.key} - {key}) && |now| <= |later|
  {
    hide KeysOf;
    KeysGrow(init, c);
    Smaller(used + (KeysOf(init) - {key}), used + (KeysOf(init + [c]) - {key}));
  }

  lemma {:induction false} NoCalls(cfg: Config, t: Table, key: Key)
    requires cfg.Valid()
    ensures ConsumeAll(cfg, t, []) == (t, []) && AdmittedFor([], [], key) == 0 && TimesOf([], key) == []
    ensures Admitted(cfg.limits[key.policy], Lookup(t, key), []) == (0, Lookup(t, key))
  {
  }

  lemma {:induction false} OneMoreCall(cfg: Config, t: Table, init: seq<Call>, c: Call, key: Key)
    requires cfg.Valid()
    ensures var (before, decisions) := ConsumeAll(cfg, t, init);
      var (after, decision) := Consume(cfg, before, c.key, c.now);
      && ConsumeAll(cfg, t, init + [c]) == (after, decisions + [decision])
      && AdmittedFor(init + [c], decisions + [decision], key) ==
           AdmittedFor(init, decisions, key) + (if c.key == key && decision.allowed then 1 else 0)
    ensures TimesOf(init + [c], key) == TimesOf(init, key) + if c.key == key then [c.now] else []
  {
    hide Consume;
    assert (init + [c])[..|init|] == init;
    var (before, decisions) := ConsumeAll(cfg, t, init);
    var decision := Consume(cfg, before, c.key, c.now).1;
    assert (decisions + [decision])[..|init|] == decisions;
  }

  lemma {:induction false} OneMoreTime(l: Limits, existing: Option<Bucket>, times: seq<int>, now: int)
    requires l.Valid()
    ensures var (count, bucket) := Admitted(l, existing, times);
      var (after, decision) := Decide(l, bucket, now);
      Admitted(l, existing, times + [now]) == (count + if decision.allowed then 1 else 0, Some(after))
    ensures times + [] == times
  {
    hide Decide;
    assert (times + [now])[..|times|] == times;
  }

  /** One call, seen from one client: its own call uses its own bucket, and another's leaves that alone. */
  lemma {:induction false} OneCall(cfg: Config, t: Table, c: Call, key: Key, used: set<Key>)
    requires cfg.Valid() && TableOk(t, cfg.maxBuckets)
    requires c.key != key && key in t.buckets ==> Behind(t, key, used)
    requires key !in used && |used + ({c.key} - {key})| < cfg.maxBuckets
    ensures var after := Consume(cfg, t, c.key, c.now).0;
      && (if c.key == key
          then Lookup(after, key) == Some(Decide(cfg.limits[key.policy], Lookup(t, key), c.now).0)
               && Consume(cfg, t, c.key, c.now).1 == Decide(cfg.limits[key.policy], Lookup(t, key), c.now).1
          else Lookup(after, key) == Lookup(t, key))
      && (key in after.buckets ==> Behind(after, key, used + ({c.key} - {key})))
  {
    hide TableOk, Touch, Decide, Behind;
    var (b, decision) := Decide(cfg.limits[c.key.policy], Lookup(t, c.key), c.now);
    if c.key == key {
      TouchedItself(t, key, b, cfg.maxBuckets);
      BehindMore(Touch(t, key, b, cfg.maxBuckets), key, {}, used + ({c.key} - {key}));
    } else {
      assert {c.key} - {key} == {c.key};
      if key in t.buckets {
        TouchSpares(t, c.key, b, cfg.maxBuckets, key, used);
      } else {
        StaysOut(t, c.key, b, cfg.maxBuckets, key);
      }
    }
  }

  lemma {:induction false} TimesInOrder(calls: seq<Call>, key: Key)
    requires forall i, j :: 0 <= i < j < |calls| ==> calls[i].now <= calls[j].now
    ensures NonDecreasing(TimesOf(calls, key))
    ensures forall t :: t in TimesOf(calls, key) ==> exists c :: c in calls && c.now == t
    decreases |calls|
  {
    if calls != [] {
      var n := |calls| - 1;
      TimesInOrder(calls[..n], key);
      var times := TimesOf(calls[..n], key);
      forall i | 0 <= i < |times| ensures times[i] <= calls[n].now {
        assert times[i] in times;
        var c :| c in calls[..n] && c.now == times[i];
        var k :| 0 <= k < n && calls[k] == c;
      }
      assert calls[n] in calls;
    }
  }

  lemma {:induction false} TouchedElsewhere(t: Table, key: Key, b: Bucket, maxBuckets: nat, k: Key)
    requires TableOk(t, maxBuckets) && maxBuckets > 0 && k != key
    ensures Lookup(Touch(t, key, b, maxBuckets), k) == Lookup(t, k) || Lookup(Touch(t, key, b, maxBuckets), k) == None
  {
    TouchKeeps(t, key, b, maxBuckets);
  }

  /**
   A client that has a bucket may lose it to others before its first call, but not after it: its calls
   are those of a client that starts with what it had, or afresh.
   */
  lemma {:induction false} ClientStarts(cfg: Config, t: Table, key: Key, calls: seq<Call>)
    returns (start: Option<Bucket>)
    requires cfg.Valid() && TableOk(t, cfg.maxBuckets) && |KeysOf(calls) - {key}| < cfg.maxBuckets
    ensures start == Lookup(t, key) || start == None
    ensures var (after, decisions) := ConsumeAll(cfg, t, calls);
      && AdmittedFor(calls, decisions, key) == Admitted(cfg.limits[key.policy], start, TimesOf(calls, key)).0
      && Lookup(after, key) == Admitted(cfg.limits[key.policy], start, TimesOf(calls, key)).1
      && (TimesOf(calls, key) != [] && key in after.buckets ==> Behind(after, key, KeysOf(calls) - {key}))
    decreases |calls|
  {
    hide TableOk, Consume, Behind, Decide, ConsumeAll, AdmittedFor, TimesOf, Admitted, KeysOf, Lookup;
    if calls == [] {
      NoCalls(cfg, t, key);
      return Lookup(t, key);
    }
    var n := |calls| - 1;
    var init, c := calls[..n], calls[n];
    assert calls == init + [c];
    OneMoreKey(init, c, key, {});
    assert forall ks: set<Key> :: {} + ks == ks;
    start := ClientStarts(cfg, t, key, init);
    NeverTooManyBuckets(cfg, t, init);
    var (before, decisions) := ConsumeAll(cfg, t, init);
    OneMoreCall(cfg, t, init, c, key);
    if c.key != key && TimesOf(init, key) == [] {
      start := OthersFirst(cfg, before, c, key, start);
    } else {
      OneCall(cfg, before, c, key, KeysOf(init) - {key});
      OneMoreTime(cfg.limits[key.policy], start, TimesOf(init, key), c.now);
    }
  }

  lemma {:induction false} OthersFirst(cfg: Config, t: Table, c: Call, key: Key, first: Option<Bucket>)
    returns (start: Option<Bucket>)
    requires cfg.Valid() && TableOk(t, cfg.maxBuckets) && c.key != key
    requires Lookup(t, key) == Admitted(cfg.limits[key.policy], first, []).1
    ensures start == first || start == None
    ensures Admitted(cfg.limits[key.policy], first, []).0 == Admitted(cfg.limits[key.policy], start, []).0
    ensures Lookup(Consume(cfg, t, c.key, c.now).0, key) == Admitted(cfg.limits[key.policy], start, []).1
  {
    hide TableOk, Touch, Decide;
    var (b, _) := Decide(cfg.limits[c.key.policy], Lookup(t, c.key), c.now);
    TouchedElsewhere(t, c.key, b, cfg.maxBuckets, key);
    start := Lookup(Consume(cfg, t, c.key, c.now).0, key);
  }

  const NO_BUCKETS := Table([], map[])

  ghost predicate NoneNegative(t: Table) { forall k :: k in t.buckets ==> t.buckets[k].tokens >= 0 }

  lemma {:induction false} DecideNonNegative(l: Limits, existing: Option<Bucket>, now: int)
    requires l.Valid() && (existing.Some? ==> existing.value.tokens >= 0)
    ensures Decide(l, existing, now).0.tokens >= 0
  {
    hide CeilingDivide;
    if existing.Some? { Monotone(0, Max(0, now - existing.value.updatedAt), l.requestsPerMinute); }
  }

  /** Whatever was called before, and when, the table is well-formed and no bucket is below zero. */
  lemma {:induction false} EveryTable(cfg: Config, past: seq<Call>)
    requires cfg.Valid()
    ensures TableOk(ConsumeAll(cfg, NO_BUCKETS, past).0, cfg.maxBuckets)
    ensures NoneNegative(ConsumeAll(cfg, NO_BUCKETS, past).0)
    decreases |past|
  {
    hide Touch, Decide;
    NeverTooManyBuckets(cfg, NO_BUCKETS, past);
    if past != [] {
      var n := |past| - 1;
      EveryTable(cfg, past[..n]);
      var before := ConsumeAll(cfg, NO_BUCKETS, past[..n]).0;
      var l := cfg.limits[past[n].key.policy];
      DecideNonNegative(l, Lookup(before, past[n].key), past[n].now);
      TouchKeeps(before, past[n].key, Decide(l, Lookup(before, past[n].key), past[n].now).0, cfg.maxBuckets);
    }
  }

  /**
   On the running service, whatever was called before: at most burst + rate × length of one client's
   calls are admitted in a window in which fewer than maxBuckets other clients call.
   */
  lemma {:induction false} ClientWindowBound(cfg: Config, past: seq<Call>, key: Key, calls: seq<Call>, start: int,
                                             length: nat)
    requires cfg.Valid() && |KeysOf(calls) - {key}| < cfg.maxBuckets
    requires forall i, j :: 0 <= i < j < |calls| ==> calls[i].now <= calls[j].now
    requires forall c :: c in calls ==> start <= c.now <= start + length
    ensures var t := ConsumeAll(cfg, NO_BUCKETS, past).0;
      AdmittedFor(calls, ConsumeAll(cfg, t, calls).1, key) * TOKEN
        <= cfg.limits[key.policy].burst * TOKEN + length * cfg.limits[key.policy].requestsPerMinute
  {
    hide TableOk, Behind, ConsumeAll;
    EveryTable(cfg, past);
    var t := ConsumeAll(cfg, NO_BUCKETS, past).0;
    var first := ClientStarts(cfg, t, key, calls);
    TimesInOrder(calls, key);
    WindowBound(cfg.limits[key.policy], first, TimesOf(calls, key), start, length);
  }

  // ---------- when a bucket is lost ----------

  function Rest(order: seq<Key>, i: nat): seq<Key>
    requires i < |order|
  {
    order[i + 1..]
  }

  ghost predicate AheadAt(order: seq<Key>, i: nat, key: Key, used: set<Key>) {
    i < |order| && order[i] == key && forall k :: k in used ==> k in Rest(order, i)
  }

  /** `key` is in the table, and everything in `used` stands behind it. */
  ghost predicate Ahead(t: Table, key: Key, used: set<Key>) { exists i: nat :: AheadAt(t.order, i, key, used) }

  lemma {:induction false} WithoutKeepsRest(order: seq<Key>, key: Key, i: nat) returns (i': nat)
    requires i < |order| && order[i] != key
    ensures i' < |Without(order, key)| && Without(order, key)[i'] == order[i]
    ensures forall k :: k in Rest(order, i) && k != key ==> k in Rest(Without(order, key), i')
    decreases |order|
  {
    if order[0] == key {
      i' := i - 1;
      assert Rest(order[1..], i - 1) == Rest(order, i);
    } else if i == 0 {
      i' := 0;
      assert Rest(Without(order, key), 0) == Without(order[1..], key);
      WithoutHasRest(order[1..], key);
    } else {
      assert Rest(order[1..], i - 1) == Rest(order, i);
      var inner := WithoutKeepsRest(order[1..], key, i - 1);
      i' := inner + 1;
      assert Rest(Without(order, key), i') == Rest(Without(order[1..], key), inner);
    }
  }

  lemma {:induction false} WithoutHasRest(order: seq<Key>, key: Key)
    ensures forall k :: k in order && k != key ==> k in Without(order, key)
    decreases |order|
  {
    if order != [] {
      assert order == [order[0]] + order[1..];
      WithoutHasRest(order[1..], key);
    }
  }

  lemma {:induction false} AppendedRest(order: seq<Key>, key: Key, i: nat, k: Key, used: set<Key>)
    requires AheadAt(order, i, k, used)
    ensures AheadAt(order + [key], i, k, used + {key})
  {
    assert Rest(order + [key], i) == Rest(order, i) + [key];
  }

  lemma {:induction false} MovedRest(order: seq<Key>, key: Key, i: nat, k: Key, used: set<Key>) returns (i': nat)
    requires AheadAt(order, i, k, used) && k != key
    ensures AheadAt(Without(order, key) + [key], i', k, used + {key})
  {
    i' := WithoutKeepsRest(order, key, i);
    assert Rest(Without(order, key) + [key], i') == Rest(Without(order, key), i') + [key];
  }

  /** A key that survives another's touch is still ahead of everything that was used after it. */
  lemma {:induction false} TouchLeavesAhead(t: Table, key: Key, b: Bucket, maxBuckets: nat, k: Key, used: set<Key>)
    requires TableOk(t, maxBuckets) && maxBuckets > 0 && Ahead(t, k, used) && key != k
    requires k in Touch(t, key, b, maxBuckets).buckets
    ensures Ahead(Touch(t, key, b, maxBuckets), k, used + {key})
  {
    hide Without, TableOk, Touch;
    TouchKeeps(t, key, b, maxBuckets);
    var i: nat :| AheadAt(t.order, i, k, used);
    if key in t.buckets {
      var _ := MovedRest(t.order, key, i, k, used);
    } else if |t.order| < maxBuckets {
      AppendedRest(t.order, key, i, k, used);
    } else {
      assert i > 0;
      assert Rest(t.order[1..], i - 1) == Rest(t.order, i);
      AppendedRest(t.order[1..], key, i - 1, k, used);
    }
  }

  lemma {:induction false} AheadCount(t: Table, key: Key, used: set<Key>, maxBuckets: nat)
    requires TableOk(t, maxBuckets) && Ahead(t, key, used)
    ensures |used| < maxBuckets
  {
    var i: nat :| AheadAt(t.order, i, key, used);
    MembersCount(used, Rest(t.order, i));
  }

  lemma {:induction false} MembersCount(used: set<Key>, order: seq<Key>)
    requires forall k :: k in used ==> k in order
    ensures |used| <= |order|
    decreases |order|
  {
    if order != [] {
      assert order == [order[0]] + order[1..];
      MembersCount(used - {order[0]}, order[1..]);
    }
  }

  /** A client that still has its bucket after others have called is ahead of all of them. */
  lemma {:induction false} SurvivorIsAhead(cfg: Config, t: Table, key: Key, others: seq<Call>)
    requires cfg.Valid() && TableOk(t, cfg.maxBuckets) && Ahead(t, key, {})
    requires forall c :: c in others ==> c.key != key
    requires key in ConsumeAll(cfg, t, others).0.buckets
    ensures Ahead(ConsumeAll(cfg, t, others).0, key, KeysOf(others))
    decreases |others|
  {
    hide TableOk, Touch, Decide, Ahead;
    if others == [] {
      assert KeysOf(others) == {};
    } else {
      var n := |others| - 1;
      var c := others[n];
      assert c in others && others == others[..n] + [c];
      var before := ConsumeAll(cfg, t, others[..n]).0;
      NeverTooManyBuckets(cfg, t, others[..n]);
      var (b, _) := Decide(cfg.limits[c.key.policy], Lookup(before, c.key), c.now);
      if key !in before.buckets { StaysOut(before, c.key, b, cfg.maxBuckets, key); }
      SurvivorIsAhead(cfg, t, key, others[..n]);
      TouchLeavesAhead(before, c.key, b, cfg.maxBuckets, key, KeysOf(others[..n]));
      assert KeysOf(others) == KeysOf(others[..n]) + {c.key};
    }
  }

  lemma {:induction false} NoTimes(calls: seq<Call>, key: Key)
    requires forall c :: c in calls ==> c.key != key
    ensures TimesOf(calls, key) == []
    decreases |calls|
  {
    if calls != [] {
      assert calls[|calls| - 1] in calls;
      NoTimes(calls[..|calls| - 1], key);
    }
  }

  /** After its own call a client keeps its bucket exactly while fewer than maxBuckets others call. */
  lemma {:induction false} BucketSurvivesExactlyWhen(cfg: Config, past: seq<Call>, key: Key, now: int,
                                                     others: seq<Call>)
    requires cfg.Valid() && forall c :: c in others ==> c.key != key
    ensures var t := Consume(cfg, ConsumeAll(cfg, NO_BUCKETS, past).0, key, now).0;
      key in ConsumeAll(cfg, t, others).0.buckets <==> |KeysOf(others)| < cfg.maxBuckets
  {
    hide TableOk, Touch, Decide, Behind, Ahead, ConsumeAll, KeysOf;
    EveryTable(cfg, past);
    var before := ConsumeAll(cfg, NO_BUCKETS, past).0;
    var t := Consume(cfg, before, key, now).0;
    var (b, _) := Decide(cfg.limits[key.policy], Lookup(before, key), now);
    TouchKeeps(before, key, b, cfg.maxBuckets);
    TouchedItself(before, key, b, cfg.maxBuckets);
    NeverTooManyBuckets(cfg, t, others);
    if |KeysOf(others)| < cfg.maxBuckets {
      NotAmong(others, key);
      NoTimes(others, key);
      ClientIsAlone(cfg, t, key, others, {});
      assert ConsumeAll(cfg, t, others).0.buckets[key] == b by { NothingAdmitted(cfg.limits[key.policy], Some(b)); }
    }
    if key in ConsumeAll(cfg, t, others).0.buckets {
      LastIsAhead(t, key);
      SurvivorIsAhead(cfg, t, key, others);
      AheadCount(ConsumeAll(cfg, t, others).0, key, KeysOf(others), cfg.maxBuckets);
    }
  }

  lemma {:induction false} NotAmong(others: seq<Call>, key: Key)
    requires forall c :: c in others ==> c.key != key
    ensures {} + (KeysOf(others) - {key}) == KeysOf(others)
  {
  }

  lemma {:induction false} NothingAdmitted(l: Limits, existing: Option<Bucket>)
    requires l.Valid()
    ensures Admitted(l, existing, []) == (0, existing)
  {
  }

  lemma {:induction false} LastIsAhead(t: Table, key: Key)
    requires Behind(t, key, {})
    ensures Ahead(t, key, {})
  {
    var i :| 0 <= i < |t.order| && t.order[i] == key && forall j :: i < j < |t.order| ==> t.order[j] in {};
    assert AheadAt(t.order, i, key, {});
  }

  lemma {:induction false} ConsumeSplit(cfg: Config, t: Table, a: seq<Call>, b: seq<Call>, key: Key)
    requires cfg.Valid()
    ensures ConsumeAll(cfg, t, a + b).0 == ConsumeAll(cfg, ConsumeAll(cfg, t, a).0, b).0
    ensures AdmittedFor(a + b, ConsumeAll(cfg, t, a + b).1, key) >= AdmittedFor(a, ConsumeAll(cfg, t, a).1, key)
    decreases |b|
  {
    hide Consume, AdmittedFor;
    if b == [] {
      assert a + b == a;
    } else {
      var n := |b| - 1;
      var c := b[n];
      ConsumeSplit(cfg, t, a, b[..n], key);
      assert a + b == (a + b[..n]) + [c];
      OneMoreCall(cfg, t, a + b[..n], c, key);
    }
  }

  function Repeated(c: Call, n: nat): seq<Call> { seq(n, _ => c) }

  /** A fresh client gets its whole burst at once. */
  lemma {:induction false} FullBurst(l: Limits, key: Key, now: int, n: nat)
    requires l.Valid() && n <= l.burst
    ensures var times := TimesOf(Repeated(Call(key, now), n), key);
      Admitted(l, None, times) == (n, if n == 0 then None else Some(Bucket((l.burst - n) * TOKEN, now)))
    decreases n
  {
    hide CeilingDivide;
    if n > 0 {
      FullBurst(l, key, now, n - 1);
      var calls := Repeated(Call(key, now), n);
      assert calls[..n - 1] == Repeated(Call(key, now), n - 1);
      var times := TimesOf(calls[..n - 1], key);
      assert (times + [now])[..|times|] == times;
    }
  }

  /** n clients, told apart by the length of their names. */
  function Crowd(now: int, n: nat): seq<Call> {
    seq(n, i requires 0 <= i < n => Call(Key(Public, seq(i, _ => 'x')), now))
  }

  lemma {:induction false} CrowdCount(now: int, n: nat)
    ensures |KeysOf(Crowd(now, n))| == n
    ensures forall c :: c in Crowd(now, n) ==> c.key.client != "y" && |c.key.client| < n && c.now == now
    decreases n
  {
    if n > 0 {
      CrowdCount(now, n - 1);
      var last := Call(Key(Public, seq(n - 1, _ => 'x')), now);
      assert Crowd(now, n) == Crowd(now, n - 1) + [last];
      KeysGrow(Crowd(now, n - 1), last);
      assert last.key !in KeysOf(Crowd(now, n - 1));
      assert |last.key.client| == n - 1 && (n - 1 == 1 ==> last.key.client[0] == 'x');
    }
  }

  /**
   Without that many other clients the bound holds, and with them it does not: for every configuration,
   a client that uses up its burst, loses its bucket to maxBuckets others and calls once more is admitted
   burst + 1 times in a window of length zero.
   */
  lemma {:induction false} CrowdBreaksBound(cfg: Config, now: int) returns (key: Key, calls: seq<Call>)
    requires cfg.Valid()
    ensures |KeysOf(calls) - {key}| == cfg.maxBuckets && forall c :: c in calls ==> c.now == now
    ensures AdmittedFor(calls, ConsumeAll(cfg, NO_BUCKETS, calls).1, key) > cfg.limits[key.policy].burst
  {
    hide TableOk, Touch, Behind, ConsumeAll, AdmittedFor, TimesOf, Admitted, KeysOf, Crowd, Repeated, CeilingDivide;
    key := Key(Public, "y");
    var l, own := cfg.limits[Public], Call(key, now);
    var burst, crowd := Repeated(own, l.burst), Crowd(now, cfg.maxBuckets);
    calls := burst + crowd + [own];
    CrowdCount(now, cfg.maxBuckets);
    CrowdCalls(own, l.burst, now, cfg.maxBuckets);
    EmptyIsOk(cfg.maxBuckets);
    ClientIsAlone(cfg, NO_BUCKETS, key, burst, {}) by { OwnCalls(own, l.burst); }
    FullBurst(l, key, now, l.burst);
    ConsumeSplit(cfg, NO_BUCKETS, burst, crowd, key);
    BurstThenCrowd(cfg, own, l.burst, crowd);
    OneMoreCall(cfg, NO_BUCKETS, burst + crowd, own, key);
  }

  lemma {:induction false} EmptyIsOk(maxBuckets: nat)
    ensures TableOk(NO_BUCKETS, maxBuckets)
  {
  }

  lemma {:induction false} OwnCalls(own: Call, n: nat)
    ensures KeysOf(Repeated(own, n)) - {own.key} == {} && {} + (KeysOf(Repeated(own, n)) - {own.key}) == {}
  {
  }

  lemma {:induction false} CrowdCalls(own: Call, n: nat, now: int, m: nat)
    requires own.now == now && own.key.client == "y"
    ensures var calls := Repeated(own, n) + Crowd(now, m) + [own];
      && |KeysOf(calls) - {own.key}| == m && forall c :: c in calls ==> c.now == now
  {
    hide Crowd;
    CrowdCount(now, m);
    var calls := Repeated(own, n) + Crowd(now, m) + [own];
    assert forall c :: c in calls <==> c in Repeated(own, n) || c in Crowd(now, m) || c == own;
    assert forall c :: c in Repeated(own, n) ==> c == own;
    assert KeysOf(calls) - {own.key} == KeysOf(Crowd(now, m));
  }

  /** After the crowd has called, the client has no bucket. */
  lemma {:induction false} BurstThenCrowd(cfg: Config, own: Call, n: nat, crowd: seq<Call>)
    requires cfg.Valid() && n > 0 && |KeysOf(crowd)| >= cfg.maxBuckets && forall c :: c in crowd ==> c.key != own.key
    ensures Lookup(ConsumeAll(cfg, NO_BUCKETS, Repeated(own, n) + crowd).0, own.key) == None
  {
    hide Consume, KeysOf;
    var past := Repeated(own, n - 1);
    BucketSurvivesExactlyWhen(cfg, past, own.key, own.now, crowd);
    assert Repeated(own, n) == past + [own];
    OneMoreCall(cfg, NO_BUCKETS, past, own, own.key);
    ConsumeSplit(cfg, NO_BUCKETS, Repeated(own, n), crowd, own.key);
  }

  // ---------- in flight ----------

  ghost predicate WithinLimits(cfg: Config, counts: map<Policy, nat>)
    requires cfg.Valid()
  {
    forall p: Policy :: InFlight(counts, p) <= cfg.limits[p].maxInFlight
  }

  datatype Gate = EnterGate(policy: Policy) | LeaveGate(policy: Policy)

  function Pass(cfg: Config, counts: map<Policy, nat>, gates: seq<Gate>): map<Policy, nat>
    requires cfg.Valid()
    decreases |gates|
  {
    if gates == [] then counts
    else
      var before := Pass(cfg, counts, gates[..|gates| - 1]);
      match gates[|gates| - 1]
      case EnterGate(p) => TryEnter(cfg, before, p).0
      case LeaveGate(p) => Leave(before, p)
  }

  /** No policy ever has more requests in flight than allowed; leaving gives back exactly what entering took. */
  lemma {:induction false} InFlightBounded(cfg: Config, counts: map<Policy, nat>, gates: seq<Gate>, p: Policy)
    requires cfg.Valid() && WithinLimits(cfg, counts)
    ensures WithinLimits(cfg, Pass(cfg, counts, gates))
    ensures var now := Pass(cfg, counts, gates);
      && (TryEnter(cfg, now, p).1 <==> InFlight(now, p) < cfg.limits[p].maxInFlight)
      && (TryEnter(cfg, now, p).1 ==> forall q :: InFlight(Leave(TryEnter(cfg, now, p).0, p), q) == InFlight(now, q))
    decreases |gates|
  {
    if gates != [] { InFlightBounded(cfg, counts, gates[..|gates| - 1], p); }
  }
}
