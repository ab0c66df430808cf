/** The per-tenant request limit: a Redis counter for each tenant and minute, incremented per request
    and given a time to live on the first.  The comment in the code calls it a sliding window; what
    the code implements is a fixed one. */
module RateLimit {
  import opened Options

  const MINUTE: nat := 60_000  // ms

  /** None for the exempt tier; an unknown tier gets 100. */
  function Limit(tier: string): Option<nat> {
    match tier
    case "premium" => Some(500)
    case "enterprise" => Some(2000)
    case "vip" => None
    case _ => Some(100)
  }

  function Bucket(stamp: nat): nat {
    stamp / MINUTE
  }

  datatype Key = Key(tenant: string, bucket: nat)

  function Digits(n: nat): string {
    if n < 10 then [('0' as int + n) as char] else Digits(n / 10) + [('0' as int + n % 10) as char]
  }

  /** The counter's name in Redis. */
  function NameOf(key: Key): string {
    "rl:" + key.tenant + ":" + Digits(key.bucket)
  }

  lemma {:induction false} DigitsAreDigits(n: nat)
    ensures |Digits(n)| >= 1 && forall i :: 0 <= i < |Digits(n)| ==> '0' <= Digits(n)[i] <= '9'
    ensures n >= 10 ==> |Digits(n)| >= 2
    decreases n
  {
    if n >= 10 {
      DigitsAreDigits(n / 10);
    }
  }

  lemma {:induction false} DigitsDetermine(n: nat, m: nat)
    requires Digits(n) == Digits(m)
    ensures n == m
    decreases n
  {
    DigitsAreDigits(n);
    DigitsAreDigits(m);
    var s := Digits(n);
    if n >= 10 && m >= 10 {
      assert s[..|s| - 1] == Digits(n / 10) == Digits(m / 10);
      assert s[|s| - 1] == ('0' as int + n % 10) as char == ('0' as int + m % 10) as char;
      DigitsDetermine(n / 10, m / 10);
    } else if n < 10 && m < 10 {
      assert s[0] == ('0' as int + n) as char == ('0' as int + m) as char;
    }
  }

  /** Behind the last colon there is none. */
  lemma NoLongerTenant(a: string, x: string, b: string, y: string)
    requires ':' !in x && a + ":" + x == b + ":" + y
    ensures |b| <= |a|
  {
    var s := a + ":" + x;
    assert (b + ":" + y)[|b|] == ':';
    assert forall i :: |a| < i < |s| ==> s[i] == x[i - |a| - 1] && s[i] in x;
  }

  /** Tenants and minutes never share a counter, whatever the tenant's id. */
  lemma NamesAreApart(a: Key, b: Key)
    requires NameOf(a) == NameOf(b)
    ensures a == b
  {
    var x, y := Digits(a.bucket), Digits(b.bucket);
    DigitsAreDigits(a.bucket);
    DigitsAreDigits(b.bucket);
    assert NameOf(a)[3..] == a.tenant + ":" + x && NameOf(b)[3..] == b.tenant + ":" + y;
    NoLongerTenant(a.tenant, x, b.tenant, y);
    NoLongerTenant(b.tenant, y, a.tenant, x);
    var s := a.tenant + ":" + x;
    assert a.tenant == s[..|a.tenant|] && b.tenant == s[..|b.tenant|];
    assert x == s[|a.tenant| + 1..] && y == s[|b.tenant| + 1..];
    DigitsDetermine(a.bucket, b.bucket);
  }

  datatype Counter = Counter(count: nat, expiry: Option<nat>)

  type Counters = map<Key, Counter>

  /** What reaches Redis and when: a request stamped with the caller's clock and counted at a later
      moment, or the EXPIRE that follows the first count.  An EXPIRE that fails is no event. */
  datatype Event =
    | Hit(tenant: string, tier: string, stamp: nat, at: nat)
    | Ttl(key: Key, at: nat)

  function KeyOf(e: Event): Key
    requires e.Hit?
  {
    Key(e.tenant, Bucket(e.stamp))
  }

  /** The value of a counter; an expired one is gone. */
  function Current(cs: Counters, key: Key, at: nat): nat {
    if key in cs && (cs[key].expiry.Some? ==> at < cs[key].expiry.value) then cs[key].count else 0
  }

  /** INCR keeps the time to live of a counter that is there. */
  function Incremented(cs: Counters, key: Key, at: nat): Counters {
    var n := Current(cs, key, at);
    cs[key := Counter(n + 1, if n == 0 then None else cs[key].expiry)]
  }

  function Expiring(cs: Counters, key: Key, at: nat): Counters {
    var n := Current(cs, key, at);
    if n == 0 then cs else cs[key := Counter(n, Some(at + MINUTE))]
  }

  function Apply(cs: Counters, e: Event): Counters {
    match e
    case Hit(_, tier, _, at) => if Limit(tier) == None then cs else Incremented(cs, KeyOf(e), at)
    case Ttl(key, at) => Expiring(cs, key, at)
  }

  predicate Accepts(cs: Counters, e: Event) {
    e.Hit? && (Limit(e.tier).Some? ==> Current(cs, KeyOf(e), e.at) < Limit(e.tier).value)
  }

  function Run(cs: Counters, es: seq<Event>): Counters
    decreases |es|
  {
    if es == [] then cs else Run(Apply(cs, es[0]), es[1..])
  }

  /** The calls one request makes, with what the others do in between: the EXPIRE follows the first
      count of a key, unless it fails. */
  function Sent(hit: Event, isFirst: bool, meanwhile: seq<Event>, ttlAt: Option<nat>): seq<Event>
    requires hit.Hit?
  {
    if !isFirst then [hit]
    else [hit] + meanwhile + (if ttlAt == None then [] else [Ttl(KeyOf(hit), ttlAt.value)])
  }

  class TenantRateLimitMiddleware {
    var counters: Counters

    /** One request of a tenant and tier, or of none.  at is when its INCR takes effect, meanwhile what
        other requests do before its EXPIRE, and ttlAt when that takes effect, if it does. */
    method Use(tenant: Option<(string, string)>, stamp: nat, at: nat, meanwhile: seq<Event>, ttlAt: Option<nat>)
      returns (passed: bool)
      modifies this
      ensures tenant == None || tenant.value.1 == "vip" ==> passed && counters == old(counters)
      ensures (tenant.Some? && tenant.value.1 != "vip" ==>
                 (passed <==> Current(old(counters), Key(tenant.value.0, stamp / 60_000), at)
                              < match tenant.value.1 case "premium" => 500 case "enterprise" => 2000 case _ => 100))
      ensures (tenant.Some? && Limit(tenant.value.1).Some? ==>
                 var hit := Hit(tenant.value.0, tenant.value.1, stamp, at);
                 && (passed <==> Accepts(old(counters), hit))
                 && counters == Run(old(counters),
                                    Sent(hit, Current(old(counters), KeyOf(hit), at) == 0, meanwhile, ttlAt)))
      ensures (tenant.Some? && tenant.value.1 != "vip" && meanwhile == [] ==>
                 var key := Key(tenant.value.0, stamp / 60_000);
                 var n := Current(old(counters), key, at);
                 counters == old(counters)[key := Counter(n + 1,
                   if n > 0 then old(counters)[key].expiry
                   else if ttlAt.Some? then Some(ttlAt.value + 60_000) else None)])
    {
      if tenant == None {
        return true;
      }
      var limit := Limit(tenant.value.1);
      if limit == None {
        return true;
      }
      var key := Key(tenant.value.0, Bucket(stamp));
      ghost var hit := Hit(tenant.value.0, tenant.value.1, stamp, at);
      counters := Incremented(counters, key, at);
      assert counters == Run(old(counters), [hit]);
      var count := counters[key].count;
      if count == 1 {
        Others(meanwhile);
        RunAppend(old(counters), [hit], meanwhile);
        if ttlAt.Some? {
          counters := Expiring(counters, key, ttlAt.value);
          RunAppend(old(counters), [hit] + meanwhile, [Ttl(key, ttlAt.value)]);
        } else {
          assert [hit] + meanwhile + [] == [hit] + meanwhile;
        }
      }
      passed := count <= limit.value;
    }

    method Others(es: seq<Event>)
      modifies this
      ensures counters == Run(old(counters), es)
    {
      for i := 0 to |es|
        invariant counters == Run(old(counters), es[..i])
      {
        counters := Apply(counters, es[i]);
        RunAppend(old(counters), es[..i], [es[i]]);
        assert es[..i + 1] == es[..i] + [es[i]];
      }
      assert es[..|es|] == es;
    }
  }

  lemma {:induction false} RunAppend(cs: Counters, a: seq<Event>, b: seq<Event>)
    ensures Run(cs, a + b) == Run(Run(cs, a), b)
    decreases |a|
  {
    if a == [] {
      assert a + b == b;
    } else {
      assert (a + b)[1..] == a[1..] + b;
      RunAppend(Apply(cs, a[0]), a[1..], b);
    }
  }

  // ---------------------------------------------------------------- accepted per minute

  function One(b: bool): nat {
    if b then 1 else 0
  }

  predicate IsHitOf(e: Event, key: Key) {
    e.Hit? && KeyOf(e) == key
  }

  function Hits(es: seq<Event>, key: Key): nat
    decreases |es|
  {
    if es == [] then 0 else One(IsHitOf(es[0], key)) + Hits(es[1..], key)
  }

  function Accepted(cs: Counters, es: seq<Event>, key: Key): nat
    decreases |es|
  {
    if es == [] then 0
    else One(IsHitOf(es[0], key) && Accepts(cs, es[0])) + Accepted(Apply(cs, es[0]), es[1..], key)
  }

  function Min(a: nat, b: nat): nat {
    if a < b then a else b
  }

  /** The requests of a bucket are of one tier. */
  ghost predicate OneLimit(es: seq<Event>, key: Key, limit: nat) {
    limit > 0 && forall i :: 0 <= i < |es| && IsHitOf(es[i], key) ==> Limit(es[i].tier) == Some(limit)
  }

  /** Some request of the bucket is counted after its counter expired, and starts it afresh. */
  predicate Restarts(cs: Counters, es: seq<Event>, key: Key)
    decreases |es|
  {
    es != [] && ((IsHitOf(es[0], key) && key in cs && Current(cs, key, es[0].at) == 0)
                 || Restarts(Apply(cs, es[0]), es[1..], key))
  }

  /** How many requests of the bucket start its counter afresh. */
  function RestartCount(cs: Counters, es: seq<Event>, key: Key): nat
    decreases |es|
  {
    if es == [] then 0
    else
      One(IsHitOf(es[0], key) && key in cs && Current(cs, key, es[0].at) == 0)
      + RestartCount(Apply(cs, es[0]), es[1..], key)
  }

  lemma {:induction false} RestartsCounted(cs: Counters, es: seq<Event>, key: Key)
    ensures Restarts(cs, es, key) <==> RestartCount(cs, es, key) > 0
    decreases |es|
  {
    if es != [] {
      RestartsCounted(Apply(cs, es[0]), es[1..], key);
    }
  }

  /** The counter as stored, expired or not. */
  function Stored(cs: Counters, key: Key): nat {
    if key in cs then cs[key].count else 0
  }

  ghost predicate Positive(cs: Counters) {
    forall key :: key in cs ==> cs[key].count > 0
  }

  /** Until a restart the stored counter is the number of requests. */
  lemma StoredStep(cs: Counters, e: Event, key: Key, limit: nat)
    requires Positive(cs) && OneLimit([e], key, limit)
    ensures Positive(Apply(cs, e))
    ensures !IsHitOf(e, key) ==> Stored(Apply(cs, e), key) == Stored(cs, key)
    ensures IsHitOf(e, key) && !(key in cs && Current(cs, key, e.at) == 0) ==>
      Stored(Apply(cs, e), key) == Stored(cs, key) + 1 && (Accepts(cs, e) <==> Stored(cs, key) < limit)
    ensures IsHitOf(e, key) && key in cs && Current(cs, key, e.at) == 0 ==>
      Stored(Apply(cs, e), key) == 1 && Stored(cs, key) > 0 && Accepts(cs, e)
  {
    assert [e][0] == e;
  }

  lemma OneLimitSplits(es: seq<Event>, key: Key, limit: nat)
    requires es != [] && OneLimit(es, key, limit)
    ensures OneLimit([es[0]], key, limit) && OneLimit(es[1..], key, limit)
  {
  }

  lemma {:induction false} AcceptedFrom(cs: Counters, es: seq<Event>, key: Key, limit: nat)
    requires Positive(cs) && OneLimit(es, key, limit) && !Restarts(cs, es, key)
    ensures Accepted(cs, es, key) + Min(Stored(cs, key), limit) == Min(Stored(cs, key) + Hits(es, key), limit)
    decreases |es|
  {
    if es != [] {
      OneLimitSplits(es, key, limit);
      StoredStep(cs, es[0], key, limit);
      AcceptedFrom(Apply(cs, es[0]), es[1..], key, limit);
    }
  }

  /** A restart only lets more through. */
  lemma {:induction false} AcceptedAtLeast(cs: Counters, es: seq<Event>, key: Key, limit: nat)
    requires Positive(cs) && OneLimit(es, key, limit)
    ensures Accepted(cs, es, key) + Min(Stored(cs, key), limit) >= Min(Stored(cs, key) + Hits(es, key), limit)
    decreases |es|
  {
    if es != [] {
      OneLimitSplits(es, key, limit);
      StoredStep(cs, es[0], key, limit);
      AcceptedAtLeast(Apply(cs, es[0]), es[1..], key, limit);
    }
  }

  lemma {:induction false} AcceptedAfterRestart(cs: Counters, es: seq<Event>, key: Key, limit: nat)
    requires Positive(cs) && OneLimit(es, key, limit) && Restarts(cs, es, key)
    ensures Accepted(cs, es, key) + Min(Stored(cs, key), limit) >= Min(Stored(cs, key) + Hits(es, key), limit + 1)
    decreases |es|
  {
    OneLimitSplits(es, key, limit);
    StoredStep(cs, es[0], key, limit);
    if IsHitOf(es[0], key) && key in cs && Current(cs, key, es[0].at) == 0 {
      AcceptedAtLeast(Apply(cs, es[0]), es[1..], key, limit);
    } else {
      AcceptedAfterRestart(Apply(cs, es[0]), es[1..], key, limit);
    }
  }

  lemma {:induction false} AcceptedAtMost(cs: Counters, es: seq<Event>, key: Key)
    ensures Accepted(cs, es, key) <= Hits(es, key)
    decreases |es|
  {
    if es != [] {
      AcceptedAtMost(Apply(cs, es[0]), es[1..], key);
    }
  }

  /** Of the requests of one bucket as many are accepted as the smaller of their number and the limit,
      if and only if none of them restarts the counter, or they are within the limit anyway. */
  lemma AcceptedPerMinute(es: seq<Event>, key: Key, limit: nat)
    requires OneLimit(es, key, limit)
    ensures (Accepted(map[], es, key) == Min(Hits(es, key), limit)
             <==> !Restarts(map[], es, key) || Hits(es, key) <= limit)
  {
    AcceptedAtMost(map[], es, key);
    if Restarts(map[], es, key) {
      AcceptedAfterRestart(map[], es, key, limit);
    } else {
      AcceptedFrom(map[], es, key, limit);
    }
  }

  /** Each restart lets at most the limit through once more. */
  lemma {:induction false} AcceptedWithRestarts(cs: Counters, es: seq<Event>, key: Key, limit: nat)
    requires Positive(cs) && OneLimit(es, key, limit)
    ensures Accepted(cs, es, key) + Min(Stored(cs, key), limit) <= (1 + RestartCount(cs, es, key)) * limit
    decreases |es|
  {
    if es != [] {
      OneLimitSplits(es, key, limit);
      StoredStep(cs, es[0], key, limit);
      AcceptedWithRestarts(Apply(cs, es[0]), es[1..], key, limit);
    }
  }

  // ---------------------------------------------------------------- prompt requests

  /** The requests of the bucket are counted within their own minute; an EXPIRE is sent in or after
      the minute of its bucket. */
  predicate IsPrompt(e: Event, key: Key) {
    match e
    case Hit(_, _, _, at) => IsHitOf(e, key) ==> at < MINUTE * (key.bucket + 1)
    case Ttl(k, at) => k == key ==> at >= MINUTE * key.bucket
  }

  ghost predicate Prompt(es: seq<Event>, key: Key) {
    forall i :: 0 <= i < |es| ==> IsPrompt(es[i], key)
  }

  /** The counter outlives its minute. */
  ghost predicate Outlives(cs: Counters, key: Key) {
    key in cs ==>
      cs[key].count > 0 && (cs[key].expiry.Some? ==> cs[key].expiry.value >= MINUTE * (key.bucket + 1))
  }

  lemma OutlivesStep(cs: Counters, e: Event, key: Key)
    requires IsPrompt(e, key) && Outlives(cs, key)
    ensures Outlives(Apply(cs, e), key)
    ensures IsHitOf(e, key) && key in cs ==> Current(cs, key, e.at) > 0
  {
  }

  /** The time to live set on the first request never resets the counter inside its own minute. */
  lemma {:induction false} PromptNeverRestarts(cs: Counters, es: seq<Event>, key: Key)
    requires Prompt(es, key) && Outlives(cs, key)
    ensures !Restarts(cs, es, key)
    decreases |es|
  {
    if es != [] {
      assert IsPrompt(es[0], key);
      OutlivesStep(cs, es[0], key);
      PromptNeverRestarts(Apply(cs, es[0]), es[1..], key);
    }
  }

  lemma PromptIsExact(es: seq<Event>, key: Key, limit: nat)
    requires OneLimit(es, key, limit) && Prompt(es, key)
    ensures Accepted(map[], es, key) == Min(Hits(es, key), limit)
  {
    PromptNeverRestarts(map[], es, key);
    AcceptedPerMinute(es, key, limit);
  }

  // ---------------------------------------------------------------- accepted per window

  /** The request was made in the sixty seconds from a moment on. */
  predicate InWindow(e: Event, tenant: string, from: nat) {
    e.Hit? && e.tenant == tenant && from <= e.stamp < from + 60_000
  }

  function AcceptedIn(cs: Counters, es: seq<Event>, tenant: string, from: nat): nat
    decreases |es|
  {
    if es == [] then 0
    else One(InWindow(es[0], tenant, from) && Accepts(cs, es[0])) + AcceptedIn(Apply(cs, es[0]), es[1..], tenant, from)
  }

  /** A window meets at most two buckets. */
  lemma {:induction false} WindowSplits(cs: Counters, es: seq<Event>, tenant: string, from: nat)
    ensures AcceptedIn(cs, es, tenant, from) <=
            Accepted(cs, es, Key(tenant, Bucket(from))) + Accepted(cs, es, Key(tenant, Bucket(from) + 1))
    decreases |es|
  {
    if es != [] {
      if InWindow(es[0], tenant, from) {
        var key := KeyOf(es[0]);
        assert key.bucket == Bucket(from) || key.bucket == Bucket(from) + 1;
      }
      WindowSplits(Apply(cs, es[0]), es[1..], tenant, from);
    }
  }

  /** Any sixty seconds of requests, whenever they are counted: twice the limit, and once more for each
      restart of the two counters they meet. */
  lemma AnyWindowBound(es: seq<Event>, tenant: string, limit: nat, from: nat)
    requires OneLimit(es, Key(tenant, Bucket(from)), limit) && OneLimit(es, Key(tenant, Bucket(from) + 1), limit)
    ensures var restarts := RestartCount(map[], es, Key(tenant, Bucket(from)))
                            + RestartCount(map[], es, Key(tenant, Bucket(from) + 1));
            AcceptedIn(map[], es, tenant, from) <= (2 + restarts) * limit
  {
    WindowSplits(map[], es, tenant, from);
    AcceptedWithRestarts(map[], es, Key(tenant, Bucket(from)), limit);
    AcceptedWithRestarts(map[], es, Key(tenant, Bucket(from) + 1), limit);
  }

  /** So at most twice the limit as long as neither counter restarts past it. */
  lemma AnyWindowTwiceLimit(es: seq<Event>, tenant: string, limit: nat, from: nat)
    requires OneLimit(es, Key(tenant, Bucket(from)), limit) && OneLimit(es, Key(tenant, Bucket(from) + 1), limit)
    requires forall key :: key in {Key(tenant, Bucket(from)), Key(tenant, Bucket(from) + 1)} ==>
      !Restarts(map[], es, key) || Hits(es, key) <= limit
    ensures AcceptedIn(map[], es, tenant, from) <= 2 * limit
  {
    WindowSplits(map[], es, tenant, from);
    WithinLimit(es, Key(tenant, Bucket(from)), limit);
    WithinLimit(es, Key(tenant, Bucket(from) + 1), limit);
  }

  lemma WithinLimit(es: seq<Event>, key: Key, limit: nat)
    requires OneLimit(es, key, limit) && (!Restarts(map[], es, key) || Hits(es, key) <= limit)
    ensures Accepted(map[], es, key) <= limit
  {
    AcceptedAtMost(map[], es, key);
    RestartsCounted(map[], es, key);
    AcceptedWithRestarts(map[], es, key, limit);
  }

  function Repeat(e: Event, n: nat): seq<Event> {
    if n == 0 then [] else [e] + Repeat(e, n - 1)
  }

  lemma {:induction false} HitsOfRepeat(e: Event, n: nat, rest: seq<Event>, key: Key)
    ensures Hits(Repeat(e, n) + rest, key) == n * One(IsHitOf(e, key)) + Hits(rest, key)
    decreases n
  {
    if n == 0 {
      assert [] + rest == rest;
    } else {
      assert (Repeat(e, n) + rest)[1..] == Repeat(e, n - 1) + rest;
      HitsOfRepeat(e, n - 1, rest, key);
    }
  }

  lemma {:induction false} WindowOfAll(cs: Counters, es: seq<Event>, tenant: string, from: nat)
    requires forall i :: 0 <= i < |es| && es[i].Hit? ==> InWindow(es[i], tenant, from)
    ensures AcceptedIn(cs, es, tenant, from) ==
            Accepted(cs, es, Key(tenant, Bucket(from))) + Accepted(cs, es, Key(tenant, Bucket(from) + 1))
    decreases |es|
  {
    if es != [] {
      WindowOfAll(Apply(cs, es[0]), es[1..], tenant, from);
    }
  }

  lemma {:induction false} RepeatIs(e: Event, n: nat)
    ensures |Repeat(e, n)| == n && forall i :: 0 <= i < n ==> Repeat(e, n)[i] == e
    decreases n
  {
    if n > 0 {
      RepeatIs(e, n - 1);
    }
  }

  /** The bound is reached: the limit at the end of one minute, and again at the start of the next. */
  lemma TwiceLimitIsReached(tenant: string, tier: string) returns (es: seq<Event>, from: nat)
    requires Limit(tier).Some?
    ensures forall bucket: nat :: Prompt(es, Key(tenant, bucket))
    ensures AcceptedIn(map[], es, tenant, from) == 2 * Limit(tier).value
  {
    var limit := Limit(tier).value;
    from := MINUTE - 1;
    var a, b := Hit(tenant, tier, from, from), Hit(tenant, tier, MINUTE, MINUTE);
    es := Repeat(a, limit) + Repeat(b, limit);
    RepeatIs(a, limit);
    RepeatIs(b, limit);
    forall i | 0 <= i < |es| ensures es[i] == a || es[i] == b {}
    forall bucket: nat ensures Prompt(es, Key(tenant, bucket)) {
      assert IsPrompt(a, Key(tenant, bucket)) && IsPrompt(b, Key(tenant, bucket));
    }
    WindowOfAll(map[], es, tenant, from);
    BurstHits(a, b, limit, Key(tenant, 0), Key(tenant, 1));
    PromptIsExact(es, Key(tenant, 0), limit);
    PromptIsExact(es, Key(tenant, 1), limit);
  }

  lemma BurstHits(a: Event, b: Event, limit: nat, k: Key, k': Key)
    requires IsHitOf(a, k) && IsHitOf(b, k') && k != k'
    ensures Hits(Repeat(a, limit) + Repeat(b, limit), k) == limit
    ensures Hits(Repeat(a, limit) + Repeat(b, limit), k') == limit
  {
    HitsOfRepeat(a, limit, Repeat(b, limit), k);
    HitsOfRepeat(a, limit, Repeat(b, limit), k');
    assert Repeat(b, limit) + [] == Repeat(b, limit);
    HitsOfRepeat(b, limit, [], k);
    HitsOfRepeat(b, limit, [], k');
  }

  lemma {:induction false} HitsOfAppend(a: seq<Event>, b: seq<Event>, key: Key)
    ensures Hits(a + b, key) == Hits(a, key) + Hits(b, key)
    decreases |a|
  {
    if a == [] {
      assert a + b == b;
    } else {
      assert (a + b)[1..] == a[1..] + b;
      HitsOfAppend(a[1..], b, key);
    }
  }

  lemma {:induction false} RestartsLater(cs: Counters, a: seq<Event>, b: seq<Event>, key: Key)
    requires Restarts(Run(cs, a), b, key)
    ensures Restarts(cs, a + b, key)
    decreases |a|
  {
    if a == [] {
      assert a + b == b;
    } else {
      assert (a + b)[1..] == a[1..] + b;
      RestartsLater(Apply(cs, a[0]), a[1..], b, key);
    }
  }

  lemma {:induction false} OutlivesRun(cs: Counters, es: seq<Event>, key: Key, limit: nat)
    requires OneLimit(es, key, limit) && Prompt(es, key) && Outlives(cs, key)
    ensures Outlives(Run(cs, es), key) && (Hits(es, key) > 0 || key in cs ==> key in Run(cs, es))
    decreases |es|
  {
    if es != [] {
      assert IsPrompt(es[0], key);
      OutlivesStep(cs, es[0], key);
      OneLimitSplits(es, key, limit);
      OutlivesRun(Apply(cs, es[0]), es[1..], key, limit);
    }
  }

  /** Restarts do happen: a request stamped in a minute but counted a minute after its EXPIRE starts the
      counter afresh, so that the bucket accepts more than the limit. */
  lemma LateCountIsFree(es: seq<Event>, key: Key, tier: string, ttlAt: nat, stamp: nat)
    requires Limit(tier).Some? && OneLimit(es, key, Limit(tier).value) && Prompt(es, key)
    requires Hits(es, key) >= Limit(tier).value
    requires ttlAt < MINUTE * (key.bucket + 1) && Bucket(stamp) == key.bucket
    ensures var late := Hit(key.tenant, tier, stamp, ttlAt + MINUTE);
            var all := es + [Ttl(key, ttlAt), late];
            Accepted(map[], all, key) > Limit(tier).value && Restarts(map[], all, key)
  {
    var limit := Limit(tier).value;
    var ttl, late := Ttl(key, ttlAt), Hit(key.tenant, tier, stamp, ttlAt + MINUTE);
    var all := es + [ttl, late];
    OutlivesRun(map[], es, key, limit);
    LateRestarts(Run(map[], es), key, ttl, late);
    RestartsLater(map[], es, [ttl, late], key);
    HitsOfAppend(es, [ttl, late], key);
    assert [ttl, late][1..] == [late] && [late][1..] == [];
    assert Hits([late], key) == 1;
    assert OneLimit(all, key, limit);
    AcceptedAfterRestart(map[], all, key, limit);
  }

  lemma LateRestarts(cs: Counters, key: Key, ttl: Event, late: Event)
    requires Outlives(cs, key) && key in cs && ttl.Ttl? && ttl.key == key && ttl.at < MINUTE * (key.bucket + 1)
    requires IsHitOf(late, key) && late.at == ttl.at + MINUTE
    ensures Restarts(cs, [ttl, late], key)
  {
    assert [ttl, late][1..] == [late];
    assert Restarts(Apply(cs, ttl), [late], key);
  }

  // ---------------------------------------------------------------- the window bound is tight

  lemma {:induction false} Appended(cs: Counters, a: seq<Event>, b: seq<Event>, key: Key)
    ensures Accepted(cs, a + b, key) == Accepted(cs, a, key) + Accepted(Run(cs, a), b, key)
    ensures RestartCount(cs, a + b, key) == RestartCount(cs, a, key) + RestartCount(Run(cs, a), b, key)
    decreases |a|
  {
    if a == [] {
      assert a + b == b;
    } else {
      assert (a + b)[1..] == a[1..] + b;
      Appended(Apply(cs, a[0]), a[1..], b, key);
    }
  }

  /** Requests counted at one moment, from where the counter stands. */
  lemma {:induction false} BurstFills(cs: Counters, e: Event, n: nat)
    requires e.Hit? && Limit(e.tier).Some? && Current(cs, KeyOf(e), e.at) + n <= Limit(e.tier).value
    ensures Accepted(cs, Repeat(e, n), KeyOf(e)) == n
    ensures RestartCount(cs, Repeat(e, n), KeyOf(e)) ==
            One(n > 0 && KeyOf(e) in cs && Current(cs, KeyOf(e), e.at) == 0)
    ensures Current(Run(cs, Repeat(e, n)), KeyOf(e), e.at) == Current(cs, KeyOf(e), e.at) + n
    ensures Run(cs, Repeat(e, n)).Keys == if n > 0 then cs.Keys + {KeyOf(e)} else cs.Keys
    decreases n
  {
    if n > 0 {
      assert Repeat(e, n)[1..] == Repeat(e, n - 1);
      BurstFills(Apply(cs, e), e, n - 1);
    }
  }

  /** The limit, all counted at one moment, and the EXPIRE. */
  function Cycle(e: Event): seq<Event>
    requires e.Hit? && Limit(e.tier).Some?
  {
    Repeat(e, Limit(e.tier).value) + [Ttl(KeyOf(e), e.at)]
  }

  lemma CycleRuns(cs: Counters, e: Event)
    requires e.Hit? && Limit(e.tier).Some? && Current(cs, KeyOf(e), e.at) == 0
    ensures Accepted(cs, Cycle(e), KeyOf(e)) == Limit(e.tier).value
    ensures RestartCount(cs, Cycle(e), KeyOf(e)) == One(KeyOf(e) in cs)
    ensures Run(cs, Cycle(e)).Keys == cs.Keys + {KeyOf(e)}
    ensures Current(Run(cs, Cycle(e)), KeyOf(e), e.at + MINUTE) == 0
  {
    var limit, ttl := Limit(e.tier).value, [Ttl(KeyOf(e), e.at)];
    BurstFills(cs, e, limit);
    var filled := Run(cs, Repeat(e, limit));
    RunAppend(cs, Repeat(e, limit), ttl);
    Appended(cs, Repeat(e, limit), ttl, KeyOf(e));
    assert Run(filled, ttl) == Expiring(filled, KeyOf(e), e.at);
  }

  /** n bursts of requests stamped in the last millisecond of the first minute, each counted when the
      counter of the one before has expired. */
  function Cycles(tenant: string, tier: string, n: nat): seq<Event>
    requires Limit(tier).Some?
  {
    if n == 0 then []
    else Cycles(tenant, tier, n - 1) + Cycle(Hit(tenant, tier, MINUTE - 1, n * MINUTE))
  }

  lemma {:induction false} CyclesRun(tenant: string, tier: string, n: nat)
    requires Limit(tier).Some?
    ensures var es, key := Cycles(tenant, tier, n), Key(tenant, 0);
            && Accepted(map[], es, key) == n * Limit(tier).value
            && RestartCount(map[], es, key) == (if n == 0 then 0 else n - 1)
            && Run(map[], es).Keys == (if n == 0 then {} else {key})
            && Current(Run(map[], es), key, (n + 1) * MINUTE) == 0
    decreases n
  {
    if n > 0 {
      var before, key := Cycles(tenant, tier, n - 1), Key(tenant, 0);
      var e := Hit(tenant, tier, MINUTE - 1, n * MINUTE);
      assert KeyOf(e) == key;
      CyclesRun(tenant, tier, n - 1);
      CycleRuns(Run(map[], before), e);
      RunAppend(map[], before, Cycle(e));
      Appended(map[], before, Cycle(e), key);
    }
  }

  lemma {:induction false} CyclesAre(tenant: string, tier: string, n: nat)
    requires Limit(tier).Some?
    ensures forall i :: 0 <= i < |Cycles(tenant, tier, n)| ==>
              var e := Cycles(tenant, tier, n)[i];
              if e.Hit? then e.tenant == tenant && e.tier == tier && e.stamp == MINUTE - 1 else e.key == Key(tenant, 0)
    decreases n
  {
    if n > 0 {
      CyclesAre(tenant, tier, n - 1);
      RepeatIs(Hit(tenant, tier, MINUTE - 1, n * MINUTE), Limit(tier).value);
    }
  }

  /** For every tier and every number of restarts the bound of AnyWindowBound is reached. */
  lemma WindowBoundIsReached(tenant: string, tier: string, restarts: nat) returns (es: seq<Event>, from: nat)
    requires Limit(tier).Some?
    ensures forall bucket: nat :: OneLimit(es, Key(tenant, bucket), Limit(tier).value)
    ensures RestartCount(map[], es, Key(tenant, Bucket(from))) == restarts
    ensures RestartCount(map[], es, Key(tenant, Bucket(from) + 1)) == 0
    ensures AcceptedIn(map[], es, tenant, from) == (2 + restarts) * Limit(tier).value
  {
    var limit, n := Limit(tier).value, restarts + 1;
    var first, last := Cycles(tenant, tier, n), Hit(tenant, tier, MINUTE, MINUTE);
    es, from := first + Repeat(last, limit), MINUTE - 1;
    CyclesRun(tenant, tier, n);
    CyclesAre(tenant, tier, n);
    RepeatIs(last, limit);
    WindowOfAll(map[], es, tenant, from);
    FirstBurst(tenant, tier, n, last);
    SecondBurst(tenant, tier, n, last);
    assert n * limit + limit == (2 + restarts) * limit;
  }

  lemma FirstBurst(tenant: string, tier: string, n: nat, last: Event)
    requires Limit(tier).Some? && n > 0 && last == Hit(tenant, tier, MINUTE, MINUTE)
    ensures var es := Cycles(tenant, tier, n) + Repeat(last, Limit(tier).value);
            && Accepted(map[], es, Key(tenant, 0)) == n * Limit(tier).value
            && RestartCount(map[], es, Key(tenant, 0)) == n - 1
  {
    var first, burst := Cycles(tenant, tier, n), Repeat(last, Limit(tier).value);
    CyclesRun(tenant, tier, n);
    Appended(map[], first, burst, Key(tenant, 0));
    RepeatIs(last, Limit(tier).value);
    Unconcerned(Run(map[], first), burst, Key(tenant, 0));
  }

  lemma SecondBurst(tenant: string, tier: string, n: nat, last: Event)
    requires Limit(tier).Some? && n > 0 && last == Hit(tenant, tier, MINUTE, MINUTE)
    ensures var es := Cycles(tenant, tier, n) + Repeat(last, Limit(tier).value);
            && Accepted(map[], es, Key(tenant, 1)) == Limit(tier).value
            && RestartCount(map[], es, Key(tenant, 1)) == 0
  {
    var first, burst := Cycles(tenant, tier, n), Repeat(last, Limit(tier).value);
    CyclesRun(tenant, tier, n);
    CyclesAre(tenant, tier, n);
    Appended(map[], first, burst, Key(tenant, 1));
    Unconcerned(map[], first, Key(tenant, 1));
    BurstFills(Run(map[], first), last, Limit(tier).value);
  }

  /** A run without requests of the bucket. */
  lemma {:induction false} Unconcerned(cs: Counters, es: seq<Event>, key: Key)
    requires forall i :: 0 <= i < |es| ==> !IsHitOf(es[i], key)
    ensures Accepted(cs, es, key) == 0 && RestartCount(cs, es, key) == 0
    decreases |es|
  {
    if es != [] {
      Unconcerned(Apply(cs, es[0]), es[1..], key);
    }
  }
}
