/** The flat cache key space: entries of all tenants and resources under text keys in one store,
    deleted in bulk by pattern. */
module Cache {
  import opened Options
  import RateLimit

  const DEFAULT_TTL_SECONDS: int := 300

  /** A stored value and the second from which it is gone. */
  datatype Entry<V> = Entry(value: V, expiry: nat)

  type Store<V> = map<string, Entry<V>>

  datatype Id = Id(tenant: string, resource: string, id: string)

  function KeyOf(k: Id): string {
    "t:" + k.tenant + ":" + k.resource + ":" + k.id
  }

  predicate NoColon(s: string) {
    ':' !in s
  }

  /** No character that a pattern gives a meaning. */
  predicate Literal(p: string) {
    forall c :: c in p ==> c != '*' && c != '?' && c != '[' && c != ']' && c != '\\'
  }

  predicate Clean(s: string) {
    NoColon(s) && Literal(s)
  }

  predicate CleanId(k: Id) {
    Clean(k.tenant) && Clean(k.resource)
  }

  // ---------------------------------------------------------------- keys

  lemma NoLongerField(a: string, x: string, b: string, y: string)
    requires NoColon(b) && a + ":" + x == b + ":" + y
    ensures |b| <= |a|
  {
    var s := a + ":" + x;
    assert s[|a|] == ':';
    assert forall i :: 0 <= i < |b| ==> s[i] == b[i] && b[i] in b;
  }

  /** The part of a text before its first colon is determined by the text. */
  lemma FirstField(a: string, x: string, b: string, y: string)
    requires NoColon(a) && NoColon(b) && a + ":" + x == b + ":" + y
    ensures a == b && x == y
  {
    NoLongerField(a, x, b, y);
    NoLongerField(b, y, a, x);
    var s := a + ":" + x;
    assert a == s[..|a|] && b == s[..|b|];
    assert x == s[|a| + 1..] && y == s[|b| + 1..];
  }

  /** Distinct entries have distinct keys. */
  lemma KeyIsInjective(k: Id, l: Id)
    requires NoColon(k.tenant) && NoColon(k.resource) && NoColon(l.tenant) && NoColon(l.resource)
    requires KeyOf(k) == KeyOf(l)
    ensures k == l
  {
    var x, y := k.resource + ":" + k.id, l.resource + ":" + l.id;
    assert KeyOf(k) == "t:" + (k.tenant + ":" + x);
    assert KeyOf(l) == "t:" + (l.tenant + ":" + y);
    assert KeyOf(k)[2..] == k.tenant + ":" + x;
    assert KeyOf(l)[2..] == l.tenant + ":" + y;
    FirstField(k.tenant, x, l.tenant, y);
    FirstField(k.resource, k.id, l.resource, l.id);
  }

  /** A colon in a resource makes two entries share a key. */
  lemma ColonAliases(t: string, r: string, s: string, id: string)
    ensures KeyOf(Id(t, r + ":" + s, id)) == KeyOf(Id(t, r, s + ":" + id))
    ensures Id(t, r + ":" + s, id) != Id(t, r, s + ":" + id)
  {
    assert |r + ":" + s| > |r|;
    assert KeyOf(Id(t, r + ":" + s, id)) == "t:" + t + ":" + r + ":" + s + ":" + id;
    assert KeyOf(Id(t, r, s + ":" + id)) == "t:" + t + ":" + r + ":" + s + ":" + id;
  }

  // ---------------------------------------------------------------- patterns

  /** Redis patterns made of stars, question marks and literal characters. */
  predicate Glob(p: string, s: string)
    decreases |p|, |s|
  {
    if p == "" then s == ""
    else if p[0] == '*' then Glob(p[1..], s) || (s != "" && Glob(p, s[1..]))
    else s != "" && (p[0] == '?' || p[0] == s[0]) && Glob(p[1..], s[1..])
  }

  lemma {:induction false} StarMatchesAll(s: string)
    ensures Glob("*", s)
    decreases |s|
  {
    if s == "" {
      assert "*"[1..] == "";
    } else {
      StarMatchesAll(s[1..]);
    }
  }

  /** A literal prefix and a star match exactly the texts with that prefix. */
  lemma {:induction false} PrefixPattern(p: string, s: string)
    requires Literal(p)
    ensures Glob(p + "*", s) <==> p <= s
    decreases |p|
  {
    if p == "" {
      assert p + "*" == "*";
      StarMatchesAll(s);
    } else {
      assert (p + "*")[1..] == p[1..] + "*";
      assert p[0] in p && forall c :: c in p[1..] ==> c in p;
      if s != "" {
        PrefixPattern(p[1..], s[1..]);
        assert p <= s <==> p[0] == s[0] && p[1..] <= s[1..] by {
          assert p == [p[0]] + p[1..] && s == [s[0]] + s[1..];
        }
      }
    }
  }

  predicate Under(prefix: string, key: string) {
    Glob(prefix + "*", key)
  }

  function ResourcePrefix(tenant: string, resource: string): string {
    "t:" + tenant + ":" + resource + ":"
  }

  function TenantPrefix(tenant: string): string {
    "t:" + tenant + ":"
  }

  function TenantLookup(tenant: string): string {
    "tenant-lookup:" + tenant
  }

  function LimiterPrefix(tenant: string): string {
    "rl:" + tenant + ":"
  }

  /** The keys with a resource's prefix are the keys of that resource of that tenant. */
  lemma ResourceKeys(k: Id, tenant: string, resource: string)
    requires CleanId(k) && Clean(tenant) && Clean(resource)
    ensures Under(ResourcePrefix(tenant, resource), KeyOf(k)) <==> k.tenant == tenant && k.resource == resource
  {
    var p := ResourcePrefix(tenant, resource);
    PrefixPattern(p, KeyOf(k));
    if p <= KeyOf(k) {
      var l := Id(tenant, resource, KeyOf(k)[|p|..]);
      assert KeyOf(k) == p + l.id == KeyOf(l);
      KeyIsInjective(k, l);
    }
    assert KeyOf(k) == ResourcePrefix(k.tenant, k.resource) + k.id;
  }

  /** The keys with a tenant's prefix are the keys of that tenant. */
  lemma TenantKeys(k: Id, tenant: string)
    requires CleanId(k) && Clean(tenant)
    ensures Under(TenantPrefix(tenant), KeyOf(k)) <==> k.tenant == tenant
  {
    var p := TenantPrefix(tenant);
    PrefixPattern(p, KeyOf(k));
    var rest := k.resource + ":" + k.id;
    assert KeyOf(k) == TenantPrefix(k.tenant) + rest;
    if p <= KeyOf(k) {
      var y := KeyOf(k)[|p|..];
      assert KeyOf(k) == p + y;
      assert KeyOf(k)[2..] == k.tenant + ":" + rest == tenant + ":" + y;
      FirstField(k.tenant, rest, tenant, y);
    }
  }

  /** The limiter's counters and the tenant lookups are no entries of any tenant. */
  lemma OtherKeyspaces(k: Id, tenant: string)
    requires Clean(tenant)
    ensures !Under(LimiterPrefix(tenant), KeyOf(k)) && KeyOf(k) != TenantLookup(tenant)
  {
    PrefixPattern(LimiterPrefix(tenant), KeyOf(k));
    assert KeyOf(k)[0] == 't' && KeyOf(k)[1] == ':';
    assert LimiterPrefix(tenant)[0] == 'r';
    assert TenantLookup(tenant)[1] == 'e';
  }

  /** The limiter's pattern of a tenant matches the counters of that tenant, for any minute, and no other's. */
  lemma LimiterKeys(key: RateLimit.Key, tenant: string)
    requires Clean(key.tenant) && Clean(tenant)
    ensures Under(LimiterPrefix(tenant), RateLimit.NameOf(key)) <==> key.tenant == tenant
  {
    var p, digits, name := LimiterPrefix(tenant), RateLimit.Digits(key.bucket), RateLimit.NameOf(key);
    PrefixPattern(p, name);
    assert name == LimiterPrefix(key.tenant) + digits;
    if p <= name {
      var y := name[|p|..];
      assert name == p + y;
      assert name[3..] == key.tenant + ":" + digits == tenant + ":" + y;
      FirstField(key.tenant, digits, tenant, y);
    }
  }

  // ---------------------------------------------------------------- the store and its log

  /** What reaches the store, from whichever task: a cache entry set for some seconds, keys deleted, a
      key of another key space set, and time passing. */
  datatype Op<V> =
    | Put(k: Id, value: V, ttl: nat)
    | Erase(owner: string, keys: set<string>)
    | PutOther(key: string, value: V, ttl: nat)
    | Elapse(seconds: nat)

  function Clock<V>(ops: seq<Op<V>>): nat {
    if ops == [] then 0
    else Clock(Init(ops)) + (match Last(ops) case Elapse(n) => n case _ => 0)
  }

  function Last<T>(xs: seq<T>): T
    requires xs != []
  {
    xs[|xs| - 1]
  }

  function Init<T>(xs: seq<T>): seq<T>
    requires xs != []
  {
    xs[..|xs| - 1]
  }

  function Applied<V>(store: Store<V>, now: nat, op: Op<V>): Store<V> {
    match op
    case Put(k, value, ttl) => store[KeyOf(k) := Entry(value, now + ttl)]
    case Erase(_, keys) => store - keys
    case PutOther(key, value, ttl) => store[key := Entry(value, now + ttl)]
    case Elapse(_) => store
  }

  function StoreAfter<V>(ops: seq<Op<V>>): Store<V> {
    if ops == [] then map[] else Applied(StoreAfter(Init(ops)), Clock(Init(ops)), Last(ops))
  }

  /** The value under a key, while it lives. */
  function Find<V>(store: Store<V>, now: nat, key: string): Option<V> {
    if key in store && now < store[key].expiry then Some(store[key].value) else None
  }

  function Lookup<V>(ops: seq<Op<V>>, key: string): Option<V> {
    Find(StoreAfter(ops), Clock(ops), key)
  }

  /** What an entry of one tenant and resource should be: the last thing done to it. */
  function LastWrite<V>(ops: seq<Op<V>>, k: Id): Option<Entry<V>> {
    if ops == [] then None
    else
      var before := LastWrite(Init(ops), k);
      match Last(ops)
      case Put(l, value, ttl) => if l == k then Some(Entry(value, Clock(Init(ops)) + ttl)) else before
      case Erase(_, keys) => if KeyOf(k) in keys then None else before
      case _ => before
  }

  function Live<V>(e: Option<Entry<V>>, now: nat): Option<V> {
    match e
    case Some(entry) => if now < entry.expiry then Some(entry.value) else None
    case None => None
  }

  /** A key of the tenant: an entry, a limiter counter, or the lookup by its id. */
  predicate OwnKey(tenant: string, key: string) {
    Under(TenantPrefix(tenant), key) || Under(LimiterPrefix(tenant), key) || key == TenantLookup(tenant)
  }

  /** Entries have clean ids, a tenant deletes keys of its own, and what other key spaces hold is no entry. */
  predicate CleanOp<V>(op: Op<V>) {
    match op
    case Put(k, _, _) => CleanId(k)
    case Erase(owner, keys) => Clean(owner) && forall key :: key in keys ==> OwnKey(owner, key)
    case PutOther(key, _, _) => !("t:" <= key)
    case Elapse(_) => true
  }

  predicate CleanOps<V>(ops: seq<Op<V>>) {
    forall i :: 0 <= i < |ops| ==> CleanOp(ops[i])
  }

  /** The flat store holds, for every tenant, resource and id, exactly the last write to it. */
  lemma {:induction false} StoreHoldsLastWrites<V>(ops: seq<Op<V>>, k: Id)
    requires CleanOps(ops) && CleanId(k)
    ensures KeyOf(k) in StoreAfter(ops) <==> LastWrite(ops, k).Some?
    ensures KeyOf(k) in StoreAfter(ops) ==> StoreAfter(ops)[KeyOf(k)] == LastWrite(ops, k).value
    decreases |ops|
  {
    if ops != [] {
      StoreHoldsLastWrites(Init(ops), k);
      match Last(ops)
      case Put(l, _, _) =>
        if KeyOf(l) == KeyOf(k) {
          KeyIsInjective(l, k);
        }
      case PutOther(key, _, _) =>
        assert CleanOp(Last(ops));
        EntryKey(k);
      case _ =>
    }
  }

  lemma EntryKey(k: Id)
    ensures "t:" <= KeyOf(k)
  {
  }

  /** A get returns the value last set under its tenant, resource and id, while it lives. */
  lemma LookupIsLastWrite<V>(ops: seq<Op<V>>, k: Id)
    requires CleanOps(ops) && CleanId(k)
    ensures Lookup(ops, KeyOf(k)) == Live(LastWrite(ops, k), Clock(ops))
  {
    StoreHoldsLastWrites(ops, k);
  }

  lemma LogGrows<V>(ops: seq<Op<V>>, op: Op<V>)
    ensures Init(ops + [op]) == ops && Last(ops + [op]) == op
    ensures Clock(ops + [op]) == Clock(ops) + (match op case Elapse(n) => n case _ => 0)
    ensures StoreAfter(ops + [op]) == Applied(StoreAfter(ops), Clock(ops), op)
    ensures CleanOps(ops + [op]) <==> CleanOps(ops) && CleanOp(op)
  {
    var all := ops + [op];
    assert Init(all) == ops;
    if CleanOps(all) {
      forall i | 0 <= i < |ops| ensures CleanOp(ops[i]) {
        assert all[i] == ops[i];
      }
      assert all[|ops|] == op;
    }
  }

  // ---------------------------------------------------------------- one tenant's view

  predicate Concerns<V>(op: Op<V>, tenant: string) {
    match op
    case Put(k, _, _) => k.tenant == tenant
    case Erase(owner, _) => owner == tenant
    case _ => true
  }

  /** The log without the other tenants' entries and deletions. */
  function Of<V>(ops: seq<Op<V>>, tenant: string): seq<Op<V>> {
    if ops == [] then []
    else
      var rest := Of(Init(ops), tenant);
      if Concerns(Last(ops), tenant) then rest + [Last(ops)] else rest
  }

  lemma {:induction false} SameClock<V>(ops: seq<Op<V>>, tenant: string)
    ensures Clock(Of(ops, tenant)) == Clock(ops)
    decreases |ops|
  {
    if ops != [] {
      SameClock(Init(ops), tenant);
      LogGrows(Of(Init(ops), tenant), Last(ops));
    }
  }

  lemma {:induction false} OfIsClean<V>(ops: seq<Op<V>>, tenant: string)
    requires CleanOps(ops)
    ensures CleanOps(Of(ops, tenant))
    decreases |ops|
  {
    if ops != [] {
      OfIsClean(Init(ops), tenant);
      assert CleanOp(Last(ops));
      LogGrows(Of(Init(ops), tenant), Last(ops));
    }
  }

  /** What one tenant deletes is no entry of another. */
  lemma ErasesOwn(owner: string, key: string, k: Id)
    requires Clean(owner) && CleanId(k) && k.tenant != owner && OwnKey(owner, key)
    ensures key != KeyOf(k)
  {
    TenantKeys(k, owner);
    OtherKeyspaces(k, owner);
  }

  lemma {:induction false} TenantsAreApart<V>(ops: seq<Op<V>>, k: Id)
    requires CleanOps(ops) && CleanId(k)
    ensures LastWrite(ops, k) == LastWrite(Of(ops, k.tenant), k)
    decreases |ops|
  {
    if ops != [] {
      TenantsAreApart(Init(ops), k);
      SameClock(Init(ops), k.tenant);
      var rest, op := Of(Init(ops), k.tenant), Last(ops);
      LogGrows(rest, op);
      assert CleanOp(op);
      if op.Erase? && op.owner != k.tenant {
        forall key | key in op.keys ensures key != KeyOf(k) {
          ErasesOwn(op.owner, key, k);
        }
      }
    }
  }

  /** What a tenant reads from the shared store is what it would read from one of its own, whatever the
      other tenants do, between the calls of its scans too. */
  lemma TenantIsolation<V>(ops: seq<Op<V>>, k: Id)
    requires CleanOps(ops) && CleanId(k)
    ensures Lookup(ops, KeyOf(k)) == Lookup(Of(ops, k.tenant), KeyOf(k))
  {
    OfIsClean(ops, k.tenant);
    LookupIsLastWrite(ops, k);
    LookupIsLastWrite(Of(ops, k.tenant), k);
    TenantsAreApart(ops, k);
    SameClock(ops, k.tenant);
  }

  // ---------------------------------------------------------------- scans

  predicate PutsKey<V>(op: Op<V>, key: string) {
    (op.Put? && KeyOf(op.k) == key) || (op.PutOther? && op.key == key)
  }

  predicate Puts<V>(ops: seq<Op<V>>, key: string) {
    exists i :: 0 <= i < |ops| && PutsKey(ops[i], key)
  }

  function Concat<T>(xs: seq<seq<T>>): seq<T> {
    if xs == [] then [] else Concat(Init(xs)) + Last(xs)
  }

  /** Alive at every moment of a stretch of the log. */
  ghost predicate Throughout<V>(before: seq<Op<V>>, during: seq<Op<V>>, key: string) {
    forall j :: 0 <= j <= |during| ==> Lookup(before + during[..j], key).Some?
  }


  /** One SCAN from cursor 0 back to 0: what each call returned, what other tasks did before it, and
      what they do between the last call and the deletion. */
  datatype Scan<V> = Scan(first: seq<Op<V>>, replies: seq<seq<string>>, between: seq<seq<Op<V>>>, rest: seq<Op<V>>) {
    /** What SCAN promises: only matching keys, and every matching key that is there throughout. */
    ghost predicate Valid(ops: seq<Op<V>>, pattern: string) {
      && 0 < |replies| == |between| + 1
      && (forall key :: key in Found() ==> Glob(pattern, key))
      && (forall key :: Glob(pattern, key) && Throughout(ops + first, Concat(between), key) ==> key in Found())
    }

    function Found(): set<string> {
      set key | key in Concat(replies)
    }

    /** What the other tasks do from the first call on. */
    function During(): seq<Op<V>> {
      Concat(between) + rest
    }

    function All(): seq<Op<V>> {
      first + During()
    }
  }

  lemma AliveBefore<V>(ops: seq<Op<V>>, op: Op<V>, key: string)
    requires Lookup(ops + [op], key).Some? && !PutsKey(op, key)
    ensures Lookup(ops, key).Some?
  {
    LogGrows(ops, op);
  }

  /** A key alive at the end, and not set meanwhile, was alive throughout. */
  lemma {:induction false} AliveThroughout<V>(before: seq<Op<V>>, during: seq<Op<V>>, key: string, j: nat)
    requires Lookup(before + during, key).Some? && !Puts(during, key) && j <= |during|
    ensures Lookup(before + during[..j], key).Some?
    decreases |during| - j
  {
    if j == |during| {
      assert during[..j] == during;
    } else {
      AliveThroughout(before, during, key, j + 1);
      assert before + during[..j + 1] == before + during[..j] + [during[j]];
      AliveBefore(before + during[..j], during[j], key);
    }
  }

  /** So a matching key that was not set after the first call, and is not returned, is dead. */
  lemma UnrepliedIsDead<V>(ops: seq<Op<V>>, scan: Scan<V>, pattern: string, key: string)
    requires scan.Valid(ops, pattern) && Glob(pattern, key)
    requires !Puts(scan.During(), key) && key !in scan.Found()
    ensures Lookup(ops + scan.All(), key) == None
  {
    var before, during := ops + scan.first, scan.During();
    assert ops + scan.All() == before + during;
    if Lookup(before + during, key).Some? {
      var scanned := Concat(scan.between);
      forall j | 0 <= j <= |scanned| ensures Lookup(before + scanned[..j], key).Some? {
        AliveThroughout(before, during, key, j);
        assert during[..j] == scanned[..j];
      }
      assert Throughout(before, scanned, key);
    }
  }

  /** The logs agree about a key: in the store, and in the last write of every entry kept under it. */
  ghost predicate SameAt<V>(a: seq<Op<V>>, b: seq<Op<V>>, key: string) {
    && Clock(a) == Clock(b)
    && (key in StoreAfter(a) <==> key in StoreAfter(b))
    && (key in StoreAfter(a) ==> StoreAfter(a)[key] == StoreAfter(b)[key])
    && forall k :: KeyOf(k) == key ==> LastWrite(a, k) == LastWrite(b, k)
  }

  lemma SameAtGrows<V>(a: seq<Op<V>>, b: seq<Op<V>>, op: Op<V>, key: string)
    requires SameAt(a, b, key)
    ensures SameAt(a + [op], b + [op], key)
  {
    LogGrows(a, op);
    LogGrows(b, op);
  }

  /** Deleting other keys changes nothing at a key, whatever is done afterwards. */
  lemma {:induction false} EraseIsLocal<V>(a: seq<Op<V>>, owner: string, keys: set<string>, b: seq<Op<V>>, key: string)
    requires key !in keys
    ensures SameAt(a + [Erase(owner, keys)] + b, a + b, key)
    decreases |b|
  {
    if b == [] {
      assert a + [Erase(owner, keys)] + b == a + [Erase(owner, keys)] && a + b == a;
      LogGrows(a, Erase(owner, keys));
    } else {
      EraseIsLocal(a, owner, keys, Init(b), key);
      assert a + [Erase(owner, keys)] + b == a + [Erase(owner, keys)] + Init(b) + [Last(b)];
      assert a + b == a + Init(b) + [Last(b)];
      SameAtGrows(a + [Erase(owner, keys)] + Init(b), a + Init(b), Last(b), key);
    }
  }

  /** A dead key stays dead while nobody sets it. */
  lemma {:induction false} DeadStaysDead<V>(a: seq<Op<V>>, b: seq<Op<V>>, key: string)
    requires Lookup(a, key) == None && !Puts(b, key)
    ensures Lookup(a + b, key) == None
    decreases |b|
  {
    if b == [] {
      assert a + b == a;
    } else {
      assert forall i :: 0 <= i < |Init(b)| ==> Init(b)[i] == b[i];
      DeadStaysDead(a, Init(b), key);
      assert a + b == a + Init(b) + [Last(b)];
      LogGrows(a + Init(b), Last(b));
    }
  }

  // ---------------------------------------------------------------- the manager

  datatype Result<+T> = Ok(value: T) | NoTenant | RedisError

  class CacheManager<V(==)> {
    var store: Store<V>
    var now: nat
    /** Everything that reached the store so far. */
    ghost var ops: seq<Op<V>>

    ghost predicate Valid()
      reads this
    {
      store == StoreAfter(ops) && now == Clock(ops)
    }

    constructor ()
      ensures Valid() && ops == []
    {
      store, now, ops := map[], 0, [];
    }

    method Do(op: Op<V>)
      requires Valid()
      modifies this
      ensures Valid() && ops == old(ops) + [op]
    {
      LogGrows(ops, op);
      store := Applied(store, now, op);
      if op.Elapse? {
        now := now + op.seconds;
      }
      ops := ops + [op];
    }

    /** The other tasks act. */
    method Await(others: seq<Op<V>>)
      requires Valid()
      modifies this
      ensures Valid() && ops == old(ops) + others
    {
      for i := 0 to |others|
        invariant Valid() && ops == old(ops) + others[..i]
      {
        Do(others[i]);
        assert others[..i + 1] == others[..i] + [others[i]];
      }
      assert others[..|others|] == others;
    }

    /** The value last set under the tenant, resource and id, while it lives. */
    method Get(context: string, resource: string, id: string) returns (r: Result<Option<V>>)
      requires Valid()
      ensures r == NoTenant <==> context == ""
      ensures context != "" ==> r == Ok(Lookup(ops, KeyOf(Id(context, resource, id))))
      ensures (context != "" && CleanOps(ops) && CleanId(Id(context, resource, id)) ==>
                 r == Ok(Live(LastWrite(ops, Id(context, resource, id)), now)))
    {
      if context == "" {
        return NoTenant;
      }
      var k := Id(context, resource, id);
      if CleanOps(ops) && CleanId(k) {
        LookupIsLastWrite(ops, k);
      }
      r := Ok(Find(store, now, KeyOf(k)));
    }

    /** Afterwards the last write to the entry is this one, and every other entry is as it was. */
    method Set(context: string, resource: string, id: string, value: V, ttlSeconds: int := DEFAULT_TTL_SECONDS)
      returns (r: Result<()>)
      requires Valid()
      modifies this
      ensures Valid()
      ensures r == if context == "" then NoTenant else if ttlSeconds <= 0 then RedisError else Ok(())
      ensures !r.Ok? ==> ops == old(ops)
      ensures (r.Ok? ==>
                 var k := Id(context, resource, id);
                 && ops == old(ops) + [Put(k, value, ttlSeconds)]
                 && forall l :: LastWrite(ops, l) ==
                      if l == k then Some(Entry(value, old(now) + ttlSeconds)) else LastWrite(old(ops), l))
    {
      if context == "" {
        return NoTenant;
      }
      if ttlSeconds <= 0 {
        return RedisError;
      }
      LogGrows(ops, Put(Id(context, resource, id), value, ttlSeconds));
      Do(Put(Id(context, resource, id), value, ttlSeconds));
      r := Ok(());
    }

    /** Afterwards the entry has no value, and every other entry is as it was. */
    method Del(context: string, resource: string, id: string) returns (r: Result<()>)
      requires Valid()
      modifies this
      ensures Valid() && r == if context == "" then NoTenant else Ok(())
      ensures !r.Ok? ==> ops == old(ops)
      ensures r.Ok? ==> ErasedOnly(old(ops), ops, Id(context, resource, id))
    {
      if context == "" {
        return NoTenant;
      }
      DelForTenant(context, resource, id);
      r := Ok(());
    }

    method DelForTenant(tenant: string, resource: string, id: string)
      requires Valid()
      modifies this
      ensures Valid() && ErasedOnly(old(ops), ops, Id(tenant, resource, id))
      ensures ops == old(ops) + [Erase(tenant, {KeyOf(Id(tenant, resource, id))})]
    {
      var k := Id(tenant, resource, id);
      LogGrows(ops, Erase(tenant, {KeyOf(k)}));
      forall l | CleanId(l) && CleanId(k) && KeyOf(l) == KeyOf(k) ensures l == k {
        KeyIsInjective(l, k);
      }
      Do(Erase(tenant, {KeyOf(k)}));
    }

    /** The cursor loop. */
    method ScanKeys(pattern: string, scan: Scan<V>) returns (results: seq<string>)
      requires Valid() && scan.Valid(ops, pattern)
      modifies this
      ensures Valid() && ops == old(ops) + scan.first + Concat(scan.between)
      ensures results == Concat(scan.replies)
    {
      results := [];
      Await(scan.first);
      var i := 0;
      while true
        invariant i < |scan.replies| && Valid()
        invariant ops == old(ops) + scan.first + Concat(scan.between[..i])
        invariant results == Concat(scan.replies[..i])
        decreases |scan.replies| - i
      {
        results := results + scan.replies[i];
        i := i + 1;
        assert Init(scan.replies[..i]) == scan.replies[..i - 1];
        if i == |scan.replies| {
          break;
        }
        assert Init(scan.between[..i]) == scan.between[..i - 1];
        Await(scan.between[i - 1]);
      }
      assert scan.between[..|scan.between|] == scan.between && scan.replies[..i] == scan.replies;
    }

    /** Scan for a pattern and delete what was found.  Only keys under the prefix are deleted, and one
        that nobody set after the first call is dead afterwards. */
    method Sweep(owner: string, prefix: string, scan: Scan<V>)
      requires Valid() && scan.Valid(ops, prefix + "*")
      modifies this
      ensures Valid() && ops == old(ops) + scan.All() + [Erase(owner, scan.Found())]
      ensures forall key :: key in scan.Found() ==> Under(prefix, key)
      ensures forall key :: Under(prefix, key) && !Puts(scan.During(), key) ==> Lookup(ops, key) == None
    {
      var results := ScanKeys(prefix + "*", scan);
      Await(scan.rest);
      assert ops == old(ops) + scan.All();
      var found := set key | key in results;
      LogGrows(ops, Erase(owner, found));
      if results != [] {
        Do(Erase(owner, found));
      } else {
        assert store - found == store;
        ops := ops + [Erase(owner, found)];
      }
      forall key | Under(prefix, key) && !Puts(scan.During(), key) ensures Lookup(ops, key) == None {
        if key !in found {
          UnrepliedIsDead(old(ops), scan, prefix + "*", key);
        }
      }
    }

    /** Removes the entries of the resource that nobody set meanwhile, and no other entry. */
    method InvalidateResource(context: string, resource: string, scan: Scan<V>) returns (r: Result<()>)
      requires Valid() && scan.Valid(ops, ResourcePrefix(context, resource) + "*")
      modifies this
      ensures Valid() && r == if context == "" then NoTenant else Ok(())
      ensures context == "" ==> ops == old(ops)
      ensures context != "" ==> ops == old(ops) + scan.All() + [Erase(context, scan.Found())]
      ensures (context != "" && Clean(context) && Clean(resource) ==>
                 forall k :: CleanId(k) ==>
                   if k.tenant == context && k.resource == resource
                   then !Puts(scan.During(), KeyOf(k)) ==> Lookup(ops, KeyOf(k)) == None
                   else LastWrite(ops, k) == LastWrite(old(ops) + scan.All(), k))
      ensures (context != "" ==>
                 forall key :: !Under(ResourcePrefix(context, resource), key) ==>
                   Lookup(ops, key) == Lookup(old(ops) + scan.All(), key))
      ensures (context != "" && Clean(context) && Clean(resource) && CleanOps(old(ops)) && CleanOps(scan.All()) ==>
                 CleanOps(ops))
    {
      if context == "" {
        return NoTenant;
      }
      var prefix := ResourcePrefix(context, resource);
      Sweep(context, prefix, scan);
      LogGrows(old(ops) + scan.All(), Erase(context, scan.Found()));
      if Clean(context) && Clean(resource) {
        forall k | CleanId(k)
          ensures if k.tenant == context && k.resource == resource
                  then !Puts(scan.During(), KeyOf(k)) ==> Lookup(ops, KeyOf(k)) == None
                  else LastWrite(ops, k) == LastWrite(old(ops) + scan.All(), k)
        {
          ResourceKeys(k, context, resource);
        }
        forall key | key in scan.Found() ensures OwnKey(context, key) {
          ResourceIsOwn(context, resource, key);
        }
        LogIsClean(old(ops), scan.All(), Erase(context, scan.Found()));
      }
      r := Ok(());
    }

    /** Removes the tenant's entries and limiter counters that nobody set meanwhile, and its lookup by
        id; the entries of other tenants are as those tenants left them. */
    method FlushTenant(tenant: string, scan: Scan<V>, limiterScan: Scan<V>, rest: seq<Op<V>>)
      requires Valid() && scan.Valid(ops, TenantPrefix(tenant) + "*")
      requires limiterScan.Valid(ops + scan.All() + [Erase(tenant, scan.Found())], LimiterPrefix(tenant) + "*")
      modifies this
      ensures Valid() && ops == Flushed(old(ops), tenant, scan, limiterScan, rest)
      ensures TenantLookup(tenant) !in store
      ensures (Clean(tenant) ==>
                 forall k :: CleanId(k) ==>
                   if k.tenant == tenant
                   then !Puts(scan.During() + limiterScan.All() + rest, KeyOf(k)) ==> Lookup(ops, KeyOf(k)) == None
                   else LastWrite(ops, k) == LastWrite(old(ops) + scan.All() + limiterScan.All() + rest, k))
      ensures (forall key :: !OwnKey(tenant, key) ==>
                 Lookup(ops, key) == Lookup(old(ops) + scan.All() + limiterScan.All() + rest, key))
      ensures forall key :: Under(LimiterPrefix(tenant), key) && !Puts(limiterScan.During() + rest, key) ==>
                Lookup(ops, key) == None
      ensures (Clean(tenant) ==>
                 forall bucket: nat ::
                   var name := RateLimit.NameOf(RateLimit.Key(tenant, bucket));
                   !Puts(limiterScan.During() + rest, name) ==> Lookup(ops, name) == None)
      ensures (Clean(tenant) && CleanOps(old(ops) + scan.All() + limiterScan.All() + rest) ==> CleanOps(ops))
    {
      Sweep(tenant, TenantPrefix(tenant), scan);
      ghost var swept := ops;
      Sweep(tenant, LimiterPrefix(tenant), limiterScan);
      ghost var twice := ops;
      Await(rest);
      LogGrows(ops, Erase(tenant, {TenantLookup(tenant)}));
      Do(Erase(tenant, {TenantLookup(tenant)}));
      forall k | Clean(tenant) && CleanId(k)
        ensures if k.tenant == tenant
                then !Puts(scan.During() + limiterScan.All() + rest, KeyOf(k)) ==> Lookup(ops, KeyOf(k)) == None
                else LastWrite(ops, k) == LastWrite(old(ops) + scan.All() + limiterScan.All() + rest, k)
      {
        TenantKeys(k, tenant);
        OtherKeyspaces(k, tenant);
        if k.tenant != tenant {
          FlushIsLocal(old(ops), tenant, scan, limiterScan, rest, KeyOf(k));
        } else if !Puts(scan.During() + limiterScan.All() + rest, KeyOf(k)) {
          NobodyPuts(scan.During(), limiterScan.All(), KeyOf(k));
          NobodyPuts(scan.During() + limiterScan.All(), rest, KeyOf(k));
          DeadThroughErase(swept, limiterScan.All(), Erase(tenant, limiterScan.Found()), KeyOf(k));
          DeadThroughErase(twice, rest, Erase(tenant, {TenantLookup(tenant)}), KeyOf(k));
        }
      }
      forall key | !OwnKey(tenant, key)
        ensures Lookup(ops, key) == Lookup(old(ops) + scan.All() + limiterScan.All() + rest, key)
      {
        FlushIsLocal(old(ops), tenant, scan, limiterScan, rest, key);
      }
      forall key | Under(LimiterPrefix(tenant), key) && !Puts(limiterScan.During() + rest, key)
        ensures Lookup(ops, key) == None
      {
        NobodyPuts(limiterScan.During(), rest, key);
        DeadThroughErase(twice, rest, Erase(tenant, {TenantLookup(tenant)}), key);
      }
      forall bucket: nat | Clean(tenant)
        ensures Under(LimiterPrefix(tenant), RateLimit.NameOf(RateLimit.Key(tenant, bucket)))
      {
        LimiterKeys(RateLimit.Key(tenant, bucket), tenant);
      }
      if Clean(tenant) && CleanOps(old(ops) + scan.All() + limiterScan.All() + rest) {
        FlushIsClean(old(ops), tenant, scan, limiterScan, rest);
      }
    }
  }

  /** The log after a flush. */
  function Flushed<V>(ops: seq<Op<V>>, tenant: string, scan: Scan<V>, limiterScan: Scan<V>, rest: seq<Op<V>>)
    : seq<Op<V>>
  {
    ops + scan.All() + [Erase(tenant, scan.Found())] + limiterScan.All() + [Erase(tenant, limiterScan.Found())]
    + rest + [Erase(tenant, {TenantLookup(tenant)})]
  }

  /** A flush of one tenant changes nothing at a key that is not its own. */
  lemma FlushIsLocal<V>(
    ops: seq<Op<V>>, tenant: string, scan: Scan<V>, limiterScan: Scan<V>, rest: seq<Op<V>>, key: string)
    requires key !in scan.Found() && key !in limiterScan.Found() && key != TenantLookup(tenant)
    ensures SameAt(Flushed(ops, tenant, scan, limiterScan, rest), ops + scan.All() + limiterScan.All() + rest, key)
  {
    hide LastWrite, Clock, KeyOf, StoreAfter, TenantLookup;
    var a, b := scan.All(), limiterScan.All();
    var last := Erase(tenant, {TenantLookup(tenant)});
    var second := Erase(tenant, limiterScan.Found());
    var first := Erase(tenant, scan.Found());
    EraseIsLocal(ops + a, tenant, scan.Found(), b + [second] + rest + [last], key);
    EraseIsLocal(ops + a + b, tenant, limiterScan.Found(), rest + [last], key);
    EraseIsLocal(ops + a + b + rest, tenant, {TenantLookup(tenant)}, [], key);
    assert ops + a + [first] + (b + [second] + rest + [last]) == Flushed(ops, tenant, scan, limiterScan, rest);
    assert ops + a + (b + [second] + rest + [last]) == ops + a + b + [second] + (rest + [last]);
    assert ops + a + b + (rest + [last]) == ops + a + b + rest + [last] + [];
    assert ops + a + b + rest + [] == ops + a + b + rest;
  }

  lemma FlushIsClean<V>(ops: seq<Op<V>>, tenant: string, scan: Scan<V>, limiterScan: Scan<V>, rest: seq<Op<V>>)
    requires Clean(tenant)
    requires forall key :: key in scan.Found() ==> Under(TenantPrefix(tenant), key)
    requires forall key :: key in limiterScan.Found() ==> Under(LimiterPrefix(tenant), key)
    requires CleanOps(ops + scan.All() + limiterScan.All() + rest)
    ensures CleanOps(Flushed(ops, tenant, scan, limiterScan, rest))
  {
    var a, b := ops + scan.All(), limiterScan.All();
    CleanParts(a + b, rest);
    CleanParts(a, b);
    LogGrows(a, Erase(tenant, scan.Found()));
    CleanParts(a + [Erase(tenant, scan.Found())], b);
    LogGrows(a + [Erase(tenant, scan.Found())] + b, Erase(tenant, limiterScan.Found()));
    CleanParts(a + [Erase(tenant, scan.Found())] + b + [Erase(tenant, limiterScan.Found())], rest);
    LogGrows(a + [Erase(tenant, scan.Found())] + b + [Erase(tenant, limiterScan.Found())] + rest,
             Erase(tenant, {TenantLookup(tenant)}));
  }

  lemma CleanParts<V>(a: seq<Op<V>>, b: seq<Op<V>>)
    ensures CleanOps(a + b) <==> CleanOps(a) && CleanOps(b)
  {
    if CleanOps(a + b) {
      forall i | 0 <= i < |a| ensures CleanOp(a[i]) {
        assert (a + b)[i] == a[i];
      }
      forall i | 0 <= i < |b| ensures CleanOp(b[i]) {
        assert (a + b)[|a| + i] == b[i];
      }
    }
  }

  lemma NobodyPuts<V>(a: seq<Op<V>>, b: seq<Op<V>>, key: string)
    ensures !Puts(a + b, key) <==> !Puts(a, key) && !Puts(b, key)
  {
    forall i | 0 <= i < |a| + |b|
      ensures (a + b)[i] == if i < |a| then a[i] else b[i - |a|]
    {
    }
    if Puts(a, key) {
      var i :| 0 <= i < |a| && PutsKey(a[i], key);
      assert PutsKey((a + b)[i], key);
    }
    if Puts(b, key) {
      var i :| 0 <= i < |b| && PutsKey(b[i], key);
      assert PutsKey((a + b)[|a| + i], key);
    }
  }

  lemma DeadThroughErase<V>(a: seq<Op<V>>, b: seq<Op<V>>, op: Op<V>, key: string)
    requires Lookup(a, key) == None && !Puts(b, key) && op.Erase?
    ensures Lookup(a + b + [op], key) == None
  {
    DeadStaysDead(a, b, key);
    LogGrows(a + b, op);
  }

  /** The entry is gone, and clean entries beside it are as they were. */
  ghost predicate ErasedOnly<V>(before: seq<Op<V>>, after: seq<Op<V>>, k: Id) {
    && LastWrite(after, k) == None
    && (CleanId(k) ==> forall l :: CleanId(l) && l != k ==> LastWrite(after, l) == LastWrite(before, l))
  }

  lemma ResourceIsOwn(tenant: string, resource: string, key: string)
    requires Clean(tenant) && Clean(resource) && Under(ResourcePrefix(tenant, resource), key)
    ensures OwnKey(tenant, key)
  {
    PrefixPattern(ResourcePrefix(tenant, resource), key);
    PrefixPattern(TenantPrefix(tenant), key);
    assert TenantPrefix(tenant) <= ResourcePrefix(tenant, resource);
  }

  lemma LogIsClean<V>(a: seq<Op<V>>, b: seq<Op<V>>, op: Op<V>)
    ensures CleanOps(a) && CleanOps(b) && CleanOp(op) ==> CleanOps(a + b + [op])
  {
  }

  lemma {:induction false} StarSkips(p: string, a: string, b: string)
    requires Glob(p, b)
    ensures Glob("*" + p, a + b)
    decreases |a|
  {
    assert ("*" + p)[1..] == p;
    if a == "" {
      assert a + b == b;
    } else {
      assert (a + b)[1..] == a[1..] + b;
      StarSkips(p, a[1..], b);
    }
  }

  /** A pattern character in a tenant id reaches every tenant. */
  lemma StarTenantReachesAll(k: Id)
    ensures Under(TenantPrefix("*"), KeyOf(k))
  {
    var rest := ":" + k.resource + ":" + k.id;
    PrefixPattern(":", rest);
    StarSkips(":*", k.tenant, rest);
    assert TenantPrefix("*") + "*" == "t:*:*" && KeyOf(k) == "t:" + (k.tenant + rest);
    assert "t:*:*"[1..][1..] == "*" + ":*";
    assert KeyOf(k)[1..][1..] == k.tenant + rest;
  }
}
