/** The hook registry: per-key lists kept sorted by priority with a stable sort, and runs over them
    gated by the tenant's enabled plugins. */
module Hooks {
  import opened Options

  datatype Kind = Before | After | Filter

  /** handler names the registered function. */
  datatype Entry = Entry(plugin: string, priority: int, handler: nat)

  datatype Registration = Registration(kind: Kind, event: string, entry: Entry)

  /** What a handler does to the world: it returns a value or throws. */
  datatype Outcome<W, D> = Done(world: W, value: D) | Threw(world: W)

  function Name(kind: Kind): string {
    match kind
    case Before => "before"
    case After => "after"
    case Filter => "filter"
  }

  /** The registry's key. */
  function KeyOf(kind: Kind, event: string): string {
    Name(kind) + ":" + event
  }

  lemma KeyIsInjective(k: Kind, e: string, k': Kind, e': string)
    requires KeyOf(k, e) == KeyOf(k', e')
    ensures k == k' && e == e'
  {
    assert KeyOf(k, e)[0] == Name(k)[0] && KeyOf(k', e')[0] == Name(k')[0];
    assert KeyOf(k, e)[|Name(k)| + 1..] == e && KeyOf(k', e')[|Name(k')| + 1..] == e';
  }

  // ---------------------------------------------------------------- stable order

  ghost predicate Sorted(es: seq<Entry>) {
    forall i, j :: 0 <= i < j < |es| ==> es[i].priority <= es[j].priority
  }

  /** The entries of one priority, in their order. */
  function OfPriority(es: seq<Entry>, p: int): seq<Entry> {
    if es == [] then []
    else OfPriority(es[..|es| - 1], p) + if es[|es| - 1].priority == p then [es[|es| - 1]] else []
  }

  /** out is in sorted by priority, and in the order of in within a priority. */
  ghost predicate IsStableSort(out: seq<Entry>, in_: seq<Entry>) {
    Sorted(out) && forall p :: OfPriority(out, p) == OfPriority(in_, p)
  }

  lemma {:induction false} OfPriorityOnly(es: seq<Entry>, p: int)
    ensures forall e :: e in OfPriority(es, p) <==> e in es && e.priority == p
    decreases |es|
  {
    if es != [] {
      OfPriorityOnly(es[..|es| - 1], p);
      assert es == es[..|es| - 1] + [es[|es| - 1]];
    }
  }

  lemma SameMembers(a: seq<Entry>, b: seq<Entry>, e: Entry)
    requires OfPriority(a, e.priority) == OfPriority(b, e.priority)
    ensures e in a <==> e in b
  {
    OfPriorityOnly(a, e.priority);
    OfPriorityOnly(b, e.priority);
  }

  lemma LastIsHighest(es: seq<Entry>, e: Entry)
    requires Sorted(es) && e in es
    ensures e.priority <= es[|es| - 1].priority
  {
  }

  /** Two sorted lists that agree priority by priority end in the same entry... */
  lemma SameLast(a: seq<Entry>, b: seq<Entry>)
    requires a != [] && b != [] && Sorted(a) && Sorted(b)
    requires forall p :: OfPriority(a, p) == OfPriority(b, p)
    ensures a[|a| - 1] == b[|b| - 1]
  {
    var e, f := a[|a| - 1], b[|b| - 1];
    SameMembers(a, b, e);
    SameMembers(a, b, f);
    LastIsHighest(a, f);
    LastIsHighest(b, e);
    hide *;
    var x, y := OfPriority(a[..|a| - 1], e.priority), OfPriority(b[..|b| - 1], e.priority);
    Peel(a, e.priority);
    Peel(b, e.priority);
    Unsnoc(x, e, y, f);
  }

  lemma Peel(es: seq<Entry>, p: int)
    requires es != []
    ensures es[|es| - 1].priority == p ==> OfPriority(es, p) == OfPriority(es[..|es| - 1], p) + [es[|es| - 1]]
    ensures es[|es| - 1].priority != p ==> OfPriority(es, p) == OfPriority(es[..|es| - 1], p)
  {
  }

  lemma Unsnoc<T>(x: seq<T>, e: T, y: seq<T>, f: T)
    requires x + [e] == y + [f]
    ensures x == y && e == f
  {
    assert |x + [e]| == |x| + 1 && |y + [f]| == |y| + 1;
    assert (x + [e])[|x|] == e && (y + [f])[|y|] == f;
    assert x == (x + [e])[..|x|] && y == (y + [f])[..|y|];
  }

  lemma WithoutLast(a: seq<Entry>, b: seq<Entry>, p: int)
    requires a != [] && b != [] && a[|a| - 1] == b[|b| - 1] && OfPriority(a, p) == OfPriority(b, p)
    ensures OfPriority(a[..|a| - 1], p) == OfPriority(b[..|b| - 1], p)
  {
    hide *;
    var x, y := OfPriority(a[..|a| - 1], p), OfPriority(b[..|b| - 1], p);
    Peel(a, p);
    Peel(b, p);
    if a[|a| - 1].priority == p {
      Unsnoc(x, a[|a| - 1], y, a[|a| - 1]);
    }
  }

  /** ...and so are equal. */
  lemma {:induction false} StableSortIsUnique(a: seq<Entry>, b: seq<Entry>)
    requires Sorted(a) && Sorted(b) && forall p :: OfPriority(a, p) == OfPriority(b, p)
    ensures a == b
    decreases |a|
  {
    hide *;
    if a != [] {
      SameMembers(a, b, a[0]);
      SameLast(a, b);
      var m, n := |a| - 1, |b| - 1;
      forall p ensures OfPriority(a[..m], p) == OfPriority(b[..n], p) {
        WithoutLast(a, b, p);
      }
      SortedPrefix(a, m);
      SortedPrefix(b, n);
      StableSortIsUnique(a[..m], b[..n]);
      assert a == a[..m] + [a[m]] && b == b[..n] + [b[n]];
    } else if b != [] {
      SameMembers(a, b, b[0]);
    }
  }

  lemma SortedPrefix(es: seq<Entry>, n: nat)
    requires Sorted(es) && n <= |es|
    ensures Sorted(es[..n])
  {
  }

  /** Array.prototype.sort is stable, section 23.1.3.30 of ECMA-262: any two results that are sorted and
      keep the order within each priority are the same, so insertion after equals stands for it. */
  function SortByPriority(es: seq<Entry>): (r: seq<Entry>)
    ensures IsStableSort(r, es)
  {
    if es == [] then []
    else
      var n := |es| - 1;
      var r := InsertAfterEquals(SortByPriority(es[..n]), es[n]);
      SortedInsertion(SortByPriority(es[..n]), es, r);
      r
  }

  function InsertAfterEquals(es: seq<Entry>, e: Entry): (r: seq<Entry>)
    requires Sorted(es)
    ensures Sorted(r) && (forall x :: x in r ==> x == e || x in es)
    ensures forall p :: OfPriority(r, p) == OfPriority(es, p) + (if e.priority == p then [e] else [])
  {
    if es == [] then
      InsertIntoEmpty(e);
      [e]
    else
      var n := |es| - 1;
      if es[n].priority <= e.priority then
        InsertAtEnd(es, e);
        es + [e]
      else
        SortedPrefix(es, n);
        var r := InsertAfterEquals(es[..n], e);
        InsertBelow(es, e, r);
        r + [es[n]]
  }

  lemma InsertIntoEmpty(e: Entry)
    ensures forall p :: OfPriority([e], p) == OfPriority([], p) + (if e.priority == p then [e] else [])
  {
  }

  lemma InsertAtEnd(es: seq<Entry>, e: Entry)
    requires Sorted(es) && (es != [] ==> es[|es| - 1].priority <= e.priority)
    ensures Sorted(es + [e])
    ensures forall p :: OfPriority(es + [e], p) == OfPriority(es, p) + (if e.priority == p then [e] else [])
  {
    hide OfPriority;
    forall p ensures OfPriority(es + [e], p) == OfPriority(es, p) + (if e.priority == p then [e] else []) {
      AppendOfPriority(es, e, p);
    }
  }

  lemma AppendOfPriority(es: seq<Entry>, e: Entry, p: int)
    ensures OfPriority(es + [e], p) == OfPriority(es, p) + (if e.priority == p then [e] else [])
  {
  }

  lemma InsertBelow(es: seq<Entry>, e: Entry, r: seq<Entry>)
    requires es != [] && Sorted(es) && es[|es| - 1].priority > e.priority && Sorted(r)
    requires forall x :: x in r ==> x == e || x in es[..|es| - 1]
    requires forall p :: OfPriority(r, p) == OfPriority(es[..|es| - 1], p) + (if e.priority == p then [e] else [])
    ensures Sorted(r + [es[|es| - 1]])
    ensures forall p :: OfPriority(r + [es[|es| - 1]], p) == OfPriority(es, p) + (if e.priority == p then [e] else [])
  {
    hide OfPriority;
    var last := es[|es| - 1];
    forall i | 0 <= i < |r| ensures r[i].priority <= last.priority {
      assert r[i] in r;
    }
    forall p ensures OfPriority(r + [last], p) == OfPriority(es, p) + (if e.priority == p then [e] else []) {
      BelowOfPriority(es, e, r, p);
    }
  }

  lemma BelowOfPriority(es: seq<Entry>, e: Entry, r: seq<Entry>, p: int)
    requires es != [] && es[|es| - 1].priority > e.priority
    requires OfPriority(r, p) == OfPriority(es[..|es| - 1], p) + (if e.priority == p then [e] else [])
    ensures OfPriority(r + [es[|es| - 1]], p) == OfPriority(es, p) + (if e.priority == p then [e] else [])
  {
  }

  lemma SortedInsertion(sorted: seq<Entry>, es: seq<Entry>, r: seq<Entry>)
    requires es != [] && IsStableSort(sorted, es[..|es| - 1])
    requires Sorted(r)
    requires forall p ::
               OfPriority(r, p) == OfPriority(sorted, p) + (if es[|es| - 1].priority == p then [es[|es| - 1]] else [])
    ensures IsStableSort(r, es)
  {
  }

  // ---------------------------------------------------------------- the registry

  /** The entries registered under a key, in registration order. */
  function Registered(log: seq<Registration>, kind: Kind, event: string): seq<Entry> {
    if log == [] then []
    else
      var n := |log| - 1;
      var rest := Registered(log[..n], kind, event);
      if log[n].kind == kind && log[n].event == event then rest + [log[n].entry] else rest
  }

  /** The entries of enabled plugins; without a list, all. */
  function Gate(es: seq<Entry>, enabled: Option<set<string>>): seq<Entry> {
    if es == [] then []
    else
      var n := |es| - 1;
      var rest := Gate(es[..n], enabled);
      if IsEnabled(es[n], enabled) then rest + [es[n]] else rest
  }

  predicate IsEnabled(e: Entry, enabled: Option<set<string>>) {
    enabled.Some? ==> e.plugin in enabled.value
  }

  type Effect<!W, !D> = (nat, W, D) -> Outcome<W, D>

  /** Before and after hooks: one after the other, each with the same data, until one throws. */
  function Each<W, D>(es: seq<Entry>, effect: Effect<W, D>, world: W, data: D): Outcome<W, D> {
    if es == [] then Done(world, data)
    else
      var n := |es| - 1;
      match Each(es[..n], effect, world, data)
      case Threw(w) => Threw(w)
      case Done(w, _) =>
        match effect(es[n].handler, w, data)
        case Threw(w') => Threw(w')
        case Done(w', _) => Done(w', data)
  }

  /** Filter hooks: each is given what the one before returned. */
  function Through<W, D>(es: seq<Entry>, effect: Effect<W, D>, world: W, data: D): Outcome<W, D> {
    if es == [] then Done(world, data)
    else
      var n := |es| - 1;
      match Through(es[..n], effect, world, data)
      case Threw(w) => Threw(w)
      case Done(w, d) => effect(es[n].handler, w, d)
  }

  /** One call of a run: the place of its entry in the list, what it was given and what came of it. */
  datatype Call<W, D> = Call(place: nat, world: W, data: D, outcome: Outcome<W, D>)

  predicate IsCalled<W, D>(calls: seq<Call<W, D>>, place: nat) {
    exists i :: 0 <= i < |calls| && calls[i].place == place
  }

  /** The calls a run makes among the first n entries of its list: without enabled plugins to go by every
      entry, and otherwise those whose plugin is one of them, each once and in the order of the list, each
      in the world the one before left; only the last may have thrown. */
  ghost predicate IsTrace<W(!new), D(!new)>(calls: seq<Call<W, D>>, list: seq<Entry>, n: nat, on: Option<set<string>>,
                                            effect: Effect<W, D>, world: W)
    requires n <= |list|
  {
    && (forall i, j :: 0 <= i < j < |calls| ==> calls[i].place < calls[j].place)
    && (forall i :: 0 <= i < |calls| ==> calls[i].place < n)
    && (forall k :: 0 <= k < n ==> (IsCalled(calls, k) <==> on == None || list[k].plugin in on.value))
    && IsChain(calls, list, effect, world)
  }

  ghost predicate IsChain<W(!new), D(!new)>(calls: seq<Call<W, D>>, list: seq<Entry>, effect: Effect<W, D>, world: W) {
    forall i :: 0 <= i < |calls| ==> IsLink(calls, i, list, effect, world)
  }

  ghost predicate IsLink<W(!new), D(!new)>(calls: seq<Call<W, D>>, i: nat, list: seq<Entry>, effect: Effect<W, D>,
                                           world: W)
    requires i < |calls|
  {
    && calls[i].place < |list|
    && calls[i].outcome == effect(list[calls[i].place].handler, calls[i].world, calls[i].data)
    && (i == 0 ==> calls[i].world == world)
    && (i > 0 ==> calls[i - 1].outcome.Done? && calls[i].world == calls[i - 1].outcome.world)
  }

  /** How a run ends: with the call that threw as its last, or at the end of the list. */
  ghost predicate Ends<W(!new), D(!new)>(calls: seq<Call<W, D>>, list: seq<Entry>, on: Option<set<string>>,
                                         effect: Effect<W, D>, world: W, r: Outcome<W, D>)
  {
    if r.Threw? then
      && calls != [] && calls[|calls| - 1].outcome == r && calls[|calls| - 1].place < |list|
      && IsTrace(calls, list, calls[|calls| - 1].place + 1, on, effect, world)
    else
      && IsTrace(calls, list, |list|, on, effect, world)
      && (calls != [] ==> calls[|calls| - 1].outcome.Done?)
      && r.world == if calls == [] then world else calls[|calls| - 1].outcome.world
  }

  /** Each call is given what the one before returned, and the first the data of the run. */
  ghost predicate IsFed<W(!new), D(!new)>(calls: seq<Call<W, D>>, data: D) {
    forall i :: 0 <= i < |calls| ==> IsFedAt(calls, i, data)
  }

  ghost predicate IsFedAt<W(!new), D(!new)>(calls: seq<Call<W, D>>, i: nat, data: D)
    requires i < |calls|
  {
    if i == 0 then calls[i].data == data else calls[i - 1].outcome == Done(calls[i].world, calls[i].data)
  }

  lemma TraceSkips<W(!new), D(!new)>(calls: seq<Call<W, D>>, list: seq<Entry>, n: nat, on: Option<set<string>>,
                                     effect: Effect<W, D>, world: W)
    requires n < |list| && IsTrace(calls, list, n, on, effect, world)
    requires on.Some? && list[n].plugin !in on.value
    ensures IsTrace(calls, list, n + 1, on, effect, world)
  {
  }

  lemma TraceCalls<W(!new), D(!new)>(calls: seq<Call<W, D>>, list: seq<Entry>, n: nat, on: Option<set<string>>,
                                     effect: Effect<W, D>, world: W, w: W, d: D)
    requires n < |list| && IsTrace(calls, list, n, on, effect, world)
    requires on == None || list[n].plugin in on.value
    requires calls != [] ==> calls[|calls| - 1].outcome.Done?
    requires w == if calls == [] then world else calls[|calls| - 1].outcome.world
    ensures IsTrace(calls + [Call(n, w, d, effect(list[n].handler, w, d))], list, n + 1, on, effect, world)
  {
    var call := Call(n, w, d, effect(list[n].handler, w, d));
    CalledAppend(calls, call);
    ChainAppend(calls, list, effect, world, call);
    hide IsCalled, IsChain;
    var more := calls + [call];
    assert forall i :: 0 <= i < |more| ==> more[i] == if i < |calls| then calls[i] else call;
  }

  lemma ChainAppend<W(!new), D(!new)>(calls: seq<Call<W, D>>, list: seq<Entry>, effect: Effect<W, D>, world: W,
                                      call: Call<W, D>)
    requires IsChain(calls, list, effect, world) && call.place < |list|
    requires call.outcome == effect(list[call.place].handler, call.world, call.data)
    requires calls == [] ==> call.world == world
    requires calls != [] ==> calls[|calls| - 1].outcome.Done? && call.world == calls[|calls| - 1].outcome.world
    ensures IsChain(calls + [call], list, effect, world)
  {
    var more := calls + [call];
    forall i | 0 <= i < |more| ensures IsLink(more, i, list, effect, world) {
      if i < |calls| {
        assert IsLink(calls, i, list, effect, world) && more[i] == calls[i];
      }
      if i > 0 {
        assert more[i - 1] == calls[i - 1];
      }
    }
  }

  lemma FedAppend<W(!new), D(!new)>(calls: seq<Call<W, D>>, call: Call<W, D>, data: D)
    requires IsFed(calls, data) && (calls == [] ==> call.data == data)
    requires calls != [] ==> calls[|calls| - 1].outcome == Done(call.world, call.data)
    ensures IsFed(calls + [call], data)
  {
    var more := calls + [call];
    forall i | 0 <= i < |more| ensures IsFedAt(more, i, data) {
      if i < |calls| {
        assert IsFedAt(calls, i, data) && more[i] == calls[i];
      }
      if i > 0 {
        assert more[i - 1] == calls[i - 1];
      }
    }
  }

  lemma CalledAppend<W(!new), D(!new)>(calls: seq<Call<W, D>>, call: Call<W, D>)
    ensures forall k :: IsCalled(calls + [call], k) <==> IsCalled(calls, k) || k == call.place
  {
    forall k ensures IsCalled(calls + [call], k) <==> IsCalled(calls, k) || k == call.place {
      if IsCalled(calls, k) {
        var i :| 0 <= i < |calls| && calls[i].place == k;
        assert (calls + [call])[i].place == k;
      }
      assert (calls + [call])[|calls|].place == call.place;
    }
  }

  /** The rest of a run does not matter once a handler has thrown. */
  lemma {:induction false} EachThrows<W, D>(es: seq<Entry>, n: nat, effect: Effect<W, D>, world: W, data: D)
    requires n <= |es| && Each(es[..n], effect, world, data).Threw?
    ensures Each(es, effect, world, data) == Each(es[..n], effect, world, data)
    decreases |es|
  {
    if n == |es| {
      assert es[..n] == es;
    } else {
      assert es[..|es| - 1][..n] == es[..n];
      EachThrows(es[..|es| - 1], n, effect, world, data);
    }
  }

  lemma {:induction false} ThroughThrows<W, D>(es: seq<Entry>, n: nat, effect: Effect<W, D>, world: W, data: D)
    requires n <= |es| && Through(es[..n], effect, world, data).Threw?
    ensures Through(es, effect, world, data) == Through(es[..n], effect, world, data)
    decreases |es|
  {
    if n == |es| {
      assert es[..n] == es;
    } else {
      assert es[..|es| - 1][..n] == es[..n];
      ThroughThrows(es[..|es| - 1], n, effect, world, data);
    }
  }

  lemma {:induction false} GatePrefix(es: seq<Entry>, n: nat, enabled: Option<set<string>>)
    requires n <= |es|
    ensures |Gate(es[..n], enabled)| <= |Gate(es, enabled)|
    ensures Gate(es, enabled)[..|Gate(es[..n], enabled)|] == Gate(es[..n], enabled)
    decreases |es|
  {
    if n == |es| {
      assert es[..n] == es;
    } else {
      var m := |es| - 1;
      assert es[..m][..n] == es[..n];
      GatePrefix(es[..m], n, enabled);
    }
  }

  class HookRegistryService<W(!new), D(!new)> {
    var hooks: map<string, seq<Entry>>
    /** All registrations, in order. */
    ghost var log: seq<Registration>

    function List(kind: Kind, event: string): seq<Entry>
      reads this
    {
      if KeyOf(kind, event) in hooks then hooks[KeyOf(kind, event)] else []
    }

    /** Each list is its registrations, sorted by priority and within a priority by registration. */
    ghost predicate Valid()
      reads this
    {
      forall kind, event :: IsStableSort(List(kind, event), Registered(log, kind, event))
    }

    constructor ()
      ensures Valid() && log == []
    {
      hooks, log := map[], [];
    }

    method Register(kind: Kind, event: string, entry: Entry)
      requires Valid()
      modifies this
      ensures Valid() && log == old(log) + [Registration(kind, event, entry)]
    {
      var entries := List(kind, event);
      var sorted := SortByPriority(entries + [entry]);
      hooks := hooks[KeyOf(kind, event) := sorted];
      log := log + [Registration(kind, event, entry)];
      ghost var was := old(log);
      hide KeyOf, IsStableSort, Registered;
      forall k, e ensures IsStableSort(List(k, e), Registered(log, k, e)) {
        LogAppend(was, Registration(kind, event, entry), k, e);
        assert IsStableSort(old(List(k, e)), Registered(was, k, e));
        if k == kind && e == event {
          SortAppended(entries, Registered(was, k, e), entry, sorted);
        } else if KeyOf(k, e) == KeyOf(kind, event) {
          KeyIsInjective(k, e, kind, event);
        }
      }
    }

    method RunEach(kind: Kind, event: string, enabled: Option<set<string>>, effect: Effect<W, D>, world: W, data: D)
      returns (r: Outcome<W, D>, ghost calls: seq<Call<W, D>>)
      ensures r == Each(Gate(List(kind, event), enabled), effect, world, data)
      ensures Ends(calls, List(kind, event), enabled, effect, world, r) && (r.Done? ==> r.value == data)
      ensures forall i :: 0 <= i < |calls| ==> calls[i].data == data
    {
      hide Gate, Each, IsTrace;
      NothingRuns(enabled, effect, world, data);
      var entries := List(kind, event);
      var w := world;
      calls := [];
      NoTrace<W, D>(entries, enabled, effect, world);
      assert entries[..0] == [];
      for i := 0 to |entries|
        invariant Each(Gate(entries[..i], enabled), effect, world, data) == Done(w, data)
        invariant IsTrace(calls, entries, i, enabled, effect, world)
        invariant calls != [] ==> calls[|calls| - 1].outcome.Done?
        invariant w == if calls == [] then world else calls[|calls| - 1].outcome.world
        invariant forall k :: 0 <= k < |calls| ==> calls[k].data == data
      {
        GateNext(entries, i, enabled);
        if IsEnabled(entries[i], enabled) {
          var o := effect(entries[i].handler, w, data);
          EachNext(Gate(entries[..i], enabled), entries[i], effect, world, data);
          TraceCalls(calls, entries, i, enabled, effect, world, w, data);
          calls := calls + [Call(i, w, data, o)];
          if o.Threw? {
            GatePrefix(entries, i + 1, enabled);
            EachThrows(Gate(entries, enabled), |Gate(entries[..i + 1], enabled)|, effect, world, data);
            return Threw(o.world), calls;
          }
          w := o.world;
        } else {
          TraceSkips(calls, entries, i, enabled, effect, world);
        }
      }
      assert entries[..|entries|] == entries;
      r := Done(w, data);
    }

    method RunBefore(event: string, enabled: Option<set<string>>, effect: Effect<W, D>, world: W, data: D)
      returns (r: Outcome<W, D>, ghost calls: seq<Call<W, D>>)
      ensures r == Each(Gate(List(Before, event), enabled), effect, world, data)
      ensures Ends(calls, List(Before, event), enabled, effect, world, r) && (r.Done? ==> r.value == data)
      ensures forall i :: 0 <= i < |calls| ==> calls[i].data == data
    {
      r, calls := RunEach(Before, event, enabled, effect, world, data);
    }

    method RunAfter(event: string, enabled: Option<set<string>>, effect: Effect<W, D>, world: W, data: D)
      returns (r: Outcome<W, D>, ghost calls: seq<Call<W, D>>)
      ensures r == Each(Gate(List(After, event), enabled), effect, world, data)
      ensures Ends(calls, List(After, event), enabled, effect, world, r) && (r.Done? ==> r.value == data)
      ensures forall i :: 0 <= i < |calls| ==> calls[i].data == data
    {
      r, calls := RunEach(After, event, enabled, effect, world, data);
    }

    method RunFilter(event: string, enabled: Option<set<string>>, effect: Effect<W, D>, world: W, data: D)
      returns (r: Outcome<W, D>, ghost calls: seq<Call<W, D>>)
      ensures r == Through(Gate(List(Filter, event), enabled), effect, world, data)
      ensures Ends(calls, List(Filter, event), enabled, effect, world, r)
      ensures r.Done? ==> r.value == if calls == [] then data else calls[|calls| - 1].outcome.value
      ensures IsFed(calls, data)
    {
      hide Gate, Through, IsTrace, IsFed;
      NothingRuns(enabled, effect, world, data);
      var entries := List(Filter, event);
      assert entries[..0] == [];
      var w, result := world, data;
      calls := [];
      NoTrace<W, D>(entries, enabled, effect, world);
      for i := 0 to |entries|
        invariant Through(Gate(entries[..i], enabled), effect, world, data) == Done(w, result)
        invariant IsTrace(calls, entries, i, enabled, effect, world)
        invariant calls != [] ==> calls[|calls| - 1].outcome == Done(w, result)
        invariant calls == [] ==> w == world && result == data
        invariant IsFed(calls, data)
      {
        GateNext(entries, i, enabled);
        if IsEnabled(entries[i], enabled) {
          var o := effect(entries[i].handler, w, result);
          ThroughNext(Gate(entries[..i], enabled), entries[i], effect, world, data);
          TraceCalls(calls, entries, i, enabled, effect, world, w, result);
          FedAppend(calls, Call(i, w, result, o), data);
          calls := calls + [Call(i, w, result, o)];
          if o.Threw? {
            GatePrefix(entries, i + 1, enabled);
            ThroughThrows(Gate(entries, enabled), |Gate(entries[..i + 1], enabled)|, effect, world, data);
            return o, calls;
          }
          w, result := o.world, o.value;
        } else {
          TraceSkips(calls, entries, i, enabled, effect, world);
        }
      }
      assert entries[..|entries|] == entries;
      r := Done(w, result);
    }
  }

  lemma NoTrace<W(!new), D(!new)>(list: seq<Entry>, on: Option<set<string>>, effect: Effect<W, D>, world: W)
    ensures IsTrace<W, D>([], list, 0, on, effect, world)
    ensures forall data :: IsFed<W, D>([], data)
  {
  }

  lemma LogAppend(log: seq<Registration>, r: Registration, kind: Kind, event: string)
    ensures (Registered(log + [r], kind, event) ==
              if r.kind == kind && r.event == event then Registered(log, kind, event) + [r.entry]
              else Registered(log, kind, event))
  {
  }

  lemma SortAppended(entries: seq<Entry>, registered: seq<Entry>, e: Entry, sorted: seq<Entry>)
    requires IsStableSort(entries, registered) && IsStableSort(sorted, entries + [e])
    ensures IsStableSort(sorted, registered + [e])
  {
  }

  lemma NothingRuns<W, D>(enabled: Option<set<string>>, effect: Effect<W, D>, world: W, data: D)
    ensures Gate([], enabled) == []
    ensures Each([], effect, world, data) == Through([], effect, world, data) == Done(world, data)
  {
  }

  lemma GateNext(es: seq<Entry>, i: nat, enabled: Option<set<string>>)
    requires i < |es|
    ensures (Gate(es[..i + 1], enabled) ==
             if IsEnabled(es[i], enabled) then Gate(es[..i], enabled) + [es[i]] else Gate(es[..i], enabled))
  {
    assert es[..i + 1][..i] == es[..i];
  }

  lemma EachNext<W, D>(es: seq<Entry>, e: Entry, effect: Effect<W, D>, world: W, data: D)
    ensures Each(es + [e], effect, world, data) ==
      match Each(es, effect, world, data)
      case Threw(w) => Threw(w)
      case Done(w, _) =>
        (match effect(e.handler, w, data) case Threw(w') => Threw(w') case Done(w', _) => Done(w', data))
  {
  }

  lemma ThroughNext<W, D>(es: seq<Entry>, e: Entry, effect: Effect<W, D>, world: W, data: D)
    ensures Through(es + [e], effect, world, data) ==
      match Through(es, effect, world, data)
      case Threw(w) => Threw(w)
      case Done(w, d) => effect(e.handler, w, d)
  {
  }

  // ---------------------------------------------------------------- results

  lemma {:induction false} CountOfPriority(es: seq<Entry>, e: Entry)
    ensures multiset(es)[e] == multiset(OfPriority(es, e.priority))[e]
    decreases |es|
  {
    if es != [] {
      var n := |es| - 1;
      CountOfPriority(es[..n], e);
      assert multiset(es) == multiset(es[..n]) + multiset{es[n]} by {
        assert es == es[..n] + [es[n]];
      }
      Peel(es, e.priority);
    }
  }

  /** A list is a permutation of what was registered under its key. */
  lemma ListIsPermutation(out: seq<Entry>, in_: seq<Entry>)
    requires IsStableSort(out, in_)
    ensures Sorted(out) && multiset(out) == multiset(in_)
  {
    forall e ensures multiset(out)[e] == multiset(in_)[e] {
      CountOfPriority(out, e);
      CountOfPriority(in_, e);
      assert OfPriority(out, e.priority) == OfPriority(in_, e.priority);
    }
  }

  ghost predicate DistinctPriorities(es: seq<Entry>) {
    forall i, j :: 0 <= i < j < |es| ==> es[i].priority != es[j].priority
  }

  lemma {:induction false} AtMostOne(es: seq<Entry>, p: int)
    requires DistinctPriorities(es)
    ensures |OfPriority(es, p)| <= 1
    decreases |es|
  {
    if es != [] {
      var n := |es| - 1;
      Peel(es, p);
      NoneOfPriority(es[..n], p);
      AtMostOne(es[..n], p);
    }
  }

  lemma {:induction false} NoneOfPriority(es: seq<Entry>, p: int)
    ensures OfPriority(es, p) == [] <==> forall e :: e in es ==> e.priority != p
    decreases |es|
  {
    if es != [] {
      var n := |es| - 1;
      NoneOfPriority(es[..n], p);
      Peel(es, p);
      assert es == es[..n] + [es[n]];
    }
  }

  /** With distinct priorities the list, and so every run, does not depend on the order of registration. */
  lemma OrderDoesNotMatter(a: seq<Entry>, b: seq<Entry>, in_: seq<Entry>, in_': seq<Entry>)
    requires IsStableSort(a, in_) && IsStableSort(b, in_')
    requires DistinctPriorities(in_) && DistinctPriorities(in_') && multiset(in_) == multiset(in_')
    ensures a == b
  {
    forall p ensures OfPriority(a, p) == OfPriority(b, p) {
      AtMostOne(in_, p);
      AtMostOne(in_', p);
      OfPriorityOnly(in_, p);
      OfPriorityOnly(in_', p);
      SameSingle(in_, in_', p);
      assert OfPriority(a, p) == OfPriority(in_, p) && OfPriority(b, p) == OfPriority(in_', p);
    }
    StableSortIsUnique(a, b);
  }

  lemma SameSingle(x: seq<Entry>, y: seq<Entry>, p: int)
    requires multiset(x) == multiset(y)
    requires |OfPriority(x, p)| <= 1 && |OfPriority(y, p)| <= 1
    ensures OfPriority(x, p) == OfPriority(y, p)
  {
    hide OfPriority;
    assert forall e :: e in x <==> e in multiset(x);
    assert forall e :: e in y <==> e in multiset(y);
    NoneOfPriority(x, p);
    NoneOfPriority(y, p);
    OfPriorityOnly(x, p);
    OfPriorityOnly(y, p);
    if OfPriority(x, p) != [] {
      assert OfPriority(x, p)[0] in OfPriority(y, p);
    }
  }

  /** With equal priorities it does. */
  lemma EqualPrioritiesMatter(e: Entry, f: Entry)
    requires e.priority == f.priority && e != f
    ensures SortByPriority([e, f]) == [e, f] && SortByPriority([f, e]) == [f, e]
  {
    StableSortIsUnique(SortByPriority([e, f]), [e, f]);
    StableSortIsUnique(SortByPriority([f, e]), [f, e]);
  }

  lemma {:induction false} GateOfPriority(es: seq<Entry>, enabled: Option<set<string>>, p: int)
    ensures OfPriority(Gate(es, enabled), p) == Gate(OfPriority(es, p), enabled)
    decreases |es|
  {
    if es != [] {
      var n := |es| - 1;
      var init, last := es[..n], es[n];
      GateOfPriority(init, enabled, p);
      hide *;
      Peel(es, p);
      GateSnoc(init, last, enabled);
      assert es == init + [last];
      AppendOfPriority(Gate(init, enabled), last, p);
      GateSnoc(OfPriority(init, p), last, enabled);
    } else {
      assert OfPriority([], p) == [];
    }
  }

  lemma GateSnoc(es: seq<Entry>, e: Entry, enabled: Option<set<string>>)
    ensures IsEnabled(e, enabled) ==> Gate(es + [e], enabled) == Gate(es, enabled) + [e]
    ensures !IsEnabled(e, enabled) ==> Gate(es + [e], enabled) == Gate(es, enabled)
  {
  }

  lemma {:induction false} GateMembers(es: seq<Entry>, enabled: Option<set<string>>)
    ensures forall e :: e in Gate(es, enabled) ==> e in es && IsEnabled(e, enabled)
    decreases |es|
  {
    if es != [] {
      GateMembers(es[..|es| - 1], enabled);
    }
  }

  lemma {:induction false} GateSorted(es: seq<Entry>, enabled: Option<set<string>>)
    requires Sorted(es)
    ensures Sorted(Gate(es, enabled))
    decreases |es|
  {
    if es != [] {
      var n := |es| - 1;
      SortedPrefix(es, n);
      GateSorted(es[..n], enabled);
      GateMembers(es[..n], enabled);
      forall i | 0 <= i < |Gate(es[..n], enabled)| ensures Gate(es[..n], enabled)[i].priority <= es[n].priority {
        assert Gate(es[..n], enabled)[i] in es[..n];
      }
    }
  }

  /** Gating a sorted list is sorting the gated registrations. */
  lemma GateCommutes(out: seq<Entry>, in_: seq<Entry>, enabled: Option<set<string>>)
    requires IsStableSort(out, in_)
    ensures IsStableSort(Gate(out, enabled), Gate(in_, enabled))
  {
    GateSorted(out, enabled);
    forall p ensures OfPriority(Gate(out, enabled), p) == OfPriority(Gate(in_, enabled), p) {
      GateOfPriority(out, enabled, p);
      GateOfPriority(in_, enabled, p);
      assert OfPriority(out, p) == OfPriority(in_, p);
    }
  }

  /** The registrations of these plugins alone. */
  function OfPlugins(log: seq<Registration>, on: set<string>): seq<Registration> {
    if log == [] then []
    else
      var n := |log| - 1;
      var rest := OfPlugins(log[..n], on);
      if log[n].entry.plugin in on then rest + [log[n]] else rest
  }

  lemma {:induction false} EnabledRegistered(log: seq<Registration>, on: set<string>, kind: Kind, event: string)
    ensures Registered(OfPlugins(log, on), kind, event) == Gate(Registered(log, kind, event), Some(on))
    decreases |log|
  {
    if log != [] {
      var n := |log| - 1;
      EnabledRegistered(log[..n], on, kind, event);
      LogAppend(OfPlugins(log[..n], on), log[n], kind, event);
      GateSnoc(Registered(log[..n], kind, event), log[n].entry, Some(on));
    }
  }

  /** A gated run over the full registry is an ungated run over a registry that only the enabled plugins
      registered with. */
  lemma GatedRunIsSubRegistry(list: seq<Entry>, sub: seq<Entry>, log: seq<Registration>, on: set<string>,
                              kind: Kind, event: string)
    requires IsStableSort(list, Registered(log, kind, event))
    requires IsStableSort(sub, Registered(OfPlugins(log, on), kind, event))
    ensures Gate(list, Some(on)) == sub == Gate(sub, None)
  {
    GateCommutes(list, Registered(log, kind, event), Some(on));
    EnabledRegistered(log, on, kind, event);
    StableSortIsUnique(Gate(list, Some(on)), sub);
    GateNone(sub);
  }

  lemma {:induction false} GateNone(es: seq<Entry>)
    ensures Gate(es, None) == es
    decreases |es|
  {
    if es != [] {
      GateNone(es[..|es| - 1]);
    }
  }
}
