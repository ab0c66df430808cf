/** The per-tenant connection cap: mutable slots that suspended acquirers hold by reference while
    other tasks grant, release, replace, re-cap and delete them.  Await points are the only places
    where tasks interleave. */
module Quota {
  import opened Options

  const ACQUIRE_TIMEOUT_MS: nat := 5000
  const POLL_INTERVAL_MS: nat := 50

  /** None for the exempt tier; an unknown tier gets 10. */
  function Cap(tier: string): Option<nat> {
    match tier
    case "premium" => Some(20)
    case "enterprise" => Some(30)
    case "vip" => None
    case _ => Some(10)
  }

  class Slot {
    const owner: string
    var current: nat
    var max: nat
    /** The largest cap the slot was ever given. */
    ghost var peak: nat

    constructor (owner: string, max: nat)
      ensures this.owner == owner && current == 0 && this.max == max && peak == max
    {
      this.owner, this.current, this.max, this.peak := owner, 0, max, max;
    }
  }

  /** What another task does between two awaits of its own; Wake is a suspended acquirer's poll. */
  datatype Op =
    | Register(t: string, tier: string)
    | AcquireSync(t: string)
    | Arrive(t: string)
    | Wake(i: nat)
    | Release(t: string)
    | UpdateCap(t: string, tier: string)
    | Deregister(t: string)

  predicate NoCapAbove(ops: seq<Op>, m: nat) {
    forall op :: op in ops && op.UpdateCap? && Cap(op.tier).Some? ==> Cap(op.tier).value <= m
  }

  function Max(a: nat, b: nat): nat {
    if a < b then b else a
  }

  ghost predicate HadSlot(all: set<Slot>, t: string) {
    exists s :: s in all && s.owner == t
  }

  class TenantQuotaEnforcer {
    var slots: map<string, Slot>
    /** The slots that suspended acquirers captured. */
    var waiting: seq<Slot>
    var now: nat
    /** How long each sleep to come takes beyond the interval asked for, and what runs meanwhile. */
    var delays: seq<nat>
    var others: seq<seq<Op>>

    /** Connections the tasks hold: successful acquires less the releases of what they hold. */
    ghost var holders: map<string, nat>
    /** Every slot ever created. */
    ghost var all: set<Slot>
    /** Tenants with a slot that was replaced, removed, or created while connections were held. */
    ghost var spoilt: set<string>

    ghost function Holders(t: string): nat
      reads this`holders
    {
      if t in holders then holders[t] else 0
    }

    ghost predicate SlotsValid()
      reads this, all
    {
      && (forall s :: s in all ==> s.current <= s.peak && s.max <= s.peak)
      && (forall s :: s in waiting ==> s in all)
      && (forall t :: t in slots ==> slots[t] in all && slots[t].owner == t)
    }

    /** A live slot never counts more connections than are held, and counts them exactly when it is
        the tenant's only slot. */
    ghost predicate CountsValid()
      requires SlotsValid()
      reads this, all
    {
      && (forall t :: t in slots ==> slots[t].current <= Holders(t))
      && (forall t :: t in slots && t !in spoilt ==> slots[t].current == Holders(t))
      && (forall s :: s in all && s.owner !in spoilt ==> s.owner in slots && slots[s.owner] == s)
    }

    ghost predicate Valid()
      reads this, all
    {
      SlotsValid() && CountsValid()
    }

    constructor ()
      ensures Valid() && slots == map[] && all == {} && holders == map[] && spoilt == {}
    {
      slots, waiting, now, delays, others := map[], [], 0, [], [];
      all, holders, spoilt := {}, map[], {};
    }

    method Register(t: string, tier: string)
      requires Valid()
      modifies this`slots, this`all, this`spoilt
      ensures Valid() && old(all) <= all && fresh(all - old(all))
      ensures Cap(tier) == None ==> slots == old(slots)
      ensures (Cap(tier).Some? ==>
                 && t in slots && fresh(slots[t]) && slots == old(slots)[t := slots[t]]
                 && slots[t].current == 0 && slots[t].max == Cap(tier).value)
      ensures tier == "vip" ==> slots == old(slots) && spoilt == old(spoilt)
      ensures (tier != "vip" ==>
                 spoilt == old(spoilt)
                           + if t in old(slots) || old(Holders(t)) > 0 || HadSlot(old(all), t) then {t} else {})
      ensures (tier != "vip" ==>
                 && t in slots
                 && slots[t].max == match tier case "premium" => 20 case "enterprise" => 30 case _ => 10)
    {
      var cap := Cap(tier);
      if cap == None {
        return;
      }
      var s := new Slot(t, cap.value);
      if t in slots || Holders(t) > 0 || HadSlot(all, t) {
        spoilt := spoilt + {t};
      }
      slots := slots[t := s];
      all := all + {s};
    }

    /** The test and increment of both acquires. */
    method Grant(s: Slot) returns (ok: bool)
      requires Valid() && s in all
      modifies this`holders, s`current
      ensures Valid()
      ensures ok <==> old(s.current) < s.max
      ensures s.current == old(s.current) + (if ok then 1 else 0)
      ensures Holders(s.owner) == old(Holders(s.owner)) + (if ok then 1 else 0)
      ensures forall t :: t != s.owner ==> Holders(t) == old(Holders(t))
    {
      ok := s.current < s.max;
      if ok {
        s.current := s.current + 1;
        holders := holders[s.owner := Holders(s.owner) + 1];
      }
    }

    method Pass(t: string)
      requires Valid() && t !in slots
      modifies this`holders
      ensures Valid() && Holders(t) == old(Holders(t)) + 1
    {
      holders := holders[t := Holders(t) + 1];
    }

    /** When nothing is held there is nothing to give back. */
    method Release(t: string)
      requires Valid()
      modifies this`holders, all
      ensures Valid() && Holders(t) == if old(Holders(t)) > 0 then old(Holders(t)) - 1 else 0
      ensures forall u :: u != t ==> Holders(u) == old(Holders(u))
      ensures forall s :: s in all ==> s.max == old(s.max) && s.peak == old(s.peak)
      ensures forall s :: s in all ==>
                s.current == old(s.current) - if t in slots && s == slots[t] && old(s.current) > 0 then 1 else 0
    {
      if t in slots && slots[t].current > 0 {
        slots[t].current := slots[t].current - 1;
      }
      holders := holders[t := if Holders(t) > 0 then Holders(t) - 1 else 0];
    }

    method UpdateCap(t: string, tier: string)
      requires Valid()
      modifies this`slots, this`all, this`spoilt, all
      ensures Valid() && old(all) <= all && fresh(all - old(all))
      ensures forall s :: s in old(all) ==> s.current == old(s.current)
      ensures forall s :: s in old(all) && s.max != old(s.max) ==> t in slots && s == slots[t]
      ensures Cap(tier) == None ==> slots == old(slots) - {t}
      ensures (spoilt == old(spoilt)
               || (&& spoilt == old(spoilt) + {t}
                   && ((tier == "vip" && t in old(slots))
                       || (tier != "vip" && t !in old(slots) && (old(Holders(t)) > 0 || HadSlot(old(all), t))))))
      ensures (t in old(slots) && tier != "vip" ==>
                 t in slots && slots[t].peak == Max(old(slots[t].peak), slots[t].max))
      ensures (Cap(tier).Some? ==>
                 && t in slots && slots == old(slots)[t := slots[t]]
                 && slots[t].max == Cap(tier).value
                 && if t in old(slots) then slots[t] == old(slots)[t] else fresh(slots[t]) && slots[t].current == 0)
    {
      var cap := Cap(tier);
      if cap == None {
        Deregister(t);
      } else if t in slots {
        slots[t].max := cap.value;
        slots[t].peak := Max(slots[t].peak, cap.value);
      } else {
        Register(t, tier);
      }
    }

    method Deregister(t: string)
      requires Valid()
      modifies this`slots, this`spoilt
      ensures Valid() && slots == old(slots) - {t}
      ensures spoilt == old(spoilt) + if t in old(slots) then {t} else {}
    {
      if t in slots {
        spoilt := spoilt + {t};
      }
      slots := slots - {t};
    }
  
    /** acquire with a timeout of zero, and without any. */
    method AcquireSync(t: string) returns (ok: bool)
      requires Valid()
      modifies this`holders, all
      ensures Valid()
      ensures ok <==> t !in slots || old(slots[t].current < slots[t].max)
      ensures Holders(t) == old(Holders(t)) + if ok then 1 else 0
      ensures forall s :: s in all ==> s.max == old(s.max) && s.peak == old(s.peak)
      ensures forall s :: s in all ==> s.current == old(s.current) + if ok && t in slots && s == slots[t] then 1 else 0
    {
      if t !in slots {
        Pass(t);
        return true;
      }
      ok := Grant(slots[t]);
    }

    /** One step of another task. */
    method Do(op: Op)
      requires Valid()
      modifies this`slots, this`waiting, this`holders, this`all, this`spoilt, all
      ensures Valid() && old(all) <= all && fresh(all - old(all))
      ensures forall s :: s in old(all) && s.current > old(s.current) ==> s.current == old(s.current) + 1 <= old(s.max)
      ensures forall s :: s in old(all) && s.max != old(s.max) ==> op.UpdateCap? && Cap(op.tier) == Some(s.max)
      ensures (waiting == if op.Arrive? && op.t in old(slots) then old(waiting) + [old(slots)[op.t]]
                          else if op.Wake? && op.i < |old(waiting)|
                                  && old(if op.i < |waiting| then waiting[op.i].current < waiting[op.i].max else false)
                          then old(waiting)[..op.i] + old(waiting)[op.i + 1..]
                          else old(waiting))
    {
      match op
      case Register(t, tier) => Register(t, tier);
      case AcquireSync(t) => var _ := AcquireSync(t);
      case Arrive(t) =>
        if t in slots {
          waiting := waiting + [slots[t]];
        } else {
          Pass(t);
        }
      case Wake(i) =>
        if i < |waiting| {
          var ok := Grant(waiting[i]);
          if ok {
            waiting := waiting[..i] + waiting[i + 1..];
          }
        }
      case Release(t) => Release(t);
      case UpdateCap(t, tier) => UpdateCap(t, tier);
      case Deregister(t) => Deregister(t);
    }

    /** Whatever the tasks do, a slot whose cap is not raised above m stays within m, or does not rise
        from where it was: after a cap is lowered there is no grant until enough are released. */
    method Run(ops: seq<Op>)
      requires Valid()
      modifies this`slots, this`waiting, this`holders, this`all, this`spoilt, all
      ensures Valid() && old(all) <= all && fresh(all - old(all))
      ensures forall s, m :: s in old(all) && old(s.max) <= m && NoCapAbove(ops, m) ==>
                s.max <= m && s.current <= Max(old(s.current), m)
    {
      for i := 0 to |ops|
        invariant Valid() && old(all) <= all && fresh(all - old(all))
        invariant forall s, m :: s in old(all) && old(s.max) <= m && NoCapAbove(ops, m) ==>
                    s.max <= m && s.current <= Max(old(s.current), m)
      {
        assert ops[i] in ops;
        Do(ops[i]);
      }
    }

    /** The polling acquire.  It sleeps at most a hundred times, and what it is granted, it is granted
        from the slot that was live when it arrived, below that slot's cap of the moment. */
    method Acquire(t: string) returns (ok: bool, sleeps: nat)
      requires Valid()
      modifies this, all
      ensures Valid() && old(all) <= all && fresh(all - old(all))
      ensures sleeps <= 100
      ensures ok ==> Holders(t) > 0
      ensures t !in old(slots) ==> ok && sleeps == 0
      ensures t in old(slots) && ok ==> 0 < old(slots[t]).current <= old(slots[t]).max
      ensures (t in old(slots) && !ok ==>
                 old(slots[t]).current >= old(slots[t]).max && now >= old(now) + 5000)
      ensures t in old(slots) && old(slots[t].current < slots[t].max) ==> ok && sleeps == 0
    {
      sleeps := 0;
      if t !in slots {
        Pass(t);
        return true, 0;
      }
      var slot := slots[t];
      var deadline := now + ACQUIRE_TIMEOUT_MS;
      while slot.current >= slot.max
        invariant Valid() && old(all) <= all && fresh(all - old(all)) && slot in all
        invariant now >= old(now) + sleeps * POLL_INTERVAL_MS && sleeps <= ACQUIRE_TIMEOUT_MS / POLL_INTERVAL_MS
        invariant sleeps > 0 ==> old(slot.current) >= old(slot.max)
        invariant sleeps == 0 ==> slot.current == old(slot.current) && slot.max == old(slot.max)
        decreases ACQUIRE_TIMEOUT_MS / POLL_INTERVAL_MS - sleeps
      {
        if now >= deadline {
          return false, sleeps;
        }
        Sleep();
        sleeps := sleeps + 1;
      }
      ok := Grant(slot);
    }

    /** setTimeout: at least the interval passes, and the other tasks run. */
    method Sleep()
      requires Valid()
      modifies this, all
      ensures Valid() && old(all) <= all && fresh(all - old(all))
      ensures now == old(now) + 50 + if old(delays) == [] then 0 else old(delays)[0]
      ensures delays == (if old(delays) == [] then [] else old(delays)[1..])
      ensures others == (if old(others) == [] then [] else old(others)[1..])
    {
      if delays == [] {
        now := now + POLL_INTERVAL_MS;
      } else {
        now, delays := now + POLL_INTERVAL_MS + delays[0], delays[1..];
      }
      if others != [] {
        var ops := others[0];
        others := others[1..];
        Run(ops);
      }
    }

    /** No slot, live or orphaned, exceeds the largest cap it was given; a live slot never counts more
        than the connections held, and exactly those when it is the tenant's only slot. */
    lemma SlotBounds(s: Slot)
      requires Valid() && s in all
      ensures s.current <= s.peak
      ensures s.owner in slots && s == slots[s.owner] ==> s.current <= Holders(s.owner)
      ensures s.owner !in spoilt ==> s.owner in slots && s == slots[s.owner] && s.current == Holders(s.owner)
    {
    }
  }

  /** The cap is the slot's, not the tenant's: registering again replaces the slot, and twice the cap
      is handed out. */
  method ReplacedSlotDoublesCap(t: string) returns (e: TenantQuotaEnforcer)
    ensures fresh(e) && fresh(e.all) && e.Valid()
    ensures t in e.slots && e.slots[t].max == 10 && e.Holders(t) == 20
  {
    e := new TenantQuotaEnforcer();
    e.Register(t, "basic");
    Fill(e, t, 10);
    e.Register(t, "basic");
    Fill(e, t, 10);
  }

  method Fill(e: TenantQuotaEnforcer, t: string, n: nat)
    requires e.Valid() && t in e.slots && e.slots[t].current == 0 && e.slots[t].max == n
    modifies e`holders, e.all
    ensures e.Valid() && e.slots[t].max == n && e.Holders(t) == old(e.Holders(t)) + n
  {
    for i := 0 to n
      invariant e.Valid() && e.slots[t].current == i && e.slots[t].max == n
      invariant e.Holders(t) == old(e.Holders(t)) + i
    {
      var _ := e.AcquireSync(t);
    }
  }
}
