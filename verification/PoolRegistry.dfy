/** The registry of connection pools: which pool a tenant gets, and the tenant setting of the clients
    it hands out.  Each method from Connect on is what runs between two awaits, so keeping Valid, each
    keeps it under any interleaving. */
module PoolRegistry {
  import I = Interceptor
  import opened Options

  /** A client of a pool: idle in it, checked out, or discarded. */
  class Client {
    var setting: I.Tenant
    var place: I.Place

    constructor ()
      ensures setting == "" && place == I.Out
    {
      setting, place := "", I.Out;
    }
  }

  class Pool {
    const url: string
    var clients: set<Client>

    constructor (url: string)
      ensures this.url == url && clients == {}
    {
      this.url, this.clients := url, {};
    }
  }

  class PoolRegistry {
    const shared: Pool
    const metadata: Pool
    var vipPools: map<string, Pool>
    /** Every client of every pool the registry ever had. */
    ghost var all: set<Client>
    /** Clients handed out and not yet given back, with the tenant they were acquired for. */
    ghost var held: map<Client, I.Tenant>
    /** Clients whose last release threw in its reset and left them a tenant's setting. */
    ghost var unreset: set<Client>

    ghost predicate Valid()
      reads this, all
    {
      && (forall c :: c in all && c.place == I.Idle ==> IsLeft(c))
      && (forall c :: c in all ==> c.setting == "" || I.IsUuid(c.setting))
      && (forall c :: c in held ==> c in all && c.place == I.Out)
      && (forall c :: c in held ==> if held[c] == "" then IsLeft(c) else c.setting == held[c] && I.IsUuid(held[c]))
      && unreset <= all
      && (forall t :: t in vipPools ==> vipPools[t] != shared && vipPools[t] != metadata)
    }

    /** The setting of a client nobody set a tenant on is what its last release left. */
    ghost predicate IsLeft(c: Client)
      reads this`unreset, c
    {
      c.setting != "" <==> c in unreset
    }

    constructor (url: string, metadataUrl: string)
      ensures Valid() && fresh(shared) && fresh(metadata) && vipPools == map[] && all == {}
    {
      shared := new Pool(url);
      metadata := new Pool(metadataUrl);
      vipPools, all, held, unreset := map[], {}, map[], {};
    }

    /** A second registration keeps the pool there is. */
    method RegisterVipPool(tenant: string, dbUrl: string) returns (ok: bool)
      requires Valid()
      modifies this`vipPools
      ensures Valid() && (ok <==> I.IsUuid(tenant))
      ensures !ok || tenant in old(vipPools) ==> vipPools == old(vipPools)
      ensures (ok && tenant !in old(vipPools) ==>
                 && tenant in vipPools && fresh(vipPools[tenant]) && vipPools[tenant].url == dbUrl
                 && vipPools == old(vipPools)[tenant := vipPools[tenant]])
    {
      ok := I.IsUuid(tenant);
      if ok && tenant !in vipPools {
        var pool := new Pool(dbUrl);
        vipPools := vipPools[tenant := pool];
      }
    }

    method DeregisterVipPool(tenant: string)
      requires Valid()
      modifies this`vipPools
      ensures Valid() && vipPools == old(vipPools) - {tenant}
    {
      if tenant in vipPools {
        vipPools := vipPools - {tenant};
      }
    }

    /** The tenant's own pool if it has one and its tier may use it; otherwise the shared pool. */
    function GetPool(tier: string, tenant: Option<string>): (pool: Pool)
      requires Valid()
      reads this, all
      ensures pool != shared <==>
                tenant.Some? && tenant.value != "" && tenant.value in vipPools && tier !in {"basic", "premium"}
      ensures pool != shared ==> pool == vipPools[tenant.value]
      ensures pool == metadata ==> shared == metadata
    {
      if tier != "basic" && tier != "premium" && tenant.Some? && tenant.value != "" && tenant.value in vipPools
      then vipPools[tenant.value] else shared
    }

    /** connect(): an idle client, or a new one. */
    method Connect(pool: Pool) returns (c: Client)
      requires Valid() && forall x :: x in pool.clients ==> x in all
      modifies this`all, pool, pool.clients
      ensures Valid() && c in all && c in pool.clients && c !in held
      ensures c.place == I.Out && IsLeft(c)
      ensures all == old(all) + {c} && (c in old(all) ==> old(c.place) == I.Idle)
      ensures c !in old(all) ==> fresh(c) && forall x :: x in old(pool.clients) ==> old(x.place) != I.Idle
      ensures forall x :: x in old(all) && x != c ==> x.place == old(x.place) && x.setting == old(x.setting)
      ensures pool.clients == old(pool.clients) + {c}
    {
      var idle := set x | x in pool.clients && x.place == I.Idle;
      if idle != {} {
        c :| c in idle;
        c.place := I.Out;
      } else {
        c := new Client();
        pool.clients := pool.clients + {c};
        all := all + {c};
      }
    }

    /** SET the tenant and hand the client out; with no tenant there is nothing to set.  When the id
        is malformed or the SET throws, the caller gets nothing and the client stays out. */
    method Scope(c: Client, tenant: I.Tenant, throws: bool, applied: bool) returns (ok: bool)
      requires Valid() && c in all && c !in held && c.place == I.Out && IsLeft(c)
      modifies this`held, c
      ensures Valid() && c.place == I.Out
      ensures ok <==> tenant == "" || (I.IsUuid(tenant) && !throws)
      ensures held == if ok then old(held)[c := tenant] else old(held)
      ensures c.setting == if tenant != "" && I.IsUuid(tenant) && (!throws || applied) then tenant else old(c.setting)
    {
      if tenant == "" {
        held := held[c := ""];
        return true;
      }
      if !I.IsUuid(tenant) {
        return false;
      }
      if throws {
        if applied {
          c.setting := tenant;
        }
        return false;
      }
      c.setting := tenant;
      held := held[c := tenant];
      ok := true;
    }

    /** The wrapped release, before its await: the holder gives the client back. */
    method BeginRelease(c: Client) returns (ghost t: I.Tenant)
      requires Valid() && c in held
      modifies this`held
      ensures Valid() && t == old(held[c]) && held == old(held) - {c} && IsReturning(c, t)
    {
      t := held[c];
      held := held - {c};
    }

    /** c, acquired for tenant t, is given back and not yet reset. */
    ghost predicate IsReturning(c: Client, t: I.Tenant)
      reads this, c
    {
      c in all && c !in held && c.place == I.Out && if t == "" then IsLeft(c) else c.setting == t && I.IsUuid(t)
    }

    /** ...and after it: the setting is reset, or the reset threw, before or after it took effect, and
        the pool discards the client or keeps it.  A release with an error discards it as well. */
    method EndRelease(c: Client, throws: bool, applied: bool, broken: bool, error: bool, ghost t: I.Tenant)
      requires Valid() && IsReturning(c, t)
      modifies this`unreset, c
      ensures Valid() && c.place == if (throws && broken) || error then I.Gone else I.Idle
      ensures c in unreset <==> throws && !applied && (t != "" || c in old(unreset))
      ensures unreset - {c} == old(unreset) - {c}
      ensures c.setting == if throws && !applied then old(c.setting) else ""
    {
      if throws && !applied {
        if t != "" {
          unreset := unreset + {c};
        }
      } else {
        c.setting, unreset := "", unreset - {c};
      }
      c.place := if (throws && broken) || error then I.Gone else I.Idle;
    }

    /** A query on a client handed out for a tenant reads exactly that tenant's rows, whatever became of
        the resets before. */
    lemma HeldReadsOwnRows(c: Client, row: I.Row)
      requires Valid() && c in held && held[c] != ""
      ensures I.Visible(I.Conn(c.setting, c.place), row) <==> I.SameUuid(row.tenant, held[c])
    {
    }

    /** On a client handed out for no tenant it can read some row exactly when the client was given back
        without a reset. */
    lemma UnscopedReadsIff(c: Client)
      requires Valid() && c in held && held[c] == ""
      ensures (exists row :: I.Visible(I.Conn(c.setting, c.place), row)) <==> c in unreset
    {
      if c.setting != "" {
        assert I.Visible(I.Conn(c.setting, c.place), I.Row(c.setting, 0));
      }
    }
  }
}
