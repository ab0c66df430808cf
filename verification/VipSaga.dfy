/** The VIP sagas of one tenant: migration to a dedicated database, the delayed cleanup of the
    shared rows, and the decommission that copies back and drops the dedicated database.

    Every statement meets a fate: it takes effect or not, and its caller hears of success, hears
    of an error, or dies with the process.  The processors run one after the other. */
module VipSaga {
  import opened Options
  import opened TablePaging

  const TABLES: nat := 4  // customers, support_cases, automation_triggers, marketing_campaigns

  type Db = d: seq<Table> | |d| == 4 witness [map[], map[], map[], map[]]

  /** The tenant's rows, table by table. */
  type AllRows = r: seq<Rows> | |r| == 4 witness [map[], map[], map[], map[]]

  function RowsOf(db: Db, tenant: string): (r: AllRows)
    ensures forall t :: 0 <= t < 4 ==> r[t] == Slice(db[t], tenant)
  {
    [Slice(db[0], tenant), Slice(db[1], tenant), Slice(db[2], tenant), Slice(db[3], tenant)]
  }

  const EMPTY_DB: Db := [map[], map[], map[], map[]]

  datatype Status = Active | Migrating

  datatype TenantRow = TenantRow(status: Status, tier: string, hasUrl: bool)

  /** registry holds one flag per vip_db_registry row of the tenant: decommissioned or not. */
  datatype World = World(
    tenant: string,
    shared: Db,
    dedicated: Option<Db>,
    row: TenantRow,
    registry: seq<bool>,
    cleanups: nat,
    vipPool: bool,
    cap: Option<string>)

  // ---------------------------------------------------------------- what a database holds

  ghost predicate Holds(db: Db, tenant: string, r: AllRows) {
    forall t :: 0 <= t < 4 ==> Slice(db[t], tenant) == r[t]
  }

  ghost predicate HoldsAll(db: Db, tenant: string, r: AllRows) {
    forall t, id :: 0 <= t < 4 && id in r[t] ==> id in Slice(db[t], tenant) && r[t][id] == Slice(db[t], tenant)[id]
  }

  ghost predicate SameCounts(a: Db, b: Db, tenant: string) {
    forall t :: 0 <= t < 4 ==> |Slice(a[t], tenant)| == |Slice(b[t], tenant)|
  }

  /** The rows of other tenants are not touched. */
  ghost predicate OthersKept(a: Db, b: Db, tenant: string) {
    forall t, other :: 0 <= t < 4 && other != tenant ==> Slice(a[t], other) == Slice(b[t], other)
  }

  // ---------------------------------------------------------------- the processors as relations

  /** What a run of the migration processor may do, whatever failed in it.  lostAck: the cleanup
      job was queued although the processor was told that it was not. */
  ghost predicate MigrationEffect(w: World, w': World, lostAck: bool) {
    && w'.tenant == w.tenant && w'.shared == w.shared
    && (w.dedicated.Some? ==> w'.dedicated == w.dedicated && w'.cleanups == w.cleanups)
    && (w'.cleanups == w.cleanups || w'.cleanups == w.cleanups + 1)
    && (w'.cleanups > w.cleanups && !lostAck ==>
          w'.dedicated.Some? && Holds(w'.dedicated.value, w.tenant, RowsOf(w.shared, w.tenant)))
  }

  /** Table t after a copy back in which every query was answered, in these row orders. */
  ghost predicate BackUnder(w: World, t: nat, paging: Paging, table: Table)
    requires t < 4 && w.dedicated.Some?
  {
    var rows := Slice(w.dedicated.value[t], w.tenant);
    LegalPaging(paging, rows.Keys) && Merged(w.shared[t], rows, Returned(paging, |paging|), w.tenant, table)
  }

  ghost predicate CameBack(w: World, t: nat, table: Table)
    requires t < 4 && w.dedicated.Some?
  {
    exists paging :: BackUnder(w, t, paging, table)
  }

  /** The copy back was complete and the row counts agreed. */
  ghost predicate Verified(w: World, w': World)
    requires w.dedicated.Some?
  {
    && (forall t :: 0 <= t < 4 ==> CameBack(w, t, w'.shared[t]))
    && SameCounts(w.dedicated.value, w'.shared, w.tenant)
  }

  /** What a run of the decommission processor may do: only a verified copy lets it release the tenant,
      and only then it may drop the database. */
  ghost predicate DecommissionEffect(w: World, w': World) {
    && w'.tenant == w.tenant && w'.cleanups == w.cleanups
    && (w.dedicated.None? ==> w'.shared == w.shared && w'.dedicated.None? && w'.row == w.row)
    && (w.dedicated.Some? ==>
          && (forall t :: 0 <= t < 4 ==>
                PartlyMerged(w.shared[t], Slice(w.dedicated.value[t], w.tenant), w.tenant, w'.shared[t]))
          && (w'.row == w.row || (Verified(w, w') && w'.row.status == Active && !w'.row.hasUrl))
          && (w'.dedicated == w.dedicated
              || (w'.dedicated.None? && Verified(w, w') && w'.row.status == Active)))
  }

  function Deleted(t: Table, tenant: string): (r: Table)
    ensures Slice(r, tenant) == map[]
    ensures forall other :: other != tenant ==> Slice(r, other) == Slice(t, other)
    ensures forall id :: id in t && t[id].tenant != tenant ==> id in r && r[id] == t[id]
  {
    map id | id in t && t[id].tenant != tenant :: t[id]
  }

  /** What a run of the cleanup processor may do; a job that gave up is gone from the queue too. */
  ghost predicate CleanupEffect(w: World, w': World) {
    && w.cleanups > 0 && w'.tenant == w.tenant
    && w'.dedicated == w.dedicated
    && (w'.cleanups == w.cleanups || w'.cleanups == w.cleanups - 1)
    && (forall t :: 0 <= t < 4 ==> w'.shared[t] == w.shared[t] || w'.shared[t] == Deleted(w.shared[t], w.tenant))
  }

  // ---------------------------------------------------------------- the processors

  datatype MigrationEnv = MigrationEnv(
    acquire: Fate, gate: Fate, create: Fate, schema: Fate,
    paging: seq<Paging>, selects: seq<nat -> Fate>, inserts: seq<nat -> Fate>, verify: nat -> Fate,
    begin: Fate, register: Fate, update: Fate, commit: Fate, enqueue: Fate,
    restore: Fate, drop: Fate)
  {
    ghost predicate Valid(rows: AllRows) {
      && |paging| == |selects| == |inserts| == 4
      && forall t :: 0 <= t < 4 ==> LegalPaging(paging[t], rows[t].Keys)
    }

    /** Every statement up to the last succeeds and no page repeats a row. */
    ghost predicate Clean() {
      && |paging| == |selects| == |inserts| == 4
      && acquire.reply.Acked? && gate.reply.Acked? && create.reply.Acked? && schema.reply.Acked?
      && (forall t :: 0 <= t < 4 ==>
            AllAcked(selects[t]) && AllAcked(inserts[t]) && Apart(paging[t], |paging[t]|, map[]))
      && AllAcked(verify)
      && begin.reply.Acked? && register.reply.Acked? && update.reply.Acked? && commit.reply.Acked?
    }

    ghost predicate LostAck() {
      enqueue.applied && enqueue.reply.Errored?
    }

    /** Nothing keeps the rollback from undoing the run: no statement of the transaction failed
        (its connection answers no later statement), CREATE DATABASE did not take effect behind an
        error, and the rollback's own statements succeed. */
    /** The transaction of the registration took effect. */
    ghost predicate Registers() {
      begin.reply.Acked? && register.reply.Acked? && update.reply.Acked? && commit.Applies()
    }

    ghost predicate RollbackCanUndo() {
      && acquire.reply.Acked?
      && register.reply.Acked? && update.reply.Acked? && commit.reply.Acked?
      && !(create.applied && create.reply.Errored?)
      && restore.reply.Acked? && drop.reply.Acked?
    }
  }

  datatype DecommissionEnv = DecommissionEnv(
    paging: seq<Paging>, selects: seq<nat -> Fate>, inserts: seq<nat -> Fate>, verify: nat -> Fate,
    update: Fate, poolEnd: Fate, mark: Fate, drop: Fate)
  {
    ghost predicate Valid(rows: AllRows) {
      && |paging| == |selects| == |inserts| == 4
      && forall t :: 0 <= t < 4 ==> LegalPaging(paging[t], rows[t].Keys)
    }

    ghost predicate Clean() {
      && |paging| == |selects| == |inserts| == 4
      && (forall t :: 0 <= t < 4 ==> AllAcked(selects[t]) && AllAcked(inserts[t]))
      && AllAcked(verify)
      && update.reply.Acked? && poolEnd.reply.Acked? && mark.reply.Acked? && drop.reply.Acked?
    }
  }

  /** All eight counts were answered. */
  ghost predicate CountsHeard(io: nat -> Fate) {
    forall k :: 0 <= k < 8 ==> io(k).reply.Acked?
  }

  /** SELECT COUNT(*) on both sides, table by table. */
  method VerifyRowCounts(src: Db, dest: Db, tenant: string, io: nat -> Fate) returns (out: Outcome)
    ensures out.Completed? ==> SameCounts(src, dest, tenant)
    ensures out.Completed? <==> SameCounts(src, dest, tenant) && CountsHeard(io)
    ensures out.Crashed? ==> exists k :: 0 <= k < 8 && io(k).reply.Died?
  {
    for t := 0 to TABLES
      invariant forall k :: 0 <= k < t ==> |Slice(src[k], tenant)| == |Slice(dest[k], tenant)|
      invariant forall k :: 0 <= k < 2 * t ==> io(k).reply.Acked?
    {
      var a, b := io(2 * t), io(2 * t + 1);
      if !a.reply.Acked? {
        return Heard(a.reply);
      }
      if !b.reply.Acked? {
        return Heard(b.reply);
      }
      if |Slice(src[t], tenant)| != |Slice(dest[t], tenant)| {
        return Threw;
      }
    }
    out := Completed;
  }

  /** Step 3 of the migration: the four tables into the fresh dedicated database. */
  method CopyTables(shared: Db, tenant: string, env: MigrationEnv) returns (out: Outcome, db: Db)
    requires env.Valid(RowsOf(shared, tenant))
    ensures out.Completed? ==> Holds(db, tenant, RowsOf(shared, tenant))
    ensures env.Clean() ==> out.Completed?
  {
    db := EMPTY_DB;
    ghost var all := RowsOf(shared, tenant);
    for t := 0 to TABLES
      invariant forall k :: 0 <= k < t ==> Slice(db[k], tenant) == all[k]
    {
      var table, queries;
      out, table, queries :=
        MigrateTable(Slice(shared[t], tenant), tenant, map[], env.paging[t], env.selects[t], env.inserts[t]);
      if !out.Completed? {
        db := db[t := table];
        return;
      }
      CopyIsSlice(all[t], tenant, table);
      db := db[t := table];
    }
    out := Completed;
  }

  lemma CopyIsSlice(rows: Rows, tenant: string, table: Table)
    requires PartlyMerged(map[], rows, tenant, table) && forall id :: id in rows ==> id in table
    ensures Slice(table, tenant) == rows
  {
  }

  ghost predicate TableBack(src: Rows, env: DecommissionEnv, t: nat, tenant: string, dest0: Table, dest: Table)
    requires t < |env.paging|
  {
    Merged(dest0, src, Returned(env.paging[t], |env.paging[t]|), tenant, dest)
  }

  /** Step 1 of the decommission: the four tables back into the shared database. */
  method CopyBack(src: Db, shared: Db, tenant: string, env: DecommissionEnv) returns (out: Outcome, dest: Db)
    requires env.Valid(RowsOf(src, tenant))
    ensures forall t :: 0 <= t < 4 ==> PartlyMerged(shared[t], Slice(src[t], tenant), tenant, dest[t])
    ensures (out.Completed? ==>
               forall t :: 0 <= t < 4 ==> TableBack(Slice(src[t], tenant), env, t, tenant, shared[t], dest[t]))
    ensures env.Clean() ==> out.Completed?
  {
    dest := shared;
    ghost var all := RowsOf(src, tenant);
    for t := 0 to TABLES
      invariant forall k :: t <= k < 4 ==> dest[k] == shared[k]
      invariant forall k :: 0 <= k < t ==> PartlyMerged(shared[k], all[k], tenant, dest[k])
      invariant forall k :: 0 <= k < t ==> TableBack(all[k], env, k, tenant, shared[k], dest[k])
    {
      var table;
      out, table :=
        DecommissionTable(Slice(src[t], tenant), tenant, dest[t], env.paging[t], env.selects[t], env.inserts[t]);
      dest := dest[t := table];
      if !out.Completed? {
        forall k | 0 <= k < 4 ensures PartlyMerged(shared[k], all[k], tenant, dest[k]) {}
        return;
      }
    }
    out := Completed;
  }

  lemma VerifiedBy(w: World, w': World, env: DecommissionEnv)
    requires w.dedicated.Some? && env.Valid(RowsOf(w.dedicated.value, w.tenant))
    requires forall t :: 0 <= t < 4 ==>
      TableBack(Slice(w.dedicated.value[t], w.tenant), env, t, w.tenant, w.shared[t], w'.shared[t])
    requires SameCounts(w.dedicated.value, w'.shared, w.tenant)
    ensures Verified(w, w')
  {
    hide *;
    forall t | 0 <= t < 4 ensures CameBack(w, t, w'.shared[t]) {
      TableCameBack(w, w', env, t);
    }
    VerifiedIs(w, w');
  }

  lemma VerifiedIs(w: World, w': World)
    requires w.dedicated.Some? && SameCounts(w.dedicated.value, w'.shared, w.tenant)
    requires forall t :: 0 <= t < 4 ==> CameBack(w, t, w'.shared[t])
    ensures Verified(w, w')
  {
  }

  lemma TableCameBack(w: World, w': World, env: DecommissionEnv, t: nat)
    requires w.dedicated.Some? && env.Valid(RowsOf(w.dedicated.value, w.tenant)) && t < 4
    requires TableBack(Slice(w.dedicated.value[t], w.tenant), env, t, w.tenant, w.shared[t], w'.shared[t])
    ensures CameBack(w, t, w'.shared[t])
  {
    assert RowsOf(w.dedicated.value, w.tenant)[t] == Slice(w.dedicated.value[t], w.tenant);
    hide Merged, LegalPaging, Slice;
    assert BackUnder(w, t, env.paging[t], w'.shared[t]);
  }

  lemma NothingToDecommission(w: World)
    requires w.dedicated.None?
    ensures DecommissionEffect(w, w)
  {
  }

  lemma UnverifiedEffect(w: World, w': World)
    requires w.dedicated.Some? && w' == w.(shared := w'.shared)
    requires forall t :: 0 <= t < 4 ==>
      PartlyMerged(w.shared[t], Slice(w.dedicated.value[t], w.tenant), w.tenant, w'.shared[t])
    ensures DecommissionEffect(w, w')
  {
  }

  lemma VerifiedEffect(w: World, w1: World, w2: World)
    requires w.dedicated.Some? && w1 == w.(shared := w1.shared) && Verified(w, w1)
    requires forall t :: 0 <= t < 4 ==>
      PartlyMerged(w.shared[t], Slice(w.dedicated.value[t], w.tenant), w.tenant, w1.shared[t])
    requires w2.tenant == w.tenant && w2.shared == w1.shared && w2.cleanups == w.cleanups
    requires w2.row == w.row || (w2.row.status == Active && !w2.row.hasUrl)
    requires w2.dedicated == w.dedicated || (w2.dedicated.None? && w2.row.status == Active)
    ensures DecommissionEffect(w, w2)
  {
    hide PartlyMerged, CameBack, SameCounts, Slice;
    assert Verified(w, w2);
  }

  class Cluster {
    const tenant: string
    var shared: Db
    var dedicated: Option<Db>
    var row: TenantRow
    var registry: seq<bool>
    var cleanups: nat
    var vipPool: bool
    var cap: Option<string>

    constructor (w: World)
      ensures Snapshot() == w
    {
      tenant, shared, dedicated, row := w.tenant, w.shared, w.dedicated, w.row;
      registry, cleanups, vipPool, cap := w.registry, w.cleanups, w.vipPool, w.cap;
    }

    ghost function Snapshot(): World
      reads this
    {
      World(tenant, shared, dedicated, row, registry, cleanups, vipPool, cap)
    }

    /** Steps 2 to 4: schema, copy, row counts. */
    method FillDatabase(env: MigrationEnv) returns (out: Outcome)
      requires env.Valid(RowsOf(shared, tenant)) && dedicated.Some?
      modifies `dedicated
      ensures dedicated.Some?
      ensures out.Completed? ==> Holds(dedicated.value, tenant, RowsOf(shared, tenant))
      ensures env.Clean() ==> out.Completed?
      ensures out.Completed? ==> env.schema.reply.Acked? && CountsHeard(env.verify)
      ensures !env.schema.reply.Acked? ==> out == Heard(env.schema.reply) && dedicated == old(dedicated)
    {
      if !env.schema.reply.Acked? {
        return Heard(env.schema.reply);
      }
      var db;
      out, db := CopyTables(shared, tenant, env);
      dedicated := Some(db);
      if out.Completed? {
        assert SameCounts(shared, db, tenant);
        out := VerifyRowCounts(shared, db, tenant, env.verify);
      }
    }

    /** The try block.  inTx: a statement between BEGIN and COMMIT failed, so that the connection
        answers no later statement. */
    method TryMigrate(env: MigrationEnv) returns (out: Outcome, dbCreated: bool, inTx: bool)
      requires env.Valid(RowsOf(shared, tenant))
      modifies this
      ensures shared == old(shared) && (cap == None || cap == old(cap))
      ensures old(dedicated).Some? ==> dedicated == old(dedicated) && cleanups == old(cleanups) && !out.Completed?
      ensures dbCreated ==> old(dedicated).None?
      ensures row == (if registry == old(registry)
                      then old(row).(status := if env.gate.Applies() then Migrating else old(row).status)
                      else TenantRow(Active, old(row).tier, true))
      ensures (!env.gate.reply.Acked? ==>
                 && out == Heard(env.gate.reply) && !dbCreated && !inTx
                 && dedicated == old(dedicated) && registry == old(registry) && cleanups == old(cleanups))
      ensures (old(dedicated).None? && dedicated.Some? && !dbCreated ==>
                 env.create.applied && out == Heard(env.create.reply))
      ensures cleanups == old(cleanups) || (cleanups == old(cleanups) + 1 && (out.Threw? ==> env.LostAck()))
      ensures cleanups > old(cleanups) || out.Completed? ==>
                dedicated.Some? && Holds(dedicated.value, tenant, RowsOf(shared, tenant))
      ensures inTx ==> out.Threw? && !(env.register.reply.Acked? && env.update.reply.Acked? && env.commit.reply.Acked?)
      ensures cleanups > old(cleanups) ==> out == Heard(env.enqueue.reply) && dbCreated && !inTx
      ensures out.Completed? ==>
                && cleanups == old(cleanups) + 1 && row == TenantRow(Active, old(row).tier, true)
                && registry == old(registry) + [false] && vipPool && cap == None
      ensures env.Clean() && old(dedicated).None? ==>
                && out == Heard(env.enqueue.reply) && dbCreated && !inTx
                && cleanups == old(cleanups) + (if env.enqueue.Applies() then 1 else 0)
    {
      dbCreated, inTx := false, false;
      if env.gate.Applies() {
        row := row.(status := Migrating);
      }
      if !env.gate.reply.Acked? {
        return Heard(env.gate.reply), dbCreated, inTx;
      }
      if dedicated.Some? {
        return Rejected(env.create.reply), dbCreated, inTx;  // the database exists
      }
      if env.create.Applies() {
        dedicated := Some(EMPTY_DB);
      }
      if !env.create.reply.Acked? {
        return Heard(env.create.reply), dbCreated, inTx;
      }
      dbCreated := true;
      out := FillDatabase(env);
      if !out.Completed? {
        return;
      }
      vipPool := true;
      out, inTx := Register(env);
      if !out.Completed? {
        return;
      }
      cap := None;
      if env.enqueue.Applies() {
        cleanups := cleanups + 1;
      }
      out := Heard(env.enqueue.reply);
    }

    /** Step 6: one transaction; its two writes land together at COMMIT or not at all. */
    method Register(env: MigrationEnv) returns (out: Outcome, inTx: bool)
      modifies `registry, `row
      ensures out == HeardOf(env.begin, env.register, env.update, env.commit)
      ensures inTx <==> out.Threw? && env.begin.reply.Acked?
      ensures registry == old(registry) + (if env.Registers() then [false] else [])
      ensures row == if env.Registers() then TenantRow(Active, old(row).tier, true) else old(row)
    {
      inTx := false;
      if !env.begin.reply.Acked? {
        return Heard(env.begin.reply), inTx;
      }
      var statements := [env.register, env.update];
      for i := 0 to 2
        invariant i >= 1 ==> env.register.reply.Acked?
        invariant i >= 2 ==> env.update.reply.Acked?
      {
        if !statements[i].reply.Acked? {
          out := Heard(statements[i].reply);
          return out, out.Threw?;
        }
      }
      if env.commit.Applies() {
        registry := registry + [false];
        row := TenantRow(Active, row.tier, true);
      }
      out := Heard(env.commit.reply);
      inTx := out.Threw?;
    }

    /** The catch block: restore tier and status, then drop the database if this run created it.
        Errors in either are logged and swallowed. */
    method Rollback(env: MigrationEnv, currentTier: string, dbCreated: bool, inTx: bool) returns (out: Outcome)
      modifies `row, `cap, `dedicated
      ensures inTx ==> out == Threw && row == old(row) && cap == old(cap) && dedicated == old(dedicated)
      ensures (!inTx ==>
                 && row == (if env.restore.Applies() then old(row).(status := Active, tier := currentTier)
                            else old(row))
                 && cap == (if env.restore.reply.Acked? then Some(currentTier) else old(cap))
                 && dedicated == (if dbCreated && !env.restore.reply.Died? && env.drop.Applies() then None
                                  else old(dedicated))
                 && out == if env.restore.reply.Died? || (dbCreated && env.drop.reply.Died?) then Crashed else Threw)
    {
      if inTx {
        return Threw;
      }
      if env.restore.Applies() {
        row := row.(status := Active, tier := currentTier);
      }
      if env.restore.reply.Died? {
        return Crashed;
      }
      if env.restore.reply.Acked? {
        cap := Some(currentTier);
      }
      if dbCreated {
        if env.drop.Applies() {
          dedicated := None;
        }
        if env.drop.reply.Died? {
          return Crashed;
        }
      }
      out := Threw;
    }

    method Migrate(env: MigrationEnv, currentTier: string) returns (out: Outcome)
      requires env.Valid(RowsOf(shared, tenant))
      modifies this
      ensures MigrationEffect(old(Snapshot()), Snapshot(), env.LostAck())
      ensures !env.acquire.reply.Acked? ==> out == Heard(env.acquire.reply) && Snapshot() == old(Snapshot())
      ensures out.Completed? ==>
                && old(dedicated).None? && dedicated.Some?
                && Holds(dedicated.value, tenant, RowsOf(shared, tenant))
                && cleanups == old(cleanups) + 1 && row == TenantRow(Active, old(row).tier, true)
                && registry == old(registry) + [false] && vipPool && cap == None
      ensures (old(dedicated).None? && old(cleanups) == 0 ==>
                 (cleanups > 0 && dedicated.None?
                  <==> cleanups > 0 && env.LostAck() && !env.restore.reply.Died? && env.drop.Applies()))
      ensures out.Threw? && env.RollbackCanUndo() ==>
                && dedicated == old(dedicated)
                && row.status == Active && row.tier == currentTier && cap == Some(currentTier)
      ensures env.Clean() && old(dedicated).None? && env.enqueue.reply.Acked? ==> out.Completed?
      ensures && env.Clean() && old(dedicated).None? && env.LostAck()
              && env.restore.reply.Acked? && env.drop.reply.Acked? ==>
                out.Threw? && dedicated == None && cleanups == old(cleanups) + 1
    {
      if !env.acquire.reply.Acked? {
        return Heard(env.acquire.reply);
      }
      var dbCreated, inTx;
      out, dbCreated, inTx := TryMigrate(env);
      if out.Threw? {
        out := Rollback(env, currentTier, dbCreated, inTx);
      }
    }

    /** On a clean run, whatever the row orders, it completes if and only if the counts agree. */
    method Decommission(env: DecommissionEnv, newTier: string) returns (out: Outcome)
      requires dedicated.Some? ==> env.Valid(RowsOf(dedicated.value, tenant))
      modifies this
      ensures DecommissionEffect(old(Snapshot()), Snapshot())
      ensures dedicated != old(dedicated) || out.Completed? ==>
                && old(dedicated).Some? && dedicated == None
                && row == TenantRow(Active, newTier, false) && !vipPool && cap == Some(newTier)
                && registry == seq(|old(registry)|, _ => true)
      ensures env.Clean() && old(dedicated).Some? ==>
                && (forall t :: 0 <= t < 4 ==>
                      TableBack(Slice(old(dedicated).value[t], tenant), env, t, tenant, old(shared)[t], shared[t]))
                && (out.Completed? <==> SameCounts(old(dedicated).value, shared, tenant))
    {
      ghost var w := Snapshot();
      hide DecommissionEffect, PartlyMerged, SameCounts, Verified, TableBack, Slice;
      if dedicated == None {
        NothingToDecommission(w);
        return Threw;  // nothing to connect to
      }
      out := VerifiedCopy(env);
      if !out.Completed? {
        UnverifiedEffect(w, Snapshot());
        return;
      }
      ghost var w1 := Snapshot();
      out := Finish(env, newTier);
      VerifiedEffect(w, w1, Snapshot());
    }

    /** Steps 1 and 2: copy back and count. */
    method VerifiedCopy(env: DecommissionEnv) returns (out: Outcome)
      requires dedicated.Some? && env.Valid(RowsOf(dedicated.value, tenant))
      modifies `shared
      ensures forall t :: 0 <= t < 4 ==>
                PartlyMerged(old(shared)[t], Slice(dedicated.value[t], tenant), tenant, shared[t])
      ensures out.Completed? ==> Verified(old(Snapshot()), Snapshot()) && CountsHeard(env.verify)
      ensures env.Clean() ==>
                && (forall t :: 0 <= t < 4 ==>
                      TableBack(Slice(dedicated.value[t], tenant), env, t, tenant, old(shared)[t], shared[t]))
                && (out.Completed? <==> SameCounts(dedicated.value, shared, tenant))
    {
      hide PartlyMerged, SameCounts, Verified, TableBack;
      ghost var w := Snapshot();
      out, shared := CopyBack(dedicated.value, shared, tenant, env);
      if out.Completed? {
        out := VerifyRowCounts(dedicated.value, shared, tenant, env.verify);
      }
      if out.Completed? {
        VerifiedBy(w, Snapshot(), env);
      }
    }

    /** Steps 3 to 7: the tenants row first, the irreversible DROP last. */
    method Finish(env: DecommissionEnv, newTier: string) returns (out: Outcome)
      modifies `row, `vipPool, `cap, `registry, `dedicated
      ensures out == HeardOf(env.update, env.poolEnd, env.mark, env.drop)
      ensures row == if env.update.Applies() then TenantRow(Active, newTier, false) else old(row)
      ensures vipPool == (old(vipPool) && !env.update.reply.Acked?)
      ensures cap == if env.update.reply.Acked? && env.poolEnd.reply.Acked? then Some(newTier) else old(cap)
      ensures (registry ==
               if env.update.reply.Acked? && env.poolEnd.reply.Acked? && env.mark.Applies()
               then seq(|old(registry)|, _ => true)
               else old(registry))
      ensures (dedicated ==
               if env.update.reply.Acked? && env.poolEnd.reply.Acked? && env.mark.reply.Acked? && env.drop.Applies()
               then None
               else old(dedicated))
    {
      if env.update.Applies() {
        row := TenantRow(Active, newTier, false);
      }
      if !env.update.reply.Acked? {
        return Heard(env.update.reply);
      }
      vipPool := false;
      if !env.poolEnd.reply.Acked? {
        return Heard(env.poolEnd.reply);
      }
      cap := Some(newTier);
      if env.mark.Applies() {
        registry := seq(|registry|, _ => true);
      }
      if !env.mark.reply.Acked? {
        return Heard(env.mark.reply);
      }
      if env.drop.Applies() {
        dedicated := None;
      }
      out := Heard(env.drop.reply);
    }

    /** The delayed cleanup job, dependents first.  Failed for the last time, it leaves the queue. */
    method Cleanup(io: nat -> Fate, lastAttempt: bool) returns (out: Outcome)
      requires cleanups > 0
      modifies `shared, `cleanups
      ensures CleanupEffect(old(Snapshot()), Snapshot())
      ensures out.Completed? ==> cleanups == old(cleanups) - 1 && Holds(shared, tenant, EMPTY_DB_ROWS)
      ensures forall i, j :: 0 <= i < j < 4 && shared[i] != old(shared)[i] ==>
                shared[j] == Deleted(old(shared)[j], tenant)
      ensures AllAcked(io) ==> out.Completed?
      ensures out == HeardOf(io(3), io(2), io(1), io(0))
      ensures cleanups == old(cleanups) - (if out.Completed? || lastAttempt then 1 else 0)
      ensures forall k :: 0 <= k < 4 ==>
                shared[k] == if (forall j :: k < j < 4 ==> io(j).reply.Acked?) && io(k).Applies()
                             then Deleted(old(shared)[k], tenant) else old(shared)[k]
    {
      ghost var before := shared;
      var t: nat := TABLES;
      out := Completed;
      while t > 0 && out.Completed?
        invariant t <= 4 && cleanups == old(cleanups)
        invariant forall k :: 0 <= k < 4 ==> shared[k] == before[k] || shared[k] == Deleted(before[k], tenant)
        invariant forall k :: 0 <= k < t ==> shared[k] == before[k]
        invariant out.Completed? ==> forall k :: t <= k < 4 ==> shared[k] == Deleted(before[k], tenant)
        invariant forall k :: t < k < 4 ==> shared[k] == Deleted(before[k], tenant)
        invariant AllAcked(io) ==> out.Completed?
        invariant out.Completed? ==> forall k :: t <= k < 4 ==> io(k).reply.Acked?
        invariant (!out.Completed? ==>
                     && t < 4 && out == Heard(io(t).reply) && !io(t).reply.Acked?
                     && (forall k :: t < k < 4 ==> io(k).reply.Acked?)
                     && shared[t] == if io(t).Applies() then Deleted(before[t], tenant) else before[t])
      {
        t := t - 1;
        if io(t).Applies() {
          shared := shared[t := Deleted(shared[t], tenant)];
        }
        out := Heard(io(t).reply);
      }
      if out.Completed? || lastAttempt {
        cleanups := cleanups - 1;
      }
    }
  }

  const EMPTY_DB_ROWS: AllRows := [map[], map[], map[], map[]]

  // ---------------------------------------------------------------- no row is ever lost

  /** What the tenant's rows of a table are while both databases may have some: the shared version first. */
  function Shown(w: World, t: nat): Rows
    requires t < 4 && w.dedicated.Some?
  {
    Slice(w.dedicated.value[t], w.tenant) + Slice(w.shared[t], w.tenant)
  }

  function Overlay(w: World): (r: AllRows)
    requires w.dedicated.Some?
    ensures forall t :: 0 <= t < 4 ==> r[t] == Shown(w, t)
  {
    [Shown(w, 0), Shown(w, 1), Shown(w, 2), Shown(w, 3)]
  }

  /** Every row of every table is in the shared or in the dedicated database, payload and all. */
  ghost predicate NoLoss(w: World, r: AllRows) {
    forall t, id :: 0 <= t < 4 && id in r[t] ==>
      || (id in Slice(w.shared[t], w.tenant) && Slice(w.shared[t], w.tenant)[id] == r[t][id])
      || (w.dedicated.Some? && id in Slice(w.dedicated.value[t], w.tenant)
          && Slice(w.dedicated.value[t], w.tenant)[id] == r[t][id])
  }

  /** Where the rows of the latest gate are kept: in the shared database; in the dedicated one, since
      a migration queued its cleanup; or on their way back, since a decommission was gated. */
  datatype Home = InShared | InDedicated | Returning

  datatype Gate = Gate(rows: AllRows, home: Home)

  ghost predicate Safe(w: World, g: Gate) {
    match g.home
    case InShared => HoldsAll(w.shared, w.tenant, g.rows) && w.cleanups == 0
    case InDedicated => w.dedicated.Some? && Holds(w.dedicated.value, w.tenant, g.rows)
    case Returning =>
      w.cleanups == 0 && w.row.status == Migrating && ShowsAll(w, g.rows)
  }

  ghost predicate ShowsAll(w: World, r: AllRows) {
    && w.dedicated.Some?
    && forall t, id :: 0 <= t < 4 && id in r[t] ==> id in Overlay(w)[t] && Overlay(w)[t][id] == r[t][id]
  }

  /** One event in the life of the tenant.  Its requests write to the shared database whenever it is
      not gated, before a migration and after; its row changes in any way; a migration or a decommission
      starts from any state, wanted or left over in its queue.  Processors run one at a time. */
  datatype Event =
    | TenantWrites
    | RowUpdate
    | Migration(lostAck: bool)
    | Decommissioning
    | CleanupRun
    | OtherTraffic

  /** Once the tenant may write again in the middle of its return, what is kept for it is the dedicated copy. */
  function Ungated(w: World, g: Gate): Gate {
    if g.home == Returning && w.row.status == Active && w.dedicated.Some?
    then Gate(RowsOf(w.dedicated.value, w.tenant), InDedicated)
    else g
  }

  function AfterMigration(w: World, g: Gate, w': World): Gate {
    if g.home != InShared then Ungated(w', g)
    else Gate(RowsOf(w.shared, w.tenant), if w'.cleanups > w.cleanups then InDedicated else InShared)
  }

  /** A decommission that released the tenant or dropped the database brought all rows that show; one
      that did neither is on its way, or leaves the dedicated copy to a tenant that writes or a cleanup
      that is pending. */
  function AfterDecommission(w: World, g: Gate, w': World): Gate {
    if g.home == InShared || w.dedicated.None? then g
    else
      var rows := if g.home == Returning then g.rows else Overlay(w);
      if w'.row != w.row || w'.dedicated.None? then Gate(rows, InShared)
      else if w.row.status == Migrating && w.cleanups == 0 then Gate(rows, Returning)
      else Gate(RowsOf(w.dedicated.value, w.tenant), InDedicated)
  }

  ghost predicate Step(w: World, g: Gate, e: Event, w': World, g': Gate) {
    match e
    case TenantWrites =>
      && w.row.status == Active
      && w' == w.(shared := w'.shared) && OthersKept(w.shared, w'.shared, w.tenant)
      && g' == if g.home == InShared then Gate(RowsOf(w'.shared, w'.tenant), InShared) else g
    case RowUpdate =>
      w' == w.(row := w'.row) && g' == Ungated(w', g)
    case Migration(lostAck) =>
      MigrationEffect(w, w', lostAck) && g' == AfterMigration(w, g, w')
    case Decommissioning =>
      DecommissionEffect(w, w') && g' == AfterDecommission(w, g, w')
    case CleanupRun =>
      g' == g && CleanupEffect(w, w')
    case OtherTraffic =>
      && g' == g && w' == w.(shared := w'.shared)
      && RowsOf(w'.shared, w.tenant) == RowsOf(w.shared, w.tenant)
  }

  // ---------------------------------------------------------------- what a decommission can miss

  function Left(w: World, t: nat): set<Id>
    requires t < 4
  {
    Slice(w.shared[t], w.tenant).Keys
  }

  function Kept(w: World, t: nat): set<Id>
    requires t < 4 && w.dedicated.Some?
  {
    Slice(w.dedicated.value[t], w.tenant).Keys
  }

  /** Ids of dedicated rows that the shared table has given to another tenant. */
  function Taken(w: World, t: nat): (f: set<Id>)
    requires t < 4 && w.dedicated.Some?
    ensures f <= Kept(w, t) && f !! Left(w, t)
  {
    Foreign(w.shared[t], Slice(w.dedicated.value[t], w.tenant), w.tenant)
  }

  /** The count check of every table can pass, under some row orders. */
  predicate CanVerify(w: World)
    requires w.dedicated.Some?
  {
    forall t :: 0 <= t < 4 ==> CountsCanAgree(Left(w, t), Kept(w, t), Taken(w, t))
  }

  /** Some shared row of the tenant is unknown to the dedicated database: written after the migration. */
  predicate HasStranger(w: World)
    requires w.dedicated.Some?
  {
    exists t :: 0 <= t < 4 && !(Left(w, t) <= Kept(w, t))
  }

  /** A count check that passes can hide a missing row. */
  predicate CanLoseUnseen(w: World)
    requires w.dedicated.Some?
  {
    CanVerify(w) && HasStranger(w)
  }

  ghost predicate Returns(w: World, w': World)
    requires w.dedicated.Some?
  {
    forall t :: 0 <= t < 4 ==> Kept(w, t) <= Left(w', t)
  }

  /** The ids after a complete copy, and their number. */
  lemma BackIds(w: World, t: nat, paging: Paging, table: Table)
    requires t < 4 && w.dedicated.Some? && BackUnder(w, t, paging, table)
    ensures Slice(table, w.tenant).Keys == IdsUnder(Left(w, t), Taken(w, t), paging)
    ensures |Slice(table, w.tenant)| == |IdsUnder(Left(w, t), Taken(w, t), paging)|
    ensures |Slice(w.dedicated.value[t], w.tenant)| == |Kept(w, t)|
  {
    hide Merged, LegalPaging, Slice;
    var rows := Slice(w.dedicated.value[t], w.tenant);
    IdsAfterCopy(w.shared[t], rows, Returned(paging, |paging|), w.tenant, table);
    assert |Slice(table, w.tenant)| == |Slice(table, w.tenant).Keys|;
    assert |rows| == |rows.Keys|;
  }

  lemma TableVerified(w: World, w': World, t: nat)
    requires w.dedicated.Some? && w'.tenant == w.tenant && Verified(w, w') && t < 4
    ensures CountsCanAgree(Left(w, t), Kept(w, t), Taken(w, t))
    ensures Kept(w, t) <= Left(w', t) <==> Left(w, t) <= Kept(w, t)
  {
    hide Merged, LegalPaging, Slice, Taken, IdsUnder, CountsCanAgree;
    assert CameBack(w, t, w'.shared[t]);
    var paging :| BackUnder(w, t, paging, w'.shared[t]);
    BackIds(w, t, paging, w'.shared[t]);
    AgreementBounds(Left(w, t), Kept(w, t), Taken(w, t), paging);
    MissedIffStranger(Left(w, t), Kept(w, t), Taken(w, t), paging);
  }

  /** A verified copy has every dedicated row if and only if there was no stranger. */
  lemma VerifiedReturns(w: World, w': World)
    requires w.dedicated.Some? && w'.tenant == w.tenant && Verified(w, w')
    ensures CanVerify(w) && (Returns(w, w') <==> !HasStranger(w))
  {
    forall t | 0 <= t < 4
      ensures CountsCanAgree(Left(w, t), Kept(w, t), Taken(w, t))
      ensures Kept(w, t) <= Left(w', t) <==> Left(w, t) <= Kept(w, t)
    {
      TableVerified(w, w', t);
    }
  }

  // ---------------------------------------------------------------- the invariant

  lemma SafeMeansNoLoss(w: World, g: Gate)
    requires Safe(w, g)
    ensures NoLoss(w, g.rows)
  {
  }

  /** From the shared database it copies; onto a live dedicated one it fails and must leave both as they are. */
  lemma MigrationKeepsSafe(w: World, w': World, g: Gate, lostAck: bool)
    requires Safe(w, g) && MigrationEffect(w, w', lostAck) && (w.dedicated.None? ==> !lostAck)
    ensures Safe(w', AfterMigration(w, g, w'))
    ensures g.home != InShared ==> w.dedicated.Some? && w'.dedicated == w.dedicated && NoLoss(w', Overlay(w))
  {
    if g.home == Returning {
      assert Overlay(w') == Overlay(w);
    }
  }

  lemma CleanupKeepsSafe(w: World, w': World, g: Gate)
    requires Safe(w, g) && CleanupEffect(w, w')
    ensures Safe(w', g)
  {
  }

  /** The copy back changes no row that shows: leftovers keep their shared version. */
  lemma OverlayGrows(w: World, w': World, t: nat, id: Id)
    requires t < 4 && w.dedicated.Some? && w'.tenant == w.tenant
    requires PartlyMerged(w.shared[t], Slice(w.dedicated.value[t], w.tenant), w.tenant, w'.shared[t])
    requires id in Overlay(w)[t]
    ensures id in Left(w', t) ==> Slice(w'.shared[t], w.tenant)[id] == Overlay(w)[t][id]
    ensures id in Left(w, t) ==> id in Left(w', t)
  {
  }

  /** A decommission may start, unless its counts can agree while a row would be missing or a cleanup
      is pending. */
  ghost predicate CanStart(w: World) {
    w.dedicated.Some? && CanVerify(w) ==> !HasStranger(w) && w.cleanups == 0
  }

  lemma DecommissionKeepsSafe(w: World, w': World, g: Gate)
    requires g.home != InShared && Safe(w, g) && DecommissionEffect(w, w') && CanStart(w)
    ensures Safe(w', AfterDecommission(w, g, w'))
    ensures w.dedicated.Some? && NoLoss(w', Overlay(w))
  {
    hide Slice, PartlyMerged, CanStart, Overlay, Verified;
    ShowsOverlay(w);
    ShownStays(w, w', Overlay(w));
    if g.home == Returning {
      ShownStays(w, w', g.rows);
    }
  }

  lemma ShowsOverlay(w: World)
    requires w.dedicated.Some?
    ensures ShowsAll(w, Overlay(w))
  {
  }

  /** Rows that show before a decommission: all are back when it released the tenant or dropped the
      database, and otherwise all still show. */
  lemma ShownStays(w: World, w': World, rows: AllRows)
    requires ShowsAll(w, rows) && DecommissionEffect(w, w') && CanStart(w)
    ensures NoLoss(w', rows)
    ensures if w'.row != w.row || w'.dedicated.None?
            then HoldsAll(w'.shared, w.tenant, rows) && w.cleanups == 0
            else w'.dedicated == w.dedicated && ShowsAll(w', rows)
  {
    hide Slice, PartlyMerged, CanStart, Overlay, Verified, NoLoss, ShowsAll, HoldsAll;
    RowsStay(w, w', rows);
    if w'.row != w.row || w'.dedicated.None? {
      ReturnedHome(w, w', rows);
      HeldIsNoLoss(w', rows);
    } else {
      ReturningStays(w, w', rows);
      ShownIsNoLoss(w', rows);
    }
  }

  lemma HeldIsNoLoss(w: World, rows: AllRows)
    requires HoldsAll(w.shared, w.tenant, rows)
    ensures NoLoss(w, rows)
  {
  }

  lemma ShownIsNoLoss(w: World, rows: AllRows)
    requires ShowsAll(w, rows)
    ensures NoLoss(w, rows)
  {
  }

  lemma RowsStay(w: World, w': World, rows: AllRows)
    requires ShowsAll(w, rows) && DecommissionEffect(w, w')
    ensures forall t, id :: 0 <= t < 4 && id in rows[t] && id in Left(w', t) ==>
      Slice(w'.shared[t], w.tenant)[id] == rows[t][id]
    ensures forall t, id :: 0 <= t < 4 && id in rows[t] && id in Left(w, t) ==> id in Left(w', t)
  {
    hide Slice, PartlyMerged, Overlay;
    forall t, id | 0 <= t < 4 && id in rows[t]
      ensures id in Left(w', t) ==> Slice(w'.shared[t], w.tenant)[id] == rows[t][id]
      ensures id in Left(w, t) ==> id in Left(w', t)
    {
      assert id in Overlay(w)[t];
      OverlayGrows(w, w', t, id);
    }
  }

  lemma ReturnedHome(w: World, w': World, rows: AllRows)
    requires ShowsAll(w, rows) && DecommissionEffect(w, w') && CanStart(w)
    requires w'.row != w.row || w'.dedicated.None?
    requires forall t, id :: 0 <= t < 4 && id in rows[t] && id in Left(w', t) ==>
      Slice(w'.shared[t], w.tenant)[id] == rows[t][id]
    requires forall t, id :: 0 <= t < 4 && id in rows[t] && id in Left(w, t) ==> id in Left(w', t)
    ensures HoldsAll(w'.shared, w.tenant, rows) && w.cleanups == 0
  {
    hide Slice, PartlyMerged, Verified, CanVerify, HasStranger;
    VerifiedReturns(w, w');
    forall t, id | 0 <= t < 4 && id in rows[t] ensures id in Left(w', t) {
      assert id in Overlay(w)[t];
      assert id in Left(w, t) || id in Kept(w, t);
    }
  }

  lemma ReturningStays(w: World, w': World, rows: AllRows)
    requires ShowsAll(w, rows) && w'.tenant == w.tenant && w'.dedicated == w.dedicated
    requires forall t, id :: 0 <= t < 4 && id in rows[t] && id in Left(w', t) ==>
      Slice(w'.shared[t], w.tenant)[id] == rows[t][id]
    requires forall t, id :: 0 <= t < 4 && id in rows[t] && id in Left(w, t) ==> id in Left(w', t)
    ensures ShowsAll(w', rows)
  {
    forall t, id | 0 <= t < 4 && id in rows[t] ensures id in Overlay(w')[t] && Overlay(w')[t][id] == rows[t][id] {
      assert id in Overlay(w)[t];
    }
  }

  /** What a migration or a decommission of the run has to meet for StepKeepsSafe. */
  ghost predicate CanMeet(w: World, g: Gate, e: Event) {
    match e
    case Migration(lostAck) => w.dedicated.None? ==> !lostAck
    case Decommissioning => g.home != InShared ==> CanStart(w)
    case _ => true
  }

  lemma StepKeepsSafe(w: World, g: Gate, e: Event, w': World, g': Gate)
    requires Safe(w, g) && Step(w, g, e, w', g') && CanMeet(w, g, e)
    ensures Safe(w', g')
    ensures MeetsAndKeeps(w, g, e, w')
  {
    match e
    case TenantWrites =>
    case RowUpdate => RowUpdateKeepsSafe(w, w', g);
    case Migration(lostAck) => MigrationKeepsSafe(w, w', g, lostAck);
    case Decommissioning =>
      if g.home == InShared {
        SharedHomeStays(w, w', g.rows);
      } else {
        DecommissionKeepsSafe(w, w', g);
      }
    case CleanupRun => CleanupKeepsSafe(w, w', g);
    case OtherTraffic => SameRowsSafe(w, w', g);
  }

  lemma RowUpdateKeepsSafe(w: World, w': World, g: Gate)
    requires Safe(w, g) && w' == w.(row := w'.row)
    ensures Safe(w', Ungated(w', g))
  {
    if g.home == Returning {
      assert Overlay(w') == Overlay(w);
    }
  }

  lemma SharedHomeStays(w: World, w': World, rows: AllRows)
    requires Safe(w, Gate(rows, InShared)) && DecommissionEffect(w, w')
    ensures Safe(w', Gate(rows, InShared))
  {
  }

  lemma SameRowsSafe(w: World, w': World, g: Gate)
    requires Safe(w, g) && w' == w.(shared := w'.shared)
    requires RowsOf(w'.shared, w.tenant) == RowsOf(w.shared, w.tenant)
    ensures Safe(w', g)
  {
    forall t | 0 <= t < 4 ensures Slice(w'.shared[t], w.tenant) == Slice(w.shared[t], w.tenant) {
      assert RowsOf(w'.shared, w.tenant)[t] == RowsOf(w.shared, w.tenant)[t];
    }
  }

  /** A serial run from an ordinary tenant, gs recording the rows at the latest gate. */
  ghost predicate SerialRun(ws: seq<World>, gs: seq<Gate>, es: seq<Event>) {
    && |ws| == |gs| == |es| + 1
    && ws[0].cleanups == 0 && gs[0] == Gate(RowsOf(ws[0].shared, ws[0].tenant), InShared)
    && forall i :: 0 <= i < |es| ==> Step(ws[i], gs[i], es[i], ws[i + 1], gs[i + 1])
  }

  /** No migration into a new database lost the acknowledgement of its cleanup, and no decommission of it started
      where it can drop the database over a missing row or a pending cleanup. */
  ghost predicate Watched(ws: seq<World>, gs: seq<Gate>, es: seq<Event>)
    requires |ws| == |gs| == |es| + 1
  {
    forall i :: 0 <= i < |es| ==> CanMeet(ws[i], gs[i], es[i])
  }

  lemma {:induction false} SafeThroughout(ws: seq<World>, gs: seq<Gate>, es: seq<Event>, k: nat)
    requires SerialRun(ws, gs, es) && Watched(ws, gs, es) && k < |ws|
    ensures Safe(ws[k], gs[k])
    decreases k
  {
    if k > 0 {
      SafeThroughout(ws, gs, es, k - 1);
      assert Step(ws[k - 1], gs[k - 1], es[k - 1], ws[k], gs[k]) && CanMeet(ws[k - 1], gs[k - 1], es[k - 1]);
      StepKeepsSafe(ws[k - 1], gs[k - 1], es[k - 1], ws[k], gs[k]);
    }
  }

  /** In every serial run, with the tenant writing to the shared database whenever it is not gated, with
      any statement failing anywhere, and with processors starting in any order from any state, every row
      present at the latest gate is in the shared or the dedicated database after every event; and a
      migration or decommission that meets a live dedicated database loses no row of either.  Watched
      is what that takes; DecommissionLossIff, WindowLossIff and MigrationWithLostAck say why. */
  lemma SagasLoseNothing(ws: seq<World>, gs: seq<Gate>, es: seq<Event>)
    requires SerialRun(ws, gs, es) && Watched(ws, gs, es)
    ensures forall i :: 0 <= i < |ws| ==> NoLoss(ws[i], gs[i].rows)
    ensures forall i :: 0 <= i < |es| ==> MeetsAndKeeps(ws[i], gs[i], es[i], ws[i + 1])
  {
    forall i | 0 <= i < |ws| ensures NoLoss(ws[i], gs[i].rows) {
      SafeThroughout(ws, gs, es, i);
      SafeMeansNoLoss(ws[i], gs[i]);
    }
    forall i | 0 <= i < |es| ensures MeetsAndKeeps(ws[i], gs[i], es[i], ws[i + 1]) {
      SafeThroughout(ws, gs, es, i);
      assert CanMeet(ws[i], gs[i], es[i]);
      StepKeepsSafe(ws[i], gs[i], es[i], ws[i + 1], gs[i + 1]);
    }
  }

  ghost predicate MeetsAndKeeps(w: World, g: Gate, e: Event, w': World) {
    g.home != InShared && (e.Migration? || e.Decommissioning?) ==> w.dedicated.Some? && NoLoss(w', Overlay(w))
  }

  /** Only the tenant's rows ever change. */
  lemma ProcessorsKeepOthers(w: World, w': World, lostAck: bool)
    requires MigrationEffect(w, w', lostAck) || DecommissionEffect(w, w') || CleanupEffect(w, w')
    ensures OthersKept(w.shared, w'.shared, w.tenant)
  {
  }

  // ---------------------------------------------------------------- the side conditions are exact

  ghost predicate AgreesAt(w: World, t: nat, paging: Paging)
    requires w.dedicated.Some? && t < 4
  {
    CountsAgree(Left(w, t), Kept(w, t), Taken(w, t), paging)
  }

  /** Row orders for the four tables under which the count check passes... */
  ghost predicate Agreeing(w: World, paging: seq<Paging>)
    requires w.dedicated.Some?
  {
    |paging| == 4 && forall t :: 0 <= t < 4 ==> AgreesAt(w, t, paging[t])
  }

  ghost predicate MissesAt(w: World, t: nat, paging: Paging)
    requires w.dedicated.Some? && t < 4
  {
    !(Kept(w, t) <= IdsUnder(Left(w, t), Taken(w, t), paging))
  }

  /** ...over a missing row. */
  ghost predicate LosingPaging(w: World, paging: seq<Paging>)
    requires w.dedicated.Some?
  {
    Agreeing(w, paging) && exists t :: 0 <= t < 4 && MissesAt(w, t, paging[t])
  }

  lemma AgreementAt(w: World, t: nat)
    requires w.dedicated.Some? && t < 4
    ensures (exists paging :: AgreesAt(w, t, paging)) <==> CountsCanAgree(Left(w, t), Kept(w, t), Taken(w, t))
  {
    hide CountsCanAgree, CountsAgree, Left, Kept, Taken;
    TakenApart(w, t);
    CountsCanAgreeIff(Left(w, t), Kept(w, t), Taken(w, t));
    if paging :| AgreesAt(w, t, paging) {
      assert CountsAgree(Left(w, t), Kept(w, t), Taken(w, t), paging);
    }
    if paging :| CountsAgree(Left(w, t), Kept(w, t), Taken(w, t), paging) {
      assert AgreesAt(w, t, paging);
    }
  }

  lemma TakenApart(w: World, t: nat)
    requires w.dedicated.Some? && t < 4
    ensures Taken(w, t) <= Kept(w, t) && Taken(w, t) !! Left(w, t)
  {
  }

  lemma AgreeingPaging(w: World) returns (paging: seq<Paging>)
    requires w.dedicated.Some? && CanVerify(w)
    ensures Agreeing(w, paging)
  {
    hide AgreesAt, CountsCanAgree, Left, Kept, Taken;
    paging := [];
    for t := 0 to 4
      invariant |paging| == t && forall k :: 0 <= k < t ==> AgreesAt(w, k, paging[k])
    {
      AgreementAt(w, t);
      var next :| AgreesAt(w, t, next);
      paging := paging + [next];
    }
  }

  lemma MissesIffStranger(w: World, t: nat, paging: Paging)
    requires w.dedicated.Some? && t < 4 && AgreesAt(w, t, paging)
    ensures MissesAt(w, t, paging) <==> !(Left(w, t) <= Kept(w, t))
  {
    hide Left, Kept, Taken, CountsAgree, IdsUnder;
    MissedIffStranger(Left(w, t), Kept(w, t), Taken(w, t), paging);
  }

  lemma LosingPagingIff(w: World)
    requires w.dedicated.Some?
    ensures (exists paging :: LosingPaging(w, paging)) <==> CanLoseUnseen(w)
  {
    hide AgreesAt, MissesAt, CountsCanAgree, Left, Kept, Taken;
    if paging :| LosingPaging(w, paging) {
      forall t | 0 <= t < 4 ensures CountsCanAgree(Left(w, t), Kept(w, t), Taken(w, t)) {
        assert AgreesAt(w, t, paging[t]);
        AgreementAt(w, t);
      }
      var t :| 0 <= t < 4 && MissesAt(w, t, paging[t]);
      MissesIffStranger(w, t, paging[t]);
    }
    if CanLoseUnseen(w) {
      var paging := AgreeingPaging(w);
      var t :| 0 <= t < 4 && !(Left(w, t) <= Kept(w, t));
      MissesIffStranger(w, t, paging[t]);
      assert LosingPaging(w, paging);
    }
  }

  function CopiedTable(w: World, t: nat, paging: Paging): (table: Table)
    requires w.dedicated.Some? && t < 4 && LegalPaging(paging, Kept(w, t))
    ensures BackUnder(w, t, paging, table)
  {
    var rows := Slice(w.dedicated.value[t], w.tenant);
    ReturnedFacts(paging, rows.Keys, |paging|);
    Merge(w.shared[t], rows, Returned(paging, |paging|), w.tenant)
  }

  /** The world after a decommission that copied back these tables and dropped the database. */
  function Dropped(w: World, back: Db): World {
    w.(shared := back, dedicated := None, row := TenantRow(Active, w.row.tier, false))
  }

  ghost predicate BackAt(w: World, t: nat, paging: Paging, table: Table)
    requires w.dedicated.Some? && t < 4
  {
    AgreesAt(w, t, paging) && BackUnder(w, t, paging, table)
  }

  lemma CopiedTables(w: World, paging: seq<Paging>) returns (back: Db)
    requires w.dedicated.Some? && Agreeing(w, paging)
    ensures forall t :: 0 <= t < 4 ==> BackAt(w, t, paging[t], back[t])
  {
    hide BackUnder, AgreesAt;
    back := EMPTY_DB;
    for t := 0 to 4
      invariant forall k :: 0 <= k < t ==> BackAt(w, k, paging[k], back[k])
    {
      assert AgreesAt(w, t, paging[t]);
      AgreesIsLegal(w, t, paging[t]);
      back := back[t := CopiedTable(w, t, paging[t])];
    }
  }

  lemma AgreesIsLegal(w: World, t: nat, paging: Paging)
    requires w.dedicated.Some? && t < 4 && AgreesAt(w, t, paging)
    ensures LegalPaging(paging, Kept(w, t))
  {
  }

  lemma TableDrop(w: World, t: nat, paging: Paging, table: Table)
    requires w.dedicated.Some? && t < 4 && BackAt(w, t, paging, table)
    ensures CameBack(w, t, table) && |Slice(w.dedicated.value[t], w.tenant)| == |Slice(table, w.tenant)|
    ensures PartlyMerged(w.shared[t], Slice(w.dedicated.value[t], w.tenant), w.tenant, table)
  {
    hide LegalPaging, Slice, IdsUnder;
    BackIds(w, t, paging, table);
  }

  lemma DropIsEffect(w: World, paging: seq<Paging>) returns (w': World)
    requires w.dedicated.Some? && Agreeing(w, paging)
    ensures DecommissionEffect(w, w') && w'.dedicated.None?
  {
    var back := CopiedTables(w, paging);
    w' := Dropped(w, back);
    hide CameBack, PartlyMerged, Slice, BackAt, Agreeing;
    forall t | 0 <= t < 4
      ensures CameBack(w, t, w'.shared[t])
      ensures |Slice(w.dedicated.value[t], w.tenant)| == |Slice(w'.shared[t], w.tenant)|
      ensures PartlyMerged(w.shared[t], Slice(w.dedicated.value[t], w.tenant), w.tenant, w'.shared[t])
    {
      TableDrop(w, t, paging[t], back[t]);
    }
    assert SameCounts(w.dedicated.value, w'.shared, w.tenant);
    assert Verified(w, w');
  }

  /** After a drop a row that showed is lost exactly when the copy missed a dedicated row. */
  lemma DropLosesIff(w: World, w': World)
    requires w.dedicated.Some? && DecommissionEffect(w, w') && w'.dedicated.None?
    ensures NoLoss(w', Overlay(w)) <==> Returns(w, w')
  {
    if Returns(w, w') {
      forall t, id | 0 <= t < 4 && id in Overlay(w)[t]
        ensures id in Left(w', t) && Slice(w'.shared[t], w.tenant)[id] == Overlay(w)[t][id]
      {
        OverlayGrows(w, w', t, id);
        assert id in Left(w, t) || id in Kept(w, t);
      }
    } else {
      var t :| 0 <= t < 4 && !(Kept(w, t) <= Left(w', t));
      var id :| id in Kept(w, t) && id !in Left(w', t);
      assert id in Overlay(w)[t];
    }
  }

  /** A decommission can drop the database and lose a row if and only if the counts can agree and the
      tenant wrote a row after the migration that the dedicated database does not have. */
  lemma DecommissionLossIff(w: World)
    requires w.dedicated.Some?
    ensures ((exists w' :: DecommissionEffect(w, w') && w'.dedicated.None? && !NoLoss(w', Overlay(w)))
             <==> CanLoseUnseen(w))
  {
    if w' :| DecommissionEffect(w, w') && w'.dedicated.None? && !NoLoss(w', Overlay(w)) {
      DropLosesIff(w, w');
      VerifiedReturns(w, w');
    }
    if CanLoseUnseen(w) {
      var paging := AgreeingPaging(w);
      var w' := DropIsEffect(w, paging);
      DropLosesIff(w, w');
      VerifiedReturns(w, w');
    }
  }

  predicate HasRows(w: World)
    requires w.dedicated.Some?
  {
    exists t :: 0 <= t < 4 && Kept(w, t) != {}
  }

  /** With a cleanup that may follow: a decommission can lose a row if and only if it can drop the
      database at all, and either there is a stranger or the cleanup was still pending over some row. */
  lemma WindowLossIff(w: World)
    requires w.dedicated.Some?
    ensures ((exists w1, w2 :: DropThenCleanup(w, w1, w2) && !NoLoss(w2, Overlay(w)))
             <==> CanVerify(w) && (HasStranger(w) || (w.cleanups > 0 && HasRows(w))))
  {
    hide DropThenCleanup, CanVerify, HasStranger, HasRows, NoLoss;
    if w1, w2 :| DropThenCleanup(w, w1, w2) && !NoLoss(w2, Overlay(w)) {
      WindowLossNeeds(w, w1, w2);
    }
    if CanVerify(w) && (HasStranger(w) || (w.cleanups > 0 && HasRows(w))) {
      var w1, w2 := WindowLoss(w);
    }
  }

  lemma WindowLossNeeds(w: World, w1: World, w2: World)
    requires w.dedicated.Some? && DropThenCleanup(w, w1, w2) && !NoLoss(w2, Overlay(w))
    ensures CanVerify(w) && (HasStranger(w) || (w.cleanups > 0 && HasRows(w)))
  {
    hide Slice, Verified, CleanupEffect, Returns, CanVerify;
    DropIsVerified(w, w1);
    DropLosesIff(w, w1);
    VerifiedReturns(w, w1);
    if w2 != w1 && !HasStranger(w) {
      CleanupWasPending(w1, w2);
      var t, id := LostRow(w2, Overlay(w));
      assert id in Left(w, t) || id in Kept(w, t);
    }
  }

  lemma DropIsVerified(w: World, w': World)
    requires w.dedicated.Some? && DecommissionEffect(w, w') && w'.dedicated.None?
    ensures Verified(w, w') && w'.tenant == w.tenant && w'.cleanups == w.cleanups
  {
  }

  lemma CleanupWasPending(w: World, w': World)
    requires CleanupEffect(w, w')
    ensures w.cleanups > 0
  {
  }

  lemma LostRow(w: World, r: AllRows) returns (t: nat, id: Id)
    requires !NoLoss(w, r)
    ensures t < 4 && id in r[t]
  {
    t, id :| t < 4 && id in r[t];
  }

  lemma WindowLoss(w: World) returns (w1: World, w2: World)
    requires w.dedicated.Some? && CanVerify(w) && (HasStranger(w) || (w.cleanups > 0 && HasRows(w)))
    ensures DropThenCleanup(w, w1, w2) && !NoLoss(w2, Overlay(w))
  {
    hide *;
    var paging := AgreeingPaging(w);
    w1 := DropIsEffect(w, paging);
    DropIsVerified(w, w1);
    if HasStranger(w) {
      w2 := w1;
      DropLosesIff(w, w1);
      VerifiedReturns(w, w1);
    } else {
      w2 := w1.(shared := DeletedAll(w1.shared, w1.tenant), cleanups := w1.cleanups - 1);
      DeletedAllIsCleanup(w1, w2);
      CleanupLosesAll(w, w2);
    }
    ThenCleanup(w, w1, w2);
  }

  lemma DeletedAllIsCleanup(w: World, w': World)
    requires w.cleanups > 0 && w' == w.(shared := DeletedAll(w.shared, w.tenant), cleanups := w.cleanups - 1)
    ensures CleanupEffect(w, w') && forall t :: 0 <= t < 4 ==> Slice(w'.shared[t], w.tenant) == map[]
  {
  }

  lemma ThenCleanup(w: World, w1: World, w2: World)
    requires DecommissionEffect(w, w1) && w1.dedicated.None? && (w2 == w1 || CleanupEffect(w1, w2))
    ensures DropThenCleanup(w, w1, w2)
  {
  }

  lemma CleanupLosesAll(w: World, w2: World)
    requires w.dedicated.Some? && HasRows(w) && w2.dedicated.None? && w2.tenant == w.tenant
    requires forall t :: 0 <= t < 4 ==> Slice(w2.shared[t], w.tenant) == map[]
    ensures !NoLoss(w2, Overlay(w))
  {
    var t :| 0 <= t < 4 && Kept(w, t) != {};
    var id :| id in Kept(w, t);
    assert id in Overlay(w)[t];
  }

  /** A shared row of the tenant that the dedicated database does not have in this version: written
      after the migration. */
  ghost predicate HasNewer(w: World)
    requires w.dedicated.Some?
  {
    exists t, id :: 0 <= t < 4 && IsNewer(w, t, id)
  }

  predicate IsNewer(w: World, t: nat, id: Id)
    requires w.dedicated.Some? && t < 4
  {
    && id in Left(w, t)
    && (id in Kept(w, t) ==> Slice(w.shared[t], w.tenant)[id] != Slice(w.dedicated.value[t], w.tenant)[id])
  }

  /** The cleanup alone, on time: it can lose a row of the latest state if and only if the tenant wrote
      one to the shared database since the migration copied it. */
  lemma CleanupLossIff(w: World)
    requires w.dedicated.Some? && w.cleanups > 0
    ensures (exists w' :: CleanupEffect(w, w') && !NoLoss(w', Overlay(w))) <==> HasNewer(w)
  {
    if w' :| CleanupEffect(w, w') && !NoLoss(w', Overlay(w)) {
      CleanupLosesNewer(w, w');
    }
    if HasNewer(w) {
      var w' := w.(shared := DeletedAll(w.shared, w.tenant), cleanups := w.cleanups - 1);
      DeletedAllIsCleanup(w, w');
      var t, id :| 0 <= t < 4 && IsNewer(w, t, id);
      assert id in Overlay(w)[t] && Overlay(w)[t][id] == Slice(w.shared[t], w.tenant)[id];
    }
  }

  lemma CleanupLosesNewer(w: World, w': World)
    requires w.dedicated.Some? && CleanupEffect(w, w') && !NoLoss(w', Overlay(w))
    ensures HasNewer(w)
  {
    if !HasNewer(w) {
      forall t, id | 0 <= t < 4 && id in Overlay(w)[t]
        ensures id in Kept(w, t) && Slice(w.dedicated.value[t], w.tenant)[id] == Overlay(w)[t][id]
      {
        assert !IsNewer(w, t, id);
      }
    }
  }

  ghost predicate DropThenCleanup(w: World, w1: World, w2: World) {
    && DecommissionEffect(w, w1) && w1.dedicated.None?
    && (w2 == w1 || CleanupEffect(w1, w2))
  }

  function DeletedAll(db: Db, tenant: string): (b: Db)
    ensures forall k :: 0 <= k < 4 ==> b[k] == Deleted(db[k], tenant)
  {
    [Deleted(db[0], tenant), Deleted(db[1], tenant), Deleted(db[2], tenant), Deleted(db[3], tenant)]
  }

  lemma MergeOfSame(t0: Table, rows: Rows, ids: seq<Id>, tenant: string, t1: Table)
    requires Slice(t0, tenant) == rows && Merged(t0, rows, ids, tenant, t1)
    ensures Slice(t1, tenant) == rows
  {
    assert forall id :: id in rows ==> id in t0;
  }

  /** The processors themselves, every statement succeeding: decommissioned inside the 24 hours,
      the tenant ends with no row anywhere. */
  method DecommissionInsideWindow(c: Cluster, env: DecommissionEnv, newTier: string, io: nat -> Fate, ghost r: AllRows)
    requires c.dedicated.Some? && Holds(c.dedicated.value, c.tenant, r) && Holds(c.shared, c.tenant, r)
    requires c.cleanups == 1
    requires env.Valid(r) && env.Clean() && AllAcked(io)
    modifies c
    ensures c.dedicated == None && Holds(c.shared, c.tenant, EMPTY_DB_ROWS)
  {
    assert env.Valid(RowsOf(c.dedicated.value, c.tenant)) by {
      assert RowsOf(c.dedicated.value, c.tenant) == r;
    }
    ghost var shared := c.shared;
    var out := c.Decommission(env, newTier);
    forall t | 0 <= t < 4 ensures Slice(c.shared[t], c.tenant) == r[t] {
      assert TableBack(r[t], env, t, c.tenant, shared[t], c.shared[t]);
      MergeOfSame(shared[t], r[t], Returned(env.paging[t], |env.paging[t]|), c.tenant, c.shared[t]);
    }
    out := c.Cleanup(io, false);
  }

  /** And with the one acknowledgement lost: the cleanup was queued, the processor was told it was
      not, and its rollback dropped the copy that the cleanup relies on. */
  method MigrationWithLostAck(c: Cluster, env: MigrationEnv, currentTier: string, io: nat -> Fate)
    requires c.dedicated.None? && c.cleanups == 0
    requires env.Valid(RowsOf(c.shared, c.tenant)) && env.Clean() && env.LostAck()
    requires env.restore.reply.Acked? && env.drop.reply.Acked? && AllAcked(io)
    modifies c
    ensures c.dedicated == None && Holds(c.shared, c.tenant, EMPTY_DB_ROWS)
  {
    var out := c.Migrate(env, currentTier);
    out := c.Cleanup(io, false);
  }

  /** The processor itself, every statement succeeding: under row orders that hide it, it drops the
      only copy of a row. */
  method DecommissionOverStranger(c: Cluster, env: DecommissionEnv, newTier: string)
    requires c.dedicated.Some? && env.Valid(RowsOf(c.dedicated.value, c.tenant)) && env.Clean()
    requires LosingPaging(c.Snapshot(), env.paging)
    modifies c
    ensures c.dedicated == None && !NoLoss(c.Snapshot(), old(Overlay(c.Snapshot())))
  {
    ghost var w := c.Snapshot();
    var out := c.Decommission(env, newTier);
    CleanCounts(w, c.Snapshot(), env);
    DropLosesIff(w, c.Snapshot());
  }

  lemma CleanCounts(w: World, w': World, env: DecommissionEnv)
    requires w.dedicated.Some? && w'.tenant == w.tenant && LosingPaging(w, env.paging)
    requires forall t :: 0 <= t < 4 ==>
      TableBack(Slice(w.dedicated.value[t], w.tenant), env, t, w.tenant, w.shared[t], w'.shared[t])
    ensures SameCounts(w.dedicated.value, w'.shared, w.tenant) && !Returns(w, w')
  {
    hide TableBack, Slice, AgreesAt, MissesAt, Left, Kept, IdsUnder, Taken;
    forall t | 0 <= t < 4
      ensures Left(w', t) == IdsUnder(Left(w, t), Taken(w, t), env.paging[t])
      ensures |Slice(w.dedicated.value[t], w.tenant)| == |Slice(w'.shared[t], w.tenant)|
    {
      assert AgreesAt(w, t, env.paging[t]);
      CleanTable(w, w', env, t);
    }
    var t :| 0 <= t < 4 && MissesAt(w, t, env.paging[t]);
    MissesMeans(w, t, env.paging[t]);
  }

  lemma MissesMeans(w: World, t: nat, paging: Paging)
    requires w.dedicated.Some? && t < 4 && MissesAt(w, t, paging)
    ensures !(Kept(w, t) <= IdsUnder(Left(w, t), Taken(w, t), paging))
  {
  }

  lemma CleanTable(w: World, w': World, env: DecommissionEnv, t: nat)
    requires w.dedicated.Some? && w'.tenant == w.tenant && t < 4 && t < |env.paging| && AgreesAt(w, t, env.paging[t])
    requires TableBack(Slice(w.dedicated.value[t], w.tenant), env, t, w.tenant, w.shared[t], w'.shared[t])
    ensures Left(w', t) == IdsUnder(Left(w, t), Taken(w, t), env.paging[t])
    ensures |Slice(w.dedicated.value[t], w.tenant)| == |Slice(w'.shared[t], w.tenant)|
  {
    hide LegalPaging, Slice, IdsUnder, Merged;
    assert BackUnder(w, t, env.paging[t], w'.shared[t]);
    BackIds(w, t, env.paging[t], w'.shared[t]);
  }
}
