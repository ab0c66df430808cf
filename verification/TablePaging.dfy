/** Copying one plugin table between the shared and a dedicated database, 500 rows a query, when
    no query promises the row order of the one before it. */
module TablePaging {

  const BATCH_SIZE := 500

  /** Primary keys: the 128 bits of a UUID as a number. */
  type Id = nat

  datatype Row = Row(tenant: string, payload: string)

  /** The rows of one tenant: id to payload. */
  type Rows = map<Id, string>

  /** Rows by primary key. */
  type Table = map<Id, Row>

  /** WHERE tenant_id = tenant. */
  function Slice(t: Table, tenant: string): (s: Rows)
    ensures forall id :: id in s <==> id in t && t[id].tenant == tenant
    ensures forall id :: id in s ==> s[id] == t[id].payload
  {
    map id | id in t && t[id].tenant == tenant :: t[id].payload
  }

  // ---------------------------------------------------------------- faults

  /** What became of one statement: whether it took effect, and what the caller heard.  An
      acknowledged statement took effect; a failed one may or may not have. */
  datatype Reply = Acked | Errored | Died

  datatype Fate = Fate(applied: bool, reply: Reply) {
    predicate Applies() {
      reply.Acked? || applied
    }
  }

  ghost predicate AllAcked(io: nat -> Fate) {
    forall k: nat :: io(k).reply.Acked?
  }

  /** How a processor, or a part of it, ended: normally, by an exception, or with the process. */
  datatype Outcome = Completed | Threw | Crashed

  function Heard(reply: Reply): Outcome {
    match reply case Acked => Completed case Errored => Threw case Died => Crashed
  }

  /** How four statements end that are sent one after the other until one is not acknowledged. */
  function HeardOf(a: Fate, b: Fate, c: Fate, d: Fate): Outcome {
    if !a.reply.Acked? then Heard(a.reply)
    else if !b.reply.Acked? then Heard(b.reply)
    else if !c.reply.Acked? then Heard(c.reply)
    else Heard(d.reply)
  }

  /** The outcome of a statement the database rejects. */
  function Rejected(reply: Reply): Outcome {
    if reply.Died? then Crashed else Threw
  }

  // ---------------------------------------------------------------- row orders and pages

  function Min(a: int, b: int): int { if a <= b then a else b }

  /** A query may return the selected rows in any order; paging[k] is the order of the k-th. */
  type Paging = seq<seq<Id>>

  predicate Distinct(s: seq<Id>) {
    forall i, j :: 0 <= i < j < |s| ==> s[i] != s[j]
  }

  ghost predicate IsOrder(order: seq<Id>, keys: set<Id>) {
    multiset(order) == multiset(keys)
  }

  ghost predicate LegalPaging(paging: Paging, keys: set<Id>) {
    && |paging| == QueriesFor(|keys|)
    && forall k {:trigger IsOrder(paging[k], keys)} :: 0 <= k < |paging| ==> IsOrder(paging[k], keys)
  }

  ghost predicate FixedOrder(paging: Paging) {
    forall k :: 0 <= k < |paging| ==> paging[k] == paging[0]
  }

  function Offset(k: nat): nat { 500 * k }

  /** How many queries a complete copy of n rows issues. */
  function QueriesFor(n: nat): nat { n / 500 + 1 }

  /** LIMIT 500 OFFSET offset. */
  function Page(order: seq<Id>, offset: nat): seq<Id> {
    order[Min(offset, |order|)..Min(offset + BATCH_SIZE, |order|)]
  }

  /** What the first k queries returned, one page after the other. */
  function Returned(paging: Paging, k: nat): seq<Id>
    requires k <= |paging|
  {
    if k == 0 then []
    else Returned(paging, k - 1) + Page(paging[k - 1], Offset(k - 1))
  }

  lemma OrderFacts(order: seq<Id>, keys: set<Id>)
    requires IsOrder(order, keys)
    ensures |order| == |keys|
    ensures forall id :: id in order <==> id in keys
    ensures Distinct(order)
  {
    assert |multiset(order)| == |order|;
    forall id ensures id in order <==> id in keys {
      assert id in multiset(order) <==> id in multiset(keys);
    }
    forall i, j | 0 <= i < j < |order| ensures order[i] != order[j] {
      var x := order[j];
      assert order == order[..j] + order[j..];
      assert multiset(order)[x] == multiset(order[..j])[x] + multiset(order[j..])[x];
      assert order[j..][0] == x;
      assert order[i] in order[..j] && order[..j][i] == order[i];
      assert multiset(order)[x] <= 1;
    }
  }

  lemma {:induction false} DistinctFits(s: seq<Id>, keys: set<Id>)
    requires Distinct(s) && forall id :: id in s ==> id in keys
    ensures |s| <= |keys|
    ensures |s| == |keys| ==> forall id :: id in keys ==> id in s
    decreases |s|
  {
    if s == [] {
      assert |keys| == 0 ==> keys == {};
    } else {
      var last, rest := s[|s| - 1], s[..|s| - 1];
      assert forall id :: id in s <==> id in rest || id == last;
      DistinctFits(rest, keys - {last});
    }
  }

  lemma PageFacts(order: seq<Id>, keys: set<Id>, offset: nat)
    requires IsOrder(order, keys) && offset <= |keys|
    ensures |Page(order, offset)| == Min(BATCH_SIZE, |keys| - offset)
    ensures Distinct(Page(order, offset))
    ensures forall id :: id in Page(order, offset) ==> id in keys
  {
    OrderFacts(order, keys);
    var page := Page(order, offset);
    assert forall i :: 0 <= i < |page| ==> page[i] == order[offset + i];
  }

  lemma {:induction false} ReturnedFacts(paging: Paging, keys: set<Id>, k: nat)
    requires LegalPaging(paging, keys) && k <= |paging|
    ensures |Returned(paging, k)| == Min(Offset(k), |keys|)
    ensures forall id :: id in Returned(paging, k) ==> id in keys
    decreases k
  {
    if k > 0 {
      ReturnedFacts(paging, keys, k - 1);
      assert IsOrder(paging[k - 1], keys);
      PageFacts(paging[k - 1], keys, Offset(k - 1));
    }
  }

  lemma {:induction false} PageIsReturned(paging: Paging, q: nat, k: nat)
    requires q < k <= |paging|
    ensures forall id :: id in Page(paging[q], Offset(q)) ==> id in Returned(paging, k)
    decreases k
  {
    if q < k - 1 {
      PageIsReturned(paging, q, k - 1);
    }
  }

  /** Under one fixed order the pages are that order, cut up. */
  lemma {:induction false} FixedReturned(paging: Paging, keys: set<Id>, k: nat)
    requires LegalPaging(paging, keys) && FixedOrder(paging) && k <= |paging|
    ensures Returned(paging, k) == paging[0][..Min(Offset(k), |paging[0]|)]
    decreases k
  {
    if k > 0 {
      FixedReturned(paging, keys, k - 1);
    }
  }

  lemma FixedOrderReturnsAll(paging: Paging, keys: set<Id>)
    requires LegalPaging(paging, keys) && FixedOrder(paging)
    ensures Distinct(Returned(paging, |paging|))
    ensures forall id :: id in Returned(paging, |paging|) <==> id in keys
  {
    assert IsOrder(paging[0], keys);
    OrderFacts(paging[0], keys);
    FixedReturned(paging, keys, |paging|);
    assert paging[0][..|keys|] == paging[0];
  }

  // ---------------------------------------------------------------- merging rows into a table

  /** dest is dest0 with the rows of the given ids put in, except where dest0 already had a row of
      that id, of whichever tenant. */
  ghost predicate Merged(dest0: Table, rows: Rows, ids: seq<Id>, tenant: string, dest: Table) {
    && (forall id :: id in ids ==> id in rows)
    && (forall id :: id in dest <==> id in dest0 || id in ids)
    && (forall id :: id in dest0 ==> dest[id] == dest0[id])
    && (forall id :: id in ids && id !in dest0 ==> dest[id] == Row(tenant, rows[id]))
  }

  /** dest is dest0 with some of the rows put in. */
  ghost predicate PartlyMerged(dest0: Table, rows: Rows, tenant: string, dest: Table) {
    && (forall id :: id in dest0 ==> id in dest && dest[id] == dest0[id])
    && (forall id :: id in dest && id !in dest0 ==> id in rows && dest[id] == Row(tenant, rows[id]))
  }

  /** INSERT ... ON CONFLICT DO NOTHING. */
  function InsertRow(dest: Table, id: Id, row: Row): Table {
    if id in dest then dest else dest[id := row]
  }

  function Merge(dest: Table, rows: Rows, ids: seq<Id>, tenant: string): (t: Table)
    requires forall id :: id in ids ==> id in rows
    ensures Merged(dest, rows, ids, tenant, t)
  {
    if ids == [] then dest
    else
      var n := |ids| - 1;
      assert ids == ids[..n] + [ids[n]];
      InsertRow(Merge(dest, rows, ids[..n], tenant), ids[n], Row(tenant, rows[ids[n]]))
  }

  lemma MergedTwice(dest0: Table, rows: Rows, a: seq<Id>, dest1: Table, b: seq<Id>, dest: Table, tenant: string)
    requires Merged(dest0, rows, a, tenant, dest1) && Merged(dest1, rows, b, tenant, dest)
    ensures Merged(dest0, rows, a + b, tenant, dest)
  {
  }

  /** The first k pages of a copy are done. */
  ghost predicate CopiedUpTo(paging: Paging, k: nat, rows: Rows, dest0: Table, dest: Table, tenant: string) {
    k <= |paging| && Merged(dest0, rows, Returned(paging, k), tenant, dest)
  }

  lemma NextPage(paging: Paging, k: nat, rows: Rows)
    requires LegalPaging(paging, rows.Keys) && Offset(k) <= |rows|
    ensures k < |paging| == QueriesFor(|rows|)
    ensures |Page(paging[k], Offset(k))| == Min(BATCH_SIZE, |rows| - Offset(k))
    ensures Distinct(Page(paging[k], Offset(k)))
    ensures forall id :: id in Page(paging[k], Offset(k)) ==> id in rows
  {
    assert |rows.Keys| == |rows|;
    assert IsOrder(paging[k], rows.Keys);
    PageFacts(paging[k], rows.Keys, Offset(k));
  }

  // ---------------------------------------------------------------- migration: shared to dedicated

  /** One multi-row INSERT; the statement fails as a whole on a duplicate key. */
  method InsertPage(rows: Rows, tenant: string, dest0: Table, page: seq<Id>, insert: Fate)
    returns (out: Outcome, dest: Table)
    requires forall id :: id in page ==> id in rows
    ensures out.Completed? ==> (forall id :: id in page ==> id !in dest0)
    ensures Merged(dest0, rows, page, tenant, dest) || (!out.Completed? && dest == dest0)
    ensures out.Completed? <==> insert.reply.Acked? && forall id :: id in page ==> id !in dest0
    ensures out.Crashed? <==> insert.reply.Died?
    ensures (dest ==
             if insert.Applies() && (forall id :: id in page ==> id !in dest0) then Merge(dest0, rows, page, tenant)
             else dest0)
  {
    if exists id :: id in page && id in dest0 {
      return Rejected(insert.reply), dest0;
    }
    dest := if insert.Applies() then Merge(dest0, rows, page, tenant) else dest0;
    out := Heard(insert.reply);
  }

  /** Nothing returned so far came twice or was in the destination before. */
  ghost predicate Apart(paging: Paging, k: nat, dest0: Table)
    requires k <= |paging|
  {
    && Distinct(Returned(paging, k))
    && forall id :: id in Returned(paging, k) ==> id !in dest0
  }

  lemma ApartNext(paging: Paging, k: nat, rows: Rows, dest0: Table, dest1: Table, tenant: string)
    requires LegalPaging(paging, rows.Keys) && Offset(k) <= |rows|
    requires CopiedUpTo(paging, k, rows, dest0, dest1, tenant) && Apart(paging, k, dest0)
    requires k < |paging| && forall id :: id in Page(paging[k], Offset(k)) ==> id !in dest1
    ensures Apart(paging, k + 1, dest0)
  {
    NextPage(paging, k, rows);
    var before, page := Returned(paging, k), Page(paging[k], Offset(k));
    assert Returned(paging, k + 1) == before + page;
    forall i, j | 0 <= i < j < |before + page| ensures (before + page)[i] != (before + page)[j] {
      if i < |before| <= j {
        assert before[i] in before && page[j - |before|] in page;
      }
    }
  }

  lemma {:induction false} ReturnedGrows(paging: Paging, k: nat, n: nat)
    requires k <= n <= |paging|
    ensures Returned(paging, k) <= Returned(paging, n)
    decreases n
  {
    if k < n {
      ReturnedGrows(paging, k, n - 1);
    }
  }

  /** If the whole paging repeats nothing, the next page meets none of its ids in the copy. */
  lemma ApartMeansFresh(paging: Paging, k: nat, rows: Rows, dest0: Table, dest1: Table, tenant: string)
    requires LegalPaging(paging, rows.Keys) && Offset(k) <= |rows| && Apart(paging, |paging|, dest0)
    requires CopiedUpTo(paging, k, rows, dest0, dest1, tenant)
    ensures k < |paging| && forall id :: id in Page(paging[k], Offset(k)) ==> id !in dest1
  {
    NextPage(paging, k, rows);
    ReturnedGrows(paging, k + 1, |paging|);
    var before, page, all := Returned(paging, k), Page(paging[k], Offset(k)), Returned(paging, |paging|);
    assert Returned(paging, k + 1) == before + page;
    forall id | id in page ensures id !in before && id in all {
      var j :| 0 <= j < |page| && page[j] == id;
      assert (before + page)[|before| + j] == id == all[|before| + j];
      assert forall i :: 0 <= i < |before| ==> before[i] == (before + page)[i] == all[i];
    }
  }

  lemma FixedOrderIsApart(paging: Paging, keys: set<Id>, dest0: Table)
    requires LegalPaging(paging, keys) && FixedOrder(paging)
    requires forall id :: id in keys ==> id !in dest0
    ensures Apart(paging, |paging|, dest0)
  {
    FixedOrderReturnsAll(paging, keys);
  }

  /** Pages that repeat nothing return everything. */
  lemma ApartReturnsAll(paging: Paging, keys: set<Id>, dest0: Table)
    requires LegalPaging(paging, keys) && Apart(paging, |paging|, dest0)
    ensures forall id :: id in Returned(paging, |paging|) <==> id in keys
  {
    ReturnedFacts(paging, keys, |paging|);
    DistinctFits(Returned(paging, |paging|), keys);
  }

  /** Query k and its insert; more says whether another query is due. */
  method MigratePage(rows: Rows, tenant: string, ghost dest0: Table, dest1: Table, paging: Paging, k: nat,
                     select: Fate, insert: Fate)
    returns (out: Outcome, dest: Table, more: bool)
    requires LegalPaging(paging, rows.Keys) && Offset(k) <= |rows|
    requires CopiedUpTo(paging, k, rows, dest0, dest1, tenant) && Apart(paging, k, dest0)
    ensures PartlyMerged(dest0, rows, tenant, dest)
    ensures out.Completed? ==> CopiedUpTo(paging, k + 1, rows, dest0, dest, tenant) && Apart(paging, k + 1, dest0)
    ensures out.Completed? ==> if more then Offset(k + 1) <= |rows| else k + 1 == |paging|
    ensures out.Completed? ==> select.reply.Acked? && (k * 500 < |rows| ==> insert.reply.Acked?)
    ensures select.reply.Acked? && k * 500 == |rows| ==> out.Completed? && dest == dest1
    ensures out.Crashed? ==> select.reply.Died? || insert.reply.Died?
    ensures (select.reply.Acked? && insert.reply.Acked? && k < |paging|
             && forall id :: id in Page(paging[k], Offset(k)) ==> id !in dest1) ==> out.Completed?
  {
    hide Merged, PartlyMerged, Apart, LegalPaging, CopiedUpTo, Merge, Page;
    NextPage(paging, k, rows);
    CopiedIsPart(paging, k, rows, dest0, dest1, tenant);
    more, dest := false, dest1;
    if !select.reply.Acked? {
      return Heard(select.reply), dest, more;
    }
    var page := Page(paging[k], Offset(k));
    if page == [] {
      MergedNothing(dest1, rows, tenant);
      CopiedNext(paging, k, rows, dest0, dest1, dest, tenant);
      ApartNext(paging, k, rows, dest0, dest1, tenant);
      return Completed, dest, more;
    }
    out, dest := InsertPage(rows, tenant, dest1, page, insert);
    if Merged(dest1, rows, page, tenant, dest) {
      CopiedNext(paging, k, rows, dest0, dest1, dest, tenant);
      CopiedIsPart(paging, k + 1, rows, dest0, dest, tenant);
    }
    if out.Completed? {
      ApartNext(paging, k, rows, dest0, dest1, tenant);
    }
    more := |page| == BATCH_SIZE;
  }

  lemma CopiedIsPart(paging: Paging, k: nat, rows: Rows, dest0: Table, dest1: Table, tenant: string)
    requires CopiedUpTo(paging, k, rows, dest0, dest1, tenant)
    ensures PartlyMerged(dest0, rows, tenant, dest1)
  {
  }

  lemma MergedNothing(dest: Table, rows: Rows, tenant: string)
    ensures Merged(dest, rows, [], tenant, dest)
  {
  }

  lemma CopiedNext(paging: Paging, k: nat, rows: Rows, dest0: Table, dest1: Table, dest: Table, tenant: string)
    requires CopiedUpTo(paging, k, rows, dest0, dest1, tenant) && k < |paging|
    requires Merged(dest1, rows, Page(paging[k], Offset(k)), tenant, dest)
    ensures CopiedUpTo(paging, k + 1, rows, dest0, dest, tenant)
  {
    MergedTwice(dest0, rows, Returned(paging, k), dest1, Page(paging[k], Offset(k)), dest, tenant);
  }

  method MigrateTable(rows: Rows, tenant: string, dest0: Table, paging: Paging,
                      selectIo: nat -> Fate, insertIo: nat -> Fate)
    returns (out: Outcome, dest: Table, queries: nat)
    requires LegalPaging(paging, rows.Keys)
    ensures PartlyMerged(dest0, rows, tenant, dest)
    ensures out.Completed? ==> (forall id :: id in rows ==> id !in dest0)
    ensures out.Completed? ==> (forall id :: id in dest <==> id in dest0 || id in rows)
    ensures out.Completed? ==> queries == |rows| / 500 + 1
    ensures AllAcked(selectIo) && AllAcked(insertIo) ==> (out.Completed? <==> Apart(paging, |paging|, dest0))
    ensures (out.Completed? ==>
               forall q :: 0 <= q < queries ==>
                 selectIo(q).reply.Acked? && (q * 500 < |rows| ==> insertIo(q).reply.Acked?))
    ensures out.Crashed? ==> 0 < queries && (selectIo(queries - 1).reply.Died? || insertIo(queries - 1).reply.Died?)
  {
    hide Merged, PartlyMerged, Apart, LegalPaging, CopiedUpTo;
    dest, queries := dest0, 0;
    NoPageYet(paging, rows, dest0, tenant);
    while true
      invariant Offset(queries) <= |rows| && queries <= |paging|
      invariant CopiedUpTo(paging, queries, rows, dest0, dest, tenant) && Apart(paging, queries, dest0)
      invariant forall q :: 0 <= q < queries ==>
                  selectIo(q).reply.Acked? && (q * 500 < |rows| ==> insertIo(q).reply.Acked?)
      decreases |rows| - Offset(queries)
    {
      NextPage(paging, queries, rows);
      if Apart(paging, |paging|, dest0) {
        ApartMeansFresh(paging, queries, rows, dest0, dest, tenant);
      }
      var more;
      out, dest, more := MigratePage(rows, tenant, dest0, dest, paging, queries, selectIo(queries), insertIo(queries));
      queries := queries + 1;
      if !out.Completed? {
        return;
      }
      if !more {
        break;
      }
    }
    AllCopied(paging, rows, dest0, dest, tenant);
  }

  lemma NoPageYet(paging: Paging, rows: Rows, dest0: Table, tenant: string)
    ensures CopiedUpTo(paging, 0, rows, dest0, dest0, tenant) && Apart(paging, 0, dest0)
  {
  }

  lemma AllCopied(paging: Paging, rows: Rows, dest0: Table, dest: Table, tenant: string)
    requires LegalPaging(paging, rows.Keys) && Apart(paging, |paging|, dest0)
    requires CopiedUpTo(paging, |paging|, rows, dest0, dest, tenant)
    ensures forall id :: id in rows ==> id !in dest0
    ensures forall id :: id in dest <==> id in dest0 || id in rows
    ensures PartlyMerged(dest0, rows, tenant, dest) && |paging| == QueriesFor(|rows|)
  {
    ApartReturnsAll(paging, rows.Keys, dest0);
    assert |rows.Keys| == |rows|;
  }

  // ---------------------------------------------------------------- decommission: dedicated to shared

  /** The rows of one page, one INSERT each; the n-th row of the whole copy meets fate io(n). */
  method InsertRows(rows: Rows, tenant: string, dest0: Table, page: seq<Id>, offset: nat, io: nat -> Fate)
    returns (out: Outcome, dest: Table)
    requires forall id :: id in page ==> id in rows
    ensures PartlyMerged(dest0, rows, tenant, dest)
    ensures out.Completed? ==> Merged(dest0, rows, page, tenant, dest)
    ensures AllAcked(io) ==> out.Completed?
    ensures out.Completed? ==> forall n :: offset <= n < offset + |page| ==> io(n).reply.Acked?
    ensures !out.Completed? ==> exists n :: EndsAt(rows, tenant, dest0, page, offset, io, n, out, dest)
  {
    dest := dest0;
    for i := 0 to |page|
      invariant Merged(dest0, rows, page[..i], tenant, dest)
      invariant forall n :: offset <= n < offset + i ==> io(n).reply.Acked?
    {
      var insert := io(offset + i);
      assert page[..i + 1] == page[..i] + [page[i]];
      if insert.Applies() {
        dest := InsertRow(dest, page[i], Row(tenant, rows[page[i]]));
      }
      if !insert.reply.Acked? {
        assert EndsAt(rows, tenant, dest0, page, offset, io, i, Heard(insert.reply), dest);
        return Heard(insert.reply), dest;
      }
    }
    assert page[..|page|] == page;
    out := Completed;
  }

  /** The insert of row n of the page was the first not acknowledged; the rows before it are in, and it is
      if it took effect. */
  ghost predicate EndsAt(rows: Rows, tenant: string, dest0: Table, page: seq<Id>, offset: nat, io: nat -> Fate,
                         n: nat, out: Outcome, dest: Table)
  {
    && n < |page| && (forall k :: offset <= k < offset + n ==> io(k).reply.Acked?)
    && !io(offset + n).reply.Acked? && out == Heard(io(offset + n).reply)
    && Merged(dest0, rows, page[..if io(offset + n).applied then n + 1 else n], tenant, dest)
  }

  /** Query k and the inserts of its rows. */
  method DecommissionPage(rows: Rows, tenant: string, ghost dest0: Table, dest1: Table, paging: Paging, k: nat,
                          select: Fate, insertIo: nat -> Fate)
    returns (out: Outcome, dest: Table, more: bool)
    requires LegalPaging(paging, rows.Keys) && Offset(k) <= |rows|
    requires CopiedUpTo(paging, k, rows, dest0, dest1, tenant)
    ensures PartlyMerged(dest0, rows, tenant, dest)
    ensures out.Completed? ==> CopiedUpTo(paging, k + 1, rows, dest0, dest, tenant)
    ensures out.Completed? ==> if more then Offset(k + 1) <= |rows| else k + 1 == |paging|
    ensures select.reply.Acked? && AllAcked(insertIo) ==> out.Completed?
    ensures out.Completed? ==> select.reply.Acked?
    ensures (out.Completed? ==>
               forall n :: Offset(k) <= n < |rows| && n < Offset(k + 1) ==> insertIo(n).reply.Acked?)
  {
    NextPage(paging, k, rows);
    more, dest := false, dest1;
    if !select.reply.Acked? {
      return Heard(select.reply), dest, more;
    }
    var page := Page(paging[k], Offset(k));
    out, dest := InsertRows(rows, tenant, dest1, page, Offset(k), insertIo);
    if out.Completed? {
      MergedTwice(dest0, rows, Returned(paging, k), dest1, page, dest, tenant);
    }
    more := |page| == BATCH_SIZE;
  }

  method DecommissionTable(rows: Rows, tenant: string, dest0: Table, paging: Paging,
                           selectIo: nat -> Fate, insertIo: nat -> Fate)
    returns (out: Outcome, dest: Table)
    requires LegalPaging(paging, rows.Keys)
    ensures PartlyMerged(dest0, rows, tenant, dest)
    ensures out.Completed? ==> Merged(dest0, rows, Returned(paging, |paging|), tenant, dest)
    ensures AllAcked(selectIo) && AllAcked(insertIo) ==> out.Completed?
    ensures out.Completed? ==> forall q :: 0 <= q <= |rows| / 500 ==> selectIo(q).reply.Acked?
    ensures out.Completed? ==> forall n :: 0 <= n < |rows| ==> insertIo(n).reply.Acked?
  {
    hide Merged, PartlyMerged, LegalPaging, Returned;
    var query: nat := 0;
    dest := dest0;
    NothingCopied(rows, dest0, paging, tenant);
    while true
      invariant Offset(query) <= |rows|
      invariant CopiedUpTo(paging, query, rows, dest0, dest, tenant)
      invariant forall q :: 0 <= q < query ==> selectIo(q).reply.Acked?
      invariant forall n :: 0 <= n < Offset(query) ==> insertIo(n).reply.Acked?
      decreases |rows| - Offset(query)
    {
      NextPage(paging, query, rows);
      var more;
      out, dest, more := DecommissionPage(rows, tenant, dest0, dest, paging, query, selectIo(query), insertIo);
      query := query + 1;
      if !out.Completed? {
        return;
      }
      if !more {
        break;
      }
    }
  }

  lemma NothingCopied(rows: Rows, dest0: Table, paging: Paging, tenant: string)
    ensures CopiedUpTo(paging, 0, rows, dest0, dest0, tenant)
  {
  }

  /** No row with one of these ids belongs to another tenant. */
  ghost predicate NoForeign(dest: Table, rows: Rows, tenant: string) {
    forall id :: id in rows && id in dest ==> dest[id].tenant == tenant
  }

  lemma SubsetOfSameSize(a: set<Id>, b: set<Id>)
    requires a <= b && |a| >= |b|
    ensures a == b
  {
    assert |b - a| == |b| - |a|;
  }

  /** Nothing of the tenant left in the shared table: passing the count check makes the shared
      rows equal to the dedicated ones, whatever orders the queries came in. */
  lemma EmptyStartVerifies(dest0: Table, rows: Rows, tenant: string, dest: Table)
    requires PartlyMerged(dest0, rows, tenant, dest) && Slice(dest0, tenant) == map[]
    requires |Slice(dest, tenant)| == |rows|
    ensures Slice(dest, tenant) == rows
  {
    var s := Slice(dest, tenant);
    forall id | id in s ensures id in rows && s[id] == rows[id] {
      assert id !in Slice(dest0, tenant);
    }
    SubsetOfSameSize(s.Keys, rows.Keys);
  }

  /** Leftovers and consistent paging: passing the count check makes the id sets equal, and a
      leftover keeps its shared version. */
  lemma LeftoversVerify(dest0: Table, rows: Rows, paging: Paging, tenant: string, dest: Table)
    requires LegalPaging(paging, rows.Keys) && FixedOrder(paging) && NoForeign(dest0, rows, tenant)
    requires Merged(dest0, rows, Returned(paging, |paging|), tenant, dest)
    requires |Slice(dest, tenant)| == |rows|
    ensures Slice(dest, tenant).Keys == rows.Keys
    ensures forall id :: id in rows ==>
              Slice(dest, tenant)[id] == if id in Slice(dest0, tenant) then Slice(dest0, tenant)[id] else rows[id]
  {
    FixedOrderReturnsAll(paging, rows.Keys);
    var s := Slice(dest, tenant);
    forall id | id in rows ensures id in s {
      assert id in Returned(paging, |paging|);
    }
    SubsetOfSameSize(rows.Keys, s.Keys);
  }

  /** A run after any partial copy and a single run from the start leave the same table if and only if
      they leave the same rows: no payload depends on the failure or on the page orders. */
  lemma RerunConverges(dest0: Table, dest1: Table, rows: Rows, tenant: string,
                       a: seq<Id>, clean: Table, b: seq<Id>, rerun: Table)
    requires PartlyMerged(dest0, rows, tenant, dest1)
    requires Merged(dest0, rows, a, tenant, clean) && Merged(dest1, rows, b, tenant, rerun)
    ensures rerun == clean <==> forall id :: id in rows && id !in dest0 ==> (id in a <==> id in dest1 || id in b)
  {
    if forall id :: id in rows && id !in dest0 ==> (id in a <==> id in dest1 || id in b) {
      forall id ensures id in rerun <==> id in clean {}
      forall id | id in clean ensures rerun[id] == clean[id] {}
    } else {
      var id :| id in rows && id !in dest0 && !(id in a <==> id in dest1 || id in b);
      assert id in rerun <==> id !in clean;
    }
  }

  // ------------------------------------------------ exactly when an unstable copy can lose rows

  function Ids(s: seq<Id>): (ids: set<Id>)
    ensures forall id :: id in ids <==> id in s
  {
    set id | id in s
  }

  function AllIds(paging: Paging): set<Id> {
    Ids(Returned(paging, |paging|))
  }

  lemma {:induction false} DistinctSize(s: seq<Id>)
    requires Distinct(s)
    ensures |Ids(s)| == |s|
    decreases |s|
  {
    if s != [] {
      var last, rest := s[|s| - 1], s[..|s| - 1];
      assert forall id :: id in s <==> id in rest || id == last;
      assert Ids(s) == Ids(rest) + {last};
      DistinctSize(rest);
    }
  }

  /** Ids of the rows under which the destination has a row of another tenant. */
  function Foreign(dest: Table, rows: Rows, tenant: string): (f: set<Id>)
    ensures f <= rows.Keys && f !! Slice(dest, tenant).Keys
  {
    set id | id in rows && id in dest && dest[id].tenant != tenant
  }

  /** The tenant's ids after a copy: what was there, and what was returned and not taken. */
  lemma IdsAfterCopy(dest0: Table, rows: Rows, ids: seq<Id>, tenant: string, dest: Table)
    requires Merged(dest0, rows, ids, tenant, dest)
    ensures Slice(dest, tenant).Keys == Slice(dest0, tenant).Keys + (Ids(ids) - Foreign(dest0, rows, tenant))
  {
  }

  /** The ids of the tenant after a complete copy under this paging. */
  function IdsUnder(leftovers: set<Id>, foreign: set<Id>, paging: Paging): set<Id> {
    leftovers + (AllIds(paging) - foreign)
  }

  /** The count check passes. */
  ghost predicate CountsAgree(leftovers: set<Id>, rows: set<Id>, foreign: set<Id>, paging: Paging) {
    LegalPaging(paging, rows) && |IdsUnder(leftovers, foreign, paging)| == |rows|
  }

  /** The count check passes although the shared table misses a dedicated row. */
  ghost predicate LosesUnseen(leftovers: set<Id>, rows: set<Id>, foreign: set<Id>, paging: Paging) {
    CountsAgree(leftovers, rows, foreign, paging) && !(rows <= IdsUnder(leftovers, foreign, paging))
  }

  /** As many leftovers unknown to the dedicated table as rows can be missed: those whose id is taken,
      and those that pages after the first can repeat others in place of. */
  predicate CountsCanAgree(leftovers: set<Id>, rows: set<Id>, foreign: set<Id>) {
    && |foreign| <= |leftovers - rows| <= |rows| - Min(500, |rows|) + |foreign|
    && |leftovers| <= |rows|
  }

  lemma SplitLeftovers(leftovers: set<Id>, rows: set<Id>, kept: set<Id>)
    requires leftovers * rows <= kept <= rows
    ensures |leftovers| == |leftovers - rows| + |leftovers * rows|
    ensures |leftovers + kept| == |leftovers - rows| + |kept|
  {
    assert leftovers == (leftovers - rows) + leftovers * rows;
    assert leftovers + kept == (leftovers - rows) + kept;
  }

  /** Some page orders make the counts agree if and only if... */
  lemma CountsCanAgreeIff(leftovers: set<Id>, rows: set<Id>, foreign: set<Id>)
    requires foreign <= rows && foreign !! leftovers
    ensures ((exists paging :: CountsAgree(leftovers, rows, foreign, paging))
             <==> CountsCanAgree(leftovers, rows, foreign))
  {
    if paging :| CountsAgree(leftovers, rows, foreign, paging) {
      AgreementBounds(leftovers, rows, foreign, paging);
    }
    if CountsCanAgree(leftovers, rows, foreign) {
      var paging := MakeAgree(leftovers, rows, foreign);
    }
  }

  lemma AgreementBounds(leftovers: set<Id>, rows: set<Id>, foreign: set<Id>, paging: Paging)
    requires foreign <= rows && foreign !! leftovers && CountsAgree(leftovers, rows, foreign, paging)
    ensures CountsCanAgree(leftovers, rows, foreign)
  {
    ReturnedFacts(paging, rows, |paging|);
    var paged := AllIds(paging);
    var taken := paged - foreign;
    var kept := leftovers * rows + taken;
    assert leftovers + taken == leftovers + kept;
    SplitLeftovers(leftovers, rows, kept);
    CardinalityOfSubset(leftovers * rows, kept);
    CardinalityOfSubset(kept, rows - foreign);
    CardinalityOfSubset(foreign, rows);
    CardinalityOfSubset(taken, kept);
    FirstPageCounts(paging, rows);
    assert |paged| <= |taken| + |foreign| by {
      CardinalityOfSubset(paged, taken + foreign);
      assert |taken + foreign| == |taken| + |foreign|;
    }
  }

  lemma MakeAgree(leftovers: set<Id>, rows: set<Id>, foreign: set<Id>) returns (paging: Paging)
    requires foreign <= rows && foreign !! leftovers && CountsCanAgree(leftovers, rows, foreign)
    ensures CountsAgree(leftovers, rows, foreign, paging)
  {
    var known := leftovers * rows;
    SplitLeftovers(leftovers, rows, known);
    CardinalityOfSubset(foreign, rows);
    var kept := Between(known, rows - foreign, |rows| - |leftovers - rows|);
    assert |kept + foreign| == |kept| + |foreign|;
    if |rows| < BATCH_SIZE {
      SubsetOfSameSize(kept + foreign, rows);
    }
    paging := PagingOf(kept + foreign, rows);
    assert leftovers + (kept + foreign - foreign) == leftovers + kept;
    SplitLeftovers(leftovers, rows, kept);
  }

  /** With equal counts a row is missed exactly when a leftover fills its place. */
  lemma MissedIffStranger(leftovers: set<Id>, rows: set<Id>, foreign: set<Id>, paging: Paging)
    requires CountsAgree(leftovers, rows, foreign, paging)
    ensures rows <= IdsUnder(leftovers, foreign, paging) <==> leftovers <= rows
  {
    var after := IdsUnder(leftovers, foreign, paging);
    ReturnedFacts(paging, rows, |paging|);
    if leftovers <= rows {
      SubsetOfSameSize(after, rows);
    } else if rows <= after {
      SubsetOfSameSize(rows, after);
    }
  }

  /** The counts can agree over a missed row if and only if they can agree at all and some leftover is
      unknown to the dedicated table. */
  lemma UnseenLossIff(leftovers: set<Id>, rows: set<Id>, foreign: set<Id>)
    requires foreign <= rows && foreign !! leftovers
    ensures ((exists paging :: LosesUnseen(leftovers, rows, foreign, paging))
             <==> CountsCanAgree(leftovers, rows, foreign) && !(leftovers <= rows))
  {
    CountsCanAgreeIff(leftovers, rows, foreign);
    if paging :| LosesUnseen(leftovers, rows, foreign, paging) {
      MissedIffStranger(leftovers, rows, foreign, paging);
    }
    if CountsCanAgree(leftovers, rows, foreign) && !(leftovers <= rows) {
      var paging :| CountsAgree(leftovers, rows, foreign, paging);
      MissedIffStranger(leftovers, rows, foreign, paging);
      assert LosesUnseen(leftovers, rows, foreign, paging);
    }
  }

  // ------------------------------------------------ exactly when a rerun can end elsewhere

  /** A complete run from the start, and a complete run after some partial copy, leave different tables. */
  ghost predicate Diverges(dest0: Table, rows: Rows, tenant: string,
                           pa: Paging, clean: Table, dest1: Table, pb: Paging, rerun: Table) {
    && LegalPaging(pa, rows.Keys) && Merged(dest0, rows, Returned(pa, |pa|), tenant, clean)
    && PartlyMerged(dest0, rows, tenant, dest1)
    && LegalPaging(pb, rows.Keys) && Merged(dest1, rows, Returned(pb, |pb|), tenant, rerun)
    && rerun != clean
  }

  /** They can if and only if there is more than one page of rows and one of them is new to the
      destination. */
  lemma RerunDivergesIff(dest0: Table, rows: Rows, tenant: string)
    ensures ((exists pa, clean, dest1, pb, rerun :: Diverges(dest0, rows, tenant, pa, clean, dest1, pb, rerun))
             <==> |rows| > 500 && !(rows.Keys <= dest0.Keys))
  {
    if pa, clean, dest1, pb, rerun :| Diverges(dest0, rows, tenant, pa, clean, dest1, pb, rerun) {
      DivergenceNeeds(dest0, rows, tenant, pa, clean, dest1, pb, rerun);
    }
    if |rows| > BATCH_SIZE && !(rows.Keys <= dest0.Keys) {
      var id :| id in rows.Keys && id !in dest0.Keys;
      DivergenceAt(dest0, rows, tenant, id);
    }
  }

  lemma DivergenceNeeds(dest0: Table, rows: Rows, tenant: string,
                        pa: Paging, clean: Table, dest1: Table, pb: Paging, rerun: Table)
    requires Diverges(dest0, rows, tenant, pa, clean, dest1, pb, rerun)
    ensures |rows| > BATCH_SIZE && !(rows.Keys <= dest0.Keys)
  {
    hide LegalPaging, Merged, PartlyMerged;
    RerunConverges(dest0, dest1, rows, tenant, Returned(pa, |pa|), clean, Returned(pb, |pb|), rerun);
    if |rows| <= BATCH_SIZE {
      OnePageReturnsAll(pa, rows);
      OnePageReturnsAll(pb, rows);
    }
  }

  lemma OnePageReturnsAll(paging: Paging, rows: Rows)
    requires LegalPaging(paging, rows.Keys) && |rows| <= BATCH_SIZE
    ensures forall id :: id in rows ==> id in Returned(paging, |paging|)
  {
    assert |rows.Keys| == |rows|;
    FirstPageCounts(paging, rows.Keys);
    ReturnedFacts(paging, rows.Keys, |paging|);
    SubsetOfSameSize(AllIds(paging), rows.Keys);
    assert forall id :: id in rows ==> id in AllIds(paging);
  }

  /** The run from the start misses a row, the rerun does not. */
  lemma DivergenceAt(dest0: Table, rows: Rows, tenant: string, id: Id)
    requires |rows| > BATCH_SIZE && id in rows && id !in dest0
    ensures exists pa, clean, dest1, pb, rerun :: Diverges(dest0, rows, tenant, pa, clean, dest1, pb, rerun)
  {
    assert |rows.Keys| == |rows|;
    var pa := PagingOf(rows.Keys - {id}, rows.Keys);
    var pb := PagingOf(rows.Keys, rows.Keys);
    var clean := CopyUnder(dest0, rows, tenant, pa);
    var rerun := CopyUnder(dest0, rows, tenant, pb);
    assert id in AllIds(pb) && id !in AllIds(pa);
    assert Diverges(dest0, rows, tenant, pa, clean, dest0, pb, rerun);
  }

  ghost function CopyUnder(dest0: Table, rows: Rows, tenant: string, paging: Paging): (dest: Table)
    requires LegalPaging(paging, rows.Keys)
    ensures Merged(dest0, rows, Returned(paging, |paging|), tenant, dest)
  {
    ReturnedFacts(paging, rows.Keys, |paging|);
    Merge(dest0, rows, Returned(paging, |paging|), tenant)
  }

  /** Only runs whose counts agree go on. */
  ghost predicate DivergesVerified(dest0: Table, rows: Rows, tenant: string,
                                   pa: Paging, clean: Table, dest1: Table, pb: Paging, rerun: Table) {
    && Diverges(dest0, rows, tenant, pa, clean, dest1, pb, rerun)
    && |Slice(clean, tenant)| == |rows| == |Slice(rerun, tenant)|
  }

  /** The counts leave room for more than one set of rows. */
  predicate CountsLeaveChoice(leftovers: set<Id>, rows: set<Id>, foreign: set<Id>) {
    CountsCanAgree(leftovers, rows, foreign) && |foreign| < |leftovers - rows| && |leftovers| < |rows|
  }

  /** Two runs that pass the count check can leave different tables if and only if the leftovers unknown
      to the dedicated table outnumber the taken ids, and some row is still to be copied. */
  lemma VerifiedRunsDivergeIff(dest0: Table, rows: Rows, tenant: string)
    ensures var leftovers, foreign := Slice(dest0, tenant).Keys, Foreign(dest0, rows, tenant);
            ((exists pa, clean, dest1, pb, rerun ::
                DivergesVerified(dest0, rows, tenant, pa, clean, dest1, pb, rerun))
             <==> CountsLeaveChoice(leftovers, rows.Keys, foreign))
  {
    var leftovers, foreign := Slice(dest0, tenant).Keys, Foreign(dest0, rows, tenant);
    if pa, clean, dest1, pb, rerun :| DivergesVerified(dest0, rows, tenant, pa, clean, dest1, pb, rerun) {
      ChoiceIsNeeded(dest0, rows, tenant, pa, clean, dest1, pb, rerun);
    }
    if CountsLeaveChoice(leftovers, rows.Keys, foreign) {
      ChoiceDiverges(dest0, rows, tenant);
    }
  }

  /** So with no unknown leftovers a verified rerun is a verified clean run. */
  lemma VerifiedRerunConverges(dest0: Table, rows: Rows, tenant: string,
                               pa: Paging, clean: Table, dest1: Table, pb: Paging, rerun: Table)
    requires Slice(dest0, tenant).Keys <= rows.Keys && PartlyMerged(dest0, rows, tenant, dest1)
    requires LegalPaging(pa, rows.Keys) && Merged(dest0, rows, Returned(pa, |pa|), tenant, clean)
    requires LegalPaging(pb, rows.Keys) && Merged(dest1, rows, Returned(pb, |pb|), tenant, rerun)
    requires |Slice(clean, tenant)| == |rows| == |Slice(rerun, tenant)|
    ensures rerun == clean
  {
    assert Slice(dest0, tenant).Keys - rows.Keys == {};
    hide Slice, LegalPaging, Merged, PartlyMerged;
    if rerun != clean {
      assert DivergesVerified(dest0, rows, tenant, pa, clean, dest1, pb, rerun);
      VerifiedRunsDivergeIff(dest0, rows, tenant);
    }
  }

  /** A partly merged table is determined by the ids the tenant has in it. */
  lemma PartlyIsDetermined(dest0: Table, rows: Rows, tenant: string, a: Table, b: Table)
    requires PartlyMerged(dest0, rows, tenant, a) && PartlyMerged(dest0, rows, tenant, b)
    requires Slice(a, tenant).Keys == Slice(b, tenant).Keys
    ensures a == b
  {
    forall id ensures id in a <==> id in b {
      assert id in a && id !in dest0 ==> id in Slice(a, tenant);
      assert id in b && id !in dest0 ==> id in Slice(b, tenant);
    }
  }

  /** The tenant's ids in it: the leftovers, and rows whose id was free. */
  lemma PartlyIds(dest0: Table, rows: Rows, tenant: string, a: Table) returns (kept: set<Id>)
    requires PartlyMerged(dest0, rows, tenant, a)
    ensures Slice(a, tenant).Keys == (Slice(dest0, tenant).Keys - rows.Keys) + kept
    ensures Slice(dest0, tenant).Keys * rows.Keys <= kept <= rows.Keys - Foreign(dest0, rows, tenant)
    ensures |Slice(a, tenant)| == |Slice(dest0, tenant).Keys - rows.Keys| + |kept|
  {
    kept := Slice(a, tenant).Keys * rows.Keys;
    var others := Slice(dest0, tenant).Keys - rows.Keys;
    forall id | id in Slice(a, tenant).Keys ensures id in others + kept {
      assert id in dest0 || id in rows;
    }
    assert Slice(a, tenant).Keys == others + kept;
    assert |Slice(a, tenant)| == |Slice(a, tenant).Keys|;
    assert |others + kept| == |others| + |kept|;
  }

  lemma ChoiceIsNeeded(dest0: Table, rows: Rows, tenant: string,
                       pa: Paging, clean: Table, dest1: Table, pb: Paging, rerun: Table)
    requires DivergesVerified(dest0, rows, tenant, pa, clean, dest1, pb, rerun)
    ensures CountsLeaveChoice(Slice(dest0, tenant).Keys, rows.Keys, Foreign(dest0, rows, tenant))
  {
    var leftovers, foreign := Slice(dest0, tenant).Keys, Foreign(dest0, rows, tenant);
    VerifiedCanAgree(dest0, rows, tenant, pa, clean);
    MergedIsPart(dest0, rows, tenant, dest0, Returned(pa, |pa|), clean);
    MergedIsPart(dest0, rows, tenant, dest1, Returned(pb, |pb|), rerun);
    hide Slice, LegalPaging, Merged, PartlyMerged, Foreign;
    var a := PartlyIds(dest0, rows, tenant, clean);
    var b := PartlyIds(dest0, rows, tenant, rerun);
    SplitLeftovers(leftovers, rows.Keys, leftovers * rows.Keys);
    CardinalityOfSubset(foreign, rows.Keys);
    assert |rows.Keys - foreign| == |rows.Keys| - |foreign|;
    assert |rows.Keys| == |rows|;
    if |foreign| == |leftovers - rows.Keys| {
      SubsetOfSameSize(a, rows.Keys - foreign);
      SubsetOfSameSize(b, rows.Keys - foreign);
    }
    if |leftovers| == |rows| {
      SubsetOfSameSize(leftovers * rows.Keys, a);
      SubsetOfSameSize(leftovers * rows.Keys, b);
    }
    if a == b {
      PartlyIsDetermined(dest0, rows, tenant, clean, rerun);
    }
  }

  lemma MergedIsPart(dest0: Table, rows: Rows, tenant: string, dest1: Table, ids: seq<Id>, dest: Table)
    requires (dest1 == dest0 || PartlyMerged(dest0, rows, tenant, dest1)) && Merged(dest1, rows, ids, tenant, dest)
    ensures PartlyMerged(dest0, rows, tenant, dest)
  {
  }

  lemma VerifiedCanAgree(dest0: Table, rows: Rows, tenant: string, paging: Paging, dest: Table)
    requires LegalPaging(paging, rows.Keys) && Merged(dest0, rows, Returned(paging, |paging|), tenant, dest)
    requires |Slice(dest, tenant)| == |rows|
    ensures CountsCanAgree(Slice(dest0, tenant).Keys, rows.Keys, Foreign(dest0, rows, tenant))
  {
    hide Slice, LegalPaging, Merged, Foreign, CountsCanAgree;
    var leftovers, foreign := Slice(dest0, tenant).Keys, Foreign(dest0, rows, tenant);
    IdsAfterCopy(dest0, rows, Returned(paging, |paging|), tenant, dest);
    assert |Slice(dest, tenant)| == |Slice(dest, tenant).Keys| && |rows| == |rows.Keys|;
    assert CountsAgree(leftovers, rows.Keys, foreign, paging);
    AgreementBounds(leftovers, rows.Keys, foreign, paging);
  }

  lemma ChoiceDiverges(dest0: Table, rows: Rows, tenant: string)
    requires CountsLeaveChoice(Slice(dest0, tenant).Keys, rows.Keys, Foreign(dest0, rows, tenant))
    ensures exists pa, clean, dest1, pb, rerun ::
              DivergesVerified(dest0, rows, tenant, pa, clean, dest1, pb, rerun)
  {
    var leftovers, foreign := Slice(dest0, tenant).Keys, Foreign(dest0, rows, tenant);
    hide Slice, LegalPaging, Merged, Foreign;
    var a, b := TwoChoices(leftovers, rows.Keys, foreign);
    var pa, clean := CopyKeeping(dest0, rows, tenant, a);
    var pb, rerun := CopyKeeping(dest0, rows, tenant, b);
    NothingMerged(dest0, rows, tenant);
    assert Diverges(dest0, rows, tenant, pa, clean, dest0, pb, rerun);
    assert DivergesVerified(dest0, rows, tenant, pa, clean, dest0, pb, rerun);
  }

  lemma NothingMerged(dest0: Table, rows: Rows, tenant: string)
    ensures PartlyMerged(dest0, rows, tenant, dest0)
  {
  }

  /** Two sets of rows that a copy may add to, of the size that the counts require. */
  lemma TwoChoices(leftovers: set<Id>, rows: set<Id>, foreign: set<Id>) returns (a: set<Id>, b: set<Id>)
    requires foreign <= rows && foreign !! leftovers && CountsLeaveChoice(leftovers, rows, foreign)
    ensures leftovers * rows <= a <= rows - foreign && leftovers * rows <= b <= rows - foreign
    ensures |a| == |b| == |rows| - |leftovers - rows|
    ensures leftovers + a != leftovers + b
  {
    var known := leftovers * rows;
    SplitLeftovers(leftovers, rows, known);
    CardinalityOfSubset(foreign, rows);
    assert |rows - foreign| == |rows| - |foreign|;
    a := Between(known, rows - foreign, |rows| - |leftovers - rows|);
    var x := OneLess(known, a);
    var y := OneLess(a, rows - foreign);
    b := a - {x} + {y};
    assert y in leftovers + b && y !in leftovers + a;
  }

  lemma OneLess(s: set<Id>, t: set<Id>) returns (x: Id)
    requires s <= t && |s| < |t|
    ensures x in t && x !in s
  {
    assert |t - s| == |t| - |s|;
    x :| x in t - s;
  }

  /** A complete copy after which the tenant has the leftovers and the chosen rows. */
  lemma CopyKeeping(dest0: Table, rows: Rows, tenant: string, kept: set<Id>) returns (paging: Paging, dest: Table)
    requires CountsLeaveChoice(Slice(dest0, tenant).Keys, rows.Keys, Foreign(dest0, rows, tenant))
    requires Slice(dest0, tenant).Keys * rows.Keys <= kept <= rows.Keys - Foreign(dest0, rows, tenant)
    requires |kept| == |rows| - |Slice(dest0, tenant).Keys - rows.Keys|
    ensures LegalPaging(paging, rows.Keys) && Merged(dest0, rows, Returned(paging, |paging|), tenant, dest)
    ensures Slice(dest, tenant).Keys == Slice(dest0, tenant).Keys + kept && |Slice(dest, tenant)| == |rows|
  {
    hide Slice, LegalPaging, Merged, Foreign;
    var leftovers, foreign := Slice(dest0, tenant).Keys, Foreign(dest0, rows, tenant);
    assert |kept + foreign| == |kept| + |foreign| && |rows| == |rows.Keys|;
    paging := PagingOf(kept + foreign, rows.Keys);
    dest := CopyUnder(dest0, rows, tenant, paging);
    IdsAfterCopy(dest0, rows, Returned(paging, |paging|), tenant, dest);
    assert Slice(dest, tenant).Keys == leftovers + kept by {
      assert AllIds(paging) - foreign == kept;
    }
    SplitLeftovers(leftovers, rows.Keys, kept);
    assert |Slice(dest, tenant)| == |Slice(dest, tenant).Keys|;
  }

  lemma FirstPageCounts(paging: Paging, rows: set<Id>)
    requires LegalPaging(paging, rows)
    ensures |AllIds(paging)| >= Min(BATCH_SIZE, |rows|)
    ensures |rows| < BATCH_SIZE ==> AllIds(paging) == rows
  {
    assert IsOrder(paging[0], rows);
    PageFacts(paging[0], rows, 0);
    var page := Page(paging[0], Offset(0));
    DistinctSize(page);
    PageIsReturned(paging, 0, |paging|);
    ReturnedFacts(paging, rows, |paging|);
    CardinalityOfSubset(Ids(page), AllIds(paging));
    if |rows| < BATCH_SIZE {
      SubsetOfSameSize(AllIds(paging), rows);
    }
  }

  lemma CardinalityOfSubset(a: set<Id>, b: set<Id>)
    requires a <= b
    ensures |a| <= |b|
  {
    assert |b| == |a| + |b - a|;
  }

  /** k elements of s, among them all of must. */
  ghost function Between(must: set<Id>, s: set<Id>, k: nat): (r: set<Id>)
    requires must <= s && |must| <= k <= |s|
    ensures must <= r <= s && |r| == k
    decreases k - |must|
  {
    if |must| == k then must
    else
      assert s - must != {} by {
        assert |s - must| == |s| - |must|;
      }
      var x :| x in s - must;
      assert must + {x} <= s;
      Between(must + {x}, s, k)
  }

  ghost function Listing(s: set<Id>): (r: seq<Id>)
    ensures IsOrder(r, s) && |r| == |s|
  {
    if s == {} then []
    else
      var x :| x in s;
      var r := [x] + Listing(s - {x});
      assert multiset(r) == multiset{x} + multiset(s - {x});
      assert multiset(s) == multiset{x} + multiset(s - {x});
      r
  }

  /** A window of the kept rows, for query q over n rows in all. */
  function Detour(kept: seq<Id>, n: nat, q: nat): seq<Id>
    requires BATCH_SIZE <= |kept| <= n && Offset(q) <= n
  {
    var len := Min(BATCH_SIZE, n - Offset(q));
    var b := Min(Offset(q), |kept| - len);
    kept[b..b + len]
  }

  /** The kept rows and the rest can be ordered so that the page of query q holds kept rows alone. */
  lemma DetourOrder(kept: seq<Id>, rest: seq<Id>, q: nat) returns (order: seq<Id>)
    requires |kept| >= BATCH_SIZE && Offset(q) <= |kept| + |rest|
    ensures multiset(order) == multiset(kept) + multiset(rest)
    ensures Page(order, Offset(q)) == Detour(kept, |kept| + |rest|, q)
  {
    var n, o := |kept| + |rest|, Offset(q);
    var len := Min(BATCH_SIZE, n - o);
    var b := Min(o, |kept| - len);
    var window, others := kept[b..b + len], kept[..b] + kept[b + len..];
    CutOut(kept, b, b + len);
    assert multiset(others + rest) == multiset(others) + multiset(rest);
    order := PutIn(others + rest, window, o);
  }

  lemma CutOut(s: seq<Id>, b: nat, e: nat)
    requires b <= e <= |s|
    ensures multiset(s) == multiset(s[..b] + s[e..]) + multiset(s[b..e])
    ensures |s[..b] + s[e..]| == |s| - (e - b)
  {
    assert s == s[..b] + s[b..e] + s[e..];
  }

  lemma PutIn(s: seq<Id>, window: seq<Id>, o: nat) returns (r: seq<Id>)
    requires o <= |s|
    ensures multiset(r) == multiset(s) + multiset(window)
    ensures |r| == |s| + |window| && r[o..o + |window|] == window
  {
    r := s[..o] + window + s[o..];
    assert s == s[..o] + s[o..];
  }

  lemma {:induction false} DetourPaging(kept: seq<Id>, rest: seq<Id>, k: nat) returns (paging: Paging)
    requires |kept| >= BATCH_SIZE && k <= QueriesFor(|kept| + |rest|)
    ensures |paging| == k
    ensures forall q :: 0 <= q < k ==> multiset(paging[q]) == multiset(kept) + multiset(rest)
    ensures forall q :: 0 <= q < k ==> Page(paging[q], Offset(q)) == Detour(kept, |kept| + |rest|, q)
    decreases k
  {
    if k == 0 {
      paging := [];
    } else {
      paging := DetourPaging(kept, rest, k - 1);
      var order := DetourOrder(kept, rest, k - 1);
      paging := paging + [order];
    }
  }

  ghost predicate IsDetour(kept: seq<Id>, n: nat, paging: Paging)
    requires BATCH_SIZE <= |kept| <= n
  {
    && |paging| == QueriesFor(n)
    && forall q :: 0 <= q < |paging| ==> Page(paging[q], Offset(q)) == Detour(kept, n, q)
  }

  lemma {:induction false} DetoursStay(kept: seq<Id>, n: nat, paging: Paging, k: nat)
    requires BATCH_SIZE <= |kept| <= n && IsDetour(kept, n, paging) && k <= |paging|
    ensures forall id :: id in Returned(paging, k) ==> id in kept
    decreases k
  {
    if k > 0 {
      DetoursStay(kept, n, paging, k - 1);
    }
  }

  lemma DetoursCover(kept: seq<Id>, n: nat, paging: Paging, i: nat)
    requires BATCH_SIZE <= |kept| <= n && IsDetour(kept, n, paging) && i < |kept|
    ensures kept[i] in Returned(paging, |paging|)
  {
    var q: nat := i / 500;
    var len := Min(BATCH_SIZE, n - Offset(q));
    var b := Min(Offset(q), |kept| - len);
    assert b <= i < b + len;
    assert Page(paging[q], Offset(q))[i - b] == kept[i];
    PageIsReturned(paging, q, |paging|);
  }

  /** A paging that returns exactly a chosen subset of at least one batch of the rows, or all of them. */
  lemma PagingOf(target: set<Id>, rows: set<Id>) returns (paging: Paging)
    requires target <= rows && (|target| >= BATCH_SIZE || target == rows)
    ensures LegalPaging(paging, rows) && AllIds(paging) == target
  {
    if |target| >= BATCH_SIZE {
      var kept, rest := Listing(target), Listing(rows - target);
      Partition(target, rows);
      paging := PagingFrom(kept, rest, rows);
      OrderFacts(kept, target);
    } else {
      paging := [Listing(rows)];
      assert IsOrder(paging[0], rows);
      FixedOrderReturnsAll(paging, rows);
    }
  }

  lemma PagingFrom(kept: seq<Id>, rest: seq<Id>, rows: set<Id>) returns (paging: Paging)
    requires |kept| >= BATCH_SIZE && |kept| + |rest| == |rows|
    requires multiset(kept) + multiset(rest) == multiset(rows)
    ensures LegalPaging(paging, rows)
    ensures forall id :: id in Returned(paging, |paging|) <==> id in kept
  {
    paging := DetourPaging(kept, rest, QueriesFor(|rows|));
    CoversExactly(kept, |rows|, paging);
  }

  lemma Partition(part: set<Id>, whole: set<Id>)
    requires part <= whole
    ensures |whole| == |part| + |whole - part|
    ensures multiset(whole) == multiset(part) + multiset(whole - part)
  {
  }

  lemma CoversExactly(kept: seq<Id>, n: nat, paging: Paging)
    requires BATCH_SIZE <= |kept| <= n && IsDetour(kept, n, paging)
    ensures forall id :: id in Returned(paging, |paging|) <==> id in kept
  {
    DetoursStay(kept, n, paging, |paging|);
    forall id | id in kept ensures id in Returned(paging, |paging|) {
      var i :| 0 <= i < |kept| && kept[i] == id;
      DetoursCover(kept, n, paging, i);
    }
  }
}
