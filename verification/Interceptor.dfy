/** Tenant scoping of pooled connections: the patched acquire and release of the query layer, the
    connection cap, the per-run query limit and the row policy.

    Any number of acquisitions interleave at their awaits; an action is what runs between two of them. */
module Interceptor {
  import opened Options
  import Quota

  const QUERY_LIMIT: nat := 50

  /** A tenant id as written; "" stands for no tenant and for a setting that is empty or not set. */
  type Tenant = string

  predicate IsHex(c: char) {
    '0' <= c <= '9' || 'a' <= c <= 'f' || 'A' <= c <= 'F'
  }

  predicate IsUuid(id: Tenant) {
    |id| == 36 && forall i :: 0 <= i < 36 ==> if i in {8, 13, 18, 23} then id[i] == '-' else IsHex(id[i])
  }

  const HEX_DIGITS: string := "0123456789abcdefABCDEF"

  lemma HexDigits(c: char)
    ensures IsHex(c) <==> c in HEX_DIGITS
  {
    assert forall i :: 0 <= i < |HEX_DIGITS| ==> IsHex(HEX_DIGITS[i]);
    if '0' <= c <= '9' {
      assert HEX_DIGITS[c as int - '0' as int] == c;
    } else if 'a' <= c <= 'f' {
      assert HEX_DIGITS[c as int - 'a' as int + 10] == c;
    } else if 'A' <= c <= 'F' {
      assert HEX_DIGITS[c as int - 'A' as int + 16] == c;
    }
  }

  ghost predicate IsGroup(s: string, n: nat) {
    |s| == n && forall c :: c in s ==> c in HEX_DIGITS
  }

  /** The five groups of a uuid, joined by dashes. */
  ghost predicate IsGrouped(id: Tenant, a: string, b: string, c: string, d: string, e: string) {
    && IsGroup(a, 8) && IsGroup(b, 4) && IsGroup(c, 4) && IsGroup(d, 4) && IsGroup(e, 12)
    && id == a + "-" + b + "-" + c + "-" + d + "-" + e
  }

  lemma HexGroup(s: string, i: nat, j: nat)
    requires i <= j <= |s| && forall k :: i <= k < j ==> IsHex(s[k])
    ensures IsGroup(s[i..j], j - i)
  {
    forall c | c in s[i..j] ensures c in HEX_DIGITS {
      var k :| i <= k < j && s[k] == c;
      HexDigits(c);
    }
  }

  lemma GroupIsHex(s: string, n: nat)
    requires IsGroup(s, n)
    ensures forall k :: 0 <= k < n ==> IsHex(s[k])
  {
    forall k | 0 <= k < n ensures IsHex(s[k]) {
      HexDigits(s[k]);
    }
  }

  /** The id check lets through exactly the texts of eight, four, four, four and twelve hexadecimal digits
      between dashes. */
  lemma UuidIff(id: Tenant)
    ensures IsUuid(id) <==> exists a, b, c, d, e :: IsGrouped(id, a, b, c, d, e)
  {
    hide IsHex;
    if IsUuid(id) {
      HexGroup(id, 0, 8);
      HexGroup(id, 9, 13);
      HexGroup(id, 14, 18);
      HexGroup(id, 19, 23);
      HexGroup(id, 24, 36);
      assert id == id[0..8] + "-" + id[9..13] + "-" + id[14..18] + "-" + id[19..23] + "-" + id[24..36];
      assert IsGrouped(id, id[0..8], id[9..13], id[14..18], id[19..23], id[24..36]);
    }
    if a, b, c, d, e :| IsGrouped(id, a, b, c, d, e) {
      GroupIsHex(a, 8);
      GroupIsHex(b, 4);
      GroupIsHex(c, 4);
      GroupIsHex(d, 4);
      GroupIsHex(e, 12);
      assert |id| == 36 && id[8] == id[13] == id[18] == id[23] == '-';
      assert id[0..8] == a && id[9..13] == b && id[14..18] == c && id[19..23] == d && id[24..36] == e;
      assert forall i :: 0 <= i < 8 ==> id[i] == a[i];
      assert forall i :: 9 <= i < 13 ==> id[i] == b[i - 9];
      assert forall i :: 14 <= i < 18 ==> id[i] == c[i - 14];
      assert forall i :: 19 <= i < 23 ==> id[i] == d[i - 19];
      assert forall i :: 24 <= i < 36 ==> id[i] == e[i - 24];
    }
  }

  datatype Place = Idle | Out | Gone

  datatype Conn = Conn(setting: Tenant, place: Place)

  /** peak: the largest cap the slot was ever given. */
  datatype SlotRecord = SlotRecord(owner: Tenant, current: nat, max: nat, peak: nat)

  /** One TenantContext.run, nested or not, with its own query counter. */
  datatype Run = Run(tenant: Tenant, tier: string, count: nat)

  /** Where a call of acquireConnection stands.  Granted: the cap let it pass, with the slot charged.
      Threw: it failed after the pool had given it a connection. */
  datatype Stage =
    | Opening
    | Scoping
    | Waiting(on: nat)
    | Granted(slot: Option<nat>)
    | Held(slot: Option<nat>)
    | Resetting
    | Released
    | Failed
    | Threw(slot: Option<nat>)

  datatype Acq = Acq(ctx: Option<nat>, conn: nat, stage: Stage)

  /** spoilt: tenants whose slot was replaced or removed, or created beside connections that passed
      without one, or released from another tenant's context.  unreset: connections that went back to
      the pool after a tenant's use with a reset that threw and changed nothing, and were not reset since. */
  datatype State = State(
    conns: seq<Conn>,
    unreset: set<nat>,
    slots: seq<SlotRecord>,
    live: map<Tenant, nat>,
    runs: seq<Run>,
    acqs: seq<Acq>,
    spoilt: set<Tenant>)

  datatype Action =
    | OpenRun(tenant: Tenant, tier: string)
    | Call(ctx: Option<nat>)
    | Connect(a: nat, c: nat)
    | ConnectFails(a: nat)
    | ScopeSet(a: nat)
    | ScopeFails(a: nat, applied: bool)
    | Wake(a: nat)
    | TimeOut(a: nat)
    | Count(a: nat)
    | Release(a: nat, ctx: Option<nat>)
    | ResetDone(a: nat)
    | ResetFails(a: nat, applied: bool, kept: bool)
    | Evict(c: nat)
    | Register(t: Tenant, cap: Option<nat>)
    | UpdateCap(t: Tenant, cap: Option<nat>)
    | Deregister(t: Tenant)

  function TenantIn(s: State, ctx: Option<nat>): Tenant {
    if ctx.Some? && ctx.value < |s.runs| then s.runs[ctx.value].tenant else ""
  }

  predicate ValidCtx(s: State, ctx: Option<nat>) {
    ctx.Some? ==> ctx.value < |s.runs|
  }

  predicate At(s: State, a: nat, stage: Stage) {
    a < |s.acqs| && s.acqs[a].stage == stage
  }

  predicate Full(s: State, i: nat) {
    i < |s.slots| && s.slots[i].current >= s.slots[i].max
  }

  predicate Enabled(s: State, x: Action) {
    match x
    case Call(ctx) => ValidCtx(s, ctx)
    case Connect(a, c) => At(s, a, Opening) && (c < |s.conns| ==> s.conns[c].place == Idle) && c <= |s.conns|
    case ConnectFails(a) => At(s, a, Opening)
    case ScopeSet(a) => At(s, a, Scoping)
    case ScopeFails(a, _) => At(s, a, Scoping)
    case Wake(a) => a < |s.acqs| && s.acqs[a].stage.Waiting?
    case TimeOut(a) => a < |s.acqs| && s.acqs[a].stage.Waiting? && Full(s, s.acqs[a].stage.on)
    case Count(a) => a < |s.acqs| && s.acqs[a].stage.Granted?
    case Release(a, ctx) => a < |s.acqs| && s.acqs[a].stage.Held? && ValidCtx(s, ctx)
    case ResetDone(a) => At(s, a, Resetting)
    case ResetFails(a, _, _) => At(s, a, Resetting)
    case Evict(c) => c < |s.conns| && s.conns[c].place == Idle
    case _ => true
  }

  // ---------------------------------------------------------------- the quota

  /** An acquisition of t that holds, or is about to hold, a connection no slot is charged for. */
  predicate PassedBy(s: State, t: Tenant) {
    exists a :: 0 <= a < |s.acqs| && IsUncharged(s.acqs[a].stage) && TenantIn(s, s.acqs[a].ctx) == t
  }

  predicate IsUncharged(stage: Stage) {
    (stage.Granted? || stage.Held?) && stage.slot == None
  }

  predicate HadSlot(s: State, t: Tenant) {
    exists i :: 0 <= i < |s.slots| && s.slots[i].owner == t
  }

  function NewSlot(s: State, t: Tenant, max: nat): State {
    s.(slots := s.slots + [SlotRecord(t, 0, max, max)],
       live := s.live[t := |s.slots|],
       spoilt := if HadSlot(s, t) || PassedBy(s, t) then s.spoilt + {t} else s.spoilt)
  }

  function DropSlot(s: State, t: Tenant): State {
    s.(live := s.live - {t}, spoilt := if t in s.live then s.spoilt + {t} else s.spoilt)
  }

  function Recapped(slot: SlotRecord, max: nat): SlotRecord {
    slot.(max := max, peak := Quota.Max(slot.peak, max))
  }

  function Charge(slots: seq<SlotRecord>, i: nat, d: int): seq<SlotRecord>
    requires i < |slots| && slots[i].current + d >= 0
  {
    slots[i := slots[i].(current := slots[i].current + d)]
  }

  /** The quota's release: the live slot of the tenant of the context, and not below zero. */
  function Discharge(s: State, t: Tenant): seq<SlotRecord> {
    if t != "" && t in s.live && s.live[t] < |s.slots| && s.slots[s.live[t]].current > 0
    then Charge(s.slots, s.live[t], -1)
    else s.slots
  }

  // ---------------------------------------------------------------- steps

  function WithStage(s: State, a: nat, stage: Stage): State
    requires a < |s.acqs|
  {
    s.(acqs := s.acqs[a := s.acqs[a].(stage := stage)])
  }

  function WithConn(s: State, c: nat, conn: Conn): State {
    if c < |s.conns| then s.(conns := s.conns[c := conn]) else s
  }

  /** The setting is gone, with the connection or without it. */
  function Emptied(s: State, c: nat, place: Place): State {
    WithConn(s, c, Conn("", place)).(unreset := s.unreset - {c})
  }

  /** The connection goes back with the setting it has. */
  function Unreset(s: State, c: nat, t: Tenant): State
    requires c < |s.conns|
  {
    WithConn(s, c, s.conns[c].(place := Idle)).(unreset := if t != "" then s.unreset + {c} else s.unreset)
  }

  /** The query counter: the increment, and the stage it leads to. */
  function Counted(s: State, a: nat, slot: Option<nat>): State
    requires a < |s.acqs|
  {
    var ctx := s.acqs[a].ctx;
    if ctx.Some? && ctx.value < |s.runs| then
      var run := s.runs[ctx.value].(count := s.runs[ctx.value].count + 1);
      WithStage(s, a, if run.count > QUERY_LIMIT then Threw(slot) else Held(slot)).(runs := s.runs[ctx.value := run])
    else
      WithStage(s, a, Held(slot))
  }

  /** What runs when the pool has given a connection. */
  function Connected(s: State, a: nat, c: nat): State
    requires a < |s.acqs| && c <= |s.conns|
  {
    var t := TenantIn(s, s.acqs[a].ctx);
    var conns := if c < |s.conns| then s.conns[c := s.conns[c].(place := Out)] else s.conns + [Conn("", Out)];
    var s1 := s.(conns := conns, acqs := s.acqs[a := s.acqs[a].(conn := c)]);
    if t == "" then Counted(s1, a, None)
    else WithStage(s1, a, if IsUuid(t) then Scoping else Threw(None))
  }

  /** The captured slot is tested when the acquisition arrives and at every wake. */
  function Tried(s: State, a: nat, i: nat): State
    requires a < |s.acqs| && i < |s.slots|
  {
    if Full(s, i) then WithStage(s, a, Waiting(i))
    else WithStage(s, a, Granted(Some(i))).(slots := Charge(s.slots, i, 1))
  }

  /** What runs when the tenant was set: register on first sight, then ask the quota. */
  function Scoped(s: State, a: nat): State
    requires a < |s.acqs|
  {
    var ctx := s.acqs[a].ctx;
    var t := TenantIn(s, ctx);
    var tier := if ctx.Some? && ctx.value < |s.runs| then s.runs[ctx.value].tier else "";
    var s1 := WithConn(s, s.acqs[a].conn, Conn(t, Out));
    var s2 := if tier != "" && t !in s.live && Quota.Cap(tier).Some? then NewSlot(s1, t, Quota.Cap(tier).value) else s1;
    if t in s2.live && s2.live[t] < |s2.slots| then Tried(s2, a, s2.live[t])
    else WithStage(s2, a, Granted(None))
  }

  function Next(s: State, x: Action): State
    requires Enabled(s, x)
  {
    match x
    case OpenRun(tenant, tier) => s.(runs := s.runs + [Run(tenant, tier, 0)])
    case Call(ctx) => s.(acqs := s.acqs + [Acq(ctx, 0, Opening)])
    case Connect(a, c) => Connected(s, a, c)
    case ConnectFails(a) => WithStage(s, a, Failed)
    case ScopeSet(a) => Scoped(s, a)
    case ScopeFails(a, applied) =>
      var t := TenantIn(s, s.acqs[a].ctx);
      WithStage(if applied then WithConn(s, s.acqs[a].conn, Conn(t, Out)) else s, a, Threw(None))
    case Wake(a) => if s.acqs[a].stage.on < |s.slots| then Tried(s, a, s.acqs[a].stage.on) else s
    case TimeOut(a) => WithStage(s, a, Threw(None))
    case Count(a) => Counted(s, a, s.acqs[a].stage.slot)
    case Release(a, ctx) =>
      var t, t' := TenantIn(s, s.acqs[a].ctx), TenantIn(s, ctx);
      WithStage(s, a, Resetting).(slots := Discharge(s, t'), spoilt := if t == t' then s.spoilt else s.spoilt + {t, t'})
    case ResetDone(a) => WithStage(Emptied(s, s.acqs[a].conn, Idle), a, Released)
    case ResetFails(a, applied, kept) =>
      var c := s.acqs[a].conn;
      var s1 := if !kept then Emptied(s, c, Gone)
                else if applied then Emptied(s, c, Idle)
                else if c < |s.conns| then Unreset(s, c, TenantIn(s, s.acqs[a].ctx))
                else s;
      WithStage(s1, a, Released)
    case Evict(c) => Emptied(s, c, Gone)
    case Register(t, cap) => if cap.Some? then NewSlot(s, t, cap.value) else s
    case UpdateCap(t, cap) =>
      if cap == None then DropSlot(s, t)
      else if t in s.live && s.live[t] < |s.slots| then
        s.(slots := s.slots[s.live[t] := Recapped(s.slots[s.live[t]], cap.value)])
      else NewSlot(s, t, cap.value)
    case Deregister(t) => DropSlot(s, t)
  }

  ghost predicate Initial(s: State) {
    && s.conns == [] && s.unreset == {} && s.slots == [] && s.live == map[]
    && s.runs == [] && s.acqs == [] && s.spoilt == {}
  }

  // ---------------------------------------------------------------- scoping

  predicate HasConn(stage: Stage) {
    stage.Scoping? || stage.Waiting? || stage.Granted? || stage.Held? || stage.Resetting? || stage.Threw?
  }

  predicate IsScoped(stage: Stage) {
    stage.Waiting? || stage.Granted? || stage.Held? || stage.Resetting?
  }

  /** The setting of a connection nobody set a tenant on is what its last release left. */
  ghost predicate IsLeft(s: State, c: nat)
    requires c < |s.conns|
  {
    s.conns[c].setting != "" <==> c in s.unreset
  }

  /** A connection that is out carries the tenant of the acquisition that has it. */
  ghost predicate AcqOk(s: State, acq: Acq) {
    var t := TenantIn(s, acq.ctx);
    && ValidCtx(s, acq.ctx)
    && (HasConn(acq.stage) ==> acq.conn < |s.conns| && s.conns[acq.conn].place == Out)
    && (IsScoped(acq.stage) ==>
          if t == "" then IsLeft(s, acq.conn) else s.conns[acq.conn].setting == t && IsUuid(t))
    && (acq.stage == Scoping ==> IsUuid(t))
  }

  ghost predicate Apart(acqs: seq<Acq>) {
    forall a, b :: 0 <= a < b < |acqs| && HasConn(acqs[a].stage) && HasConn(acqs[b].stage) ==>
      acqs[a].conn != acqs[b].conn
  }

  /** An idle connection carries a tenant only from a release that did not reset it. */
  ghost predicate IdleOk(s: State) {
    && (forall c :: 0 <= c < |s.conns| && s.conns[c].place == Idle ==> IsLeft(s, c))
    && (forall c :: 0 <= c < |s.conns| ==> s.conns[c].setting == "" || IsUuid(s.conns[c].setting))
    && (forall c :: c in s.unreset ==> c < |s.conns|)
  }

  ghost predicate ScopeInv(s: State) {
    && (forall a :: 0 <= a < |s.acqs| ==> AcqOk(s, s.acqs[a]))
    && Apart(s.acqs) && IdleOk(s)
  }

  /** The acquisition an action works on, when it works on one. */
  predicate OnAcq(x: Action) {
    x.Connect? || x.ConnectFails? || x.ScopeSet? || x.ScopeFails? || x.Wake? || x.TimeOut? || x.Count?
    || x.Release? || x.ResetDone? || x.ResetFails?
  }

  /** Other acquisitions, all contexts and the tenants of the runs are untouched. */
  ghost predicate Only(s: State, s': State, a: nat)
    requires a < |s.acqs|
  {
    && |s'.acqs| == |s.acqs| && s'.acqs[a].ctx == s.acqs[a].ctx
    && (forall b :: 0 <= b < |s.acqs| && b != a ==> s'.acqs[b] == s.acqs[b])
    && SameRuns(s, s')
  }

  predicate SameRuns(s: State, s': State) {
    && |s.runs| == |s'.runs|
    && forall r :: 0 <= r < |s.runs| ==> s'.runs[r].tenant == s.runs[r].tenant && s'.runs[r].tier == s.runs[r].tier
  }

  lemma CountedOnly(s: State, a: nat, slot: Option<nat>)
    requires a < |s.acqs|
    ensures Only(s, Counted(s, a, slot), a)
    ensures Counted(s, a, slot).conns == s.conns && Counted(s, a, slot).unreset == s.unreset
    ensures Counted(s, a, slot).acqs[a].conn == s.acqs[a].conn
    ensures Counted(s, a, slot).acqs[a].stage == Held(slot) || Counted(s, a, slot).acqs[a].stage == Threw(slot)
  {
  }

  lemma TriedOnly(s: State, a: nat, i: nat)
    requires a < |s.acqs| && i < |s.slots|
    ensures Only(s, Tried(s, a, i), a)
    ensures Tried(s, a, i).conns == s.conns && Tried(s, a, i).unreset == s.unreset
    ensures Tried(s, a, i).acqs[a].conn == s.acqs[a].conn
    ensures Tried(s, a, i).acqs[a].stage == Waiting(i) || Tried(s, a, i).acqs[a].stage == Granted(Some(i))
  {
  }

  lemma ScopedOnly(s: State, a: nat)
    requires a < |s.acqs| && s.acqs[a].conn < |s.conns|
    ensures var s' := Scoped(s, a);
            && Only(s, s', a) && s'.acqs[a].conn == s.acqs[a].conn
            && (s'.acqs[a].stage.Waiting? || s'.acqs[a].stage.Granted?)
            && s'.conns == s.conns[s.acqs[a].conn := Conn(TenantIn(s, s.acqs[a].ctx), Out)]
            && s'.unreset == s.unreset
  {
  }

  predicate IsEmptied(s: State, s': State, c: nat, place: Place) {
    s'.conns == Emptied(s, c, place).conns && s'.unreset == Emptied(s, c, place).unreset
  }

  /** How a step changes its acquisition and the connection. */
  ghost predicate Moves(s: State, s': State, x: Action)
    requires Enabled(s, x) && OnAcq(x) && x.a < |s'.acqs|
  {
    var c, c' := s.acqs[x.a].conn, s'.acqs[x.a].conn;
    var was, stage := s.acqs[x.a].stage, s'.acqs[x.a].stage;
    var t := TenantIn(s, s.acqs[x.a].ctx);
    && (!x.ResetDone? && !x.ResetFails? ==> s'.unreset == s.unreset)
    && match x
    case Connect(_, new_) =>
      && c' == new_
      && s'.conns == (if new_ < |s.conns| then s.conns[new_ := s.conns[new_].(place := Out)]
                      else s.conns + [Conn("", Out)])
      && (if t == "" then stage == Held(None) || stage == Threw(None)
          else if IsUuid(t) then stage == Scoping else stage == Threw(None))
    case ScopeSet(_) =>
      c' == c && s'.conns == WithConn(s, c, Conn(t, Out)).conns && (stage.Waiting? || stage.Granted?)
    case ScopeFails(_, _) =>
      c' == c && (s'.conns == s.conns || s'.conns == WithConn(s, c, Conn(t, Out)).conns) && stage == Threw(None)
    case ResetDone(_) => c' == c && IsEmptied(s, s', c, Idle) && stage == Released
    case ResetFails(_, applied, kept) =>
      && c' == c && stage == Released
      && if !kept then IsEmptied(s, s', c, Gone)
         else if applied then IsEmptied(s, s', c, Idle)
         else (c < |s.conns| ==> s'.conns == Unreset(s, c, t).conns && s'.unreset == Unreset(s, c, t).unreset)
    case ConnectFails(_) => c' == c && s'.conns == s.conns && stage == Failed
    case Wake(_) => c' == c && s'.conns == s.conns && was.Waiting? && (stage.Waiting? || stage.Granted?)
    case TimeOut(_) => c' == c && s'.conns == s.conns && was.Waiting? && stage == Threw(None)
    case Count(_) =>
      c' == c && s'.conns == s.conns && was.Granted? && (stage == Held(was.slot) || stage == Threw(was.slot))
    case _ => c' == c && s'.conns == s.conns && was.Held? && stage == Resetting
  }

  lemma StepMoves(s: State, x: Action)
    requires ScopeInv(s) && Enabled(s, x) && OnAcq(x)
    ensures Only(s, Next(s, x), x.a) && Moves(s, Next(s, x), x)
  {
    match x
    case Connect(a, c) => ConnectMoves(s, a, c);
    case ScopeSet(a) => ScopedOnly(s, a);
    case Wake(a) =>
      if s.acqs[a].stage.on < |s.slots| {
        TriedOnly(s, a, s.acqs[a].stage.on);
      }
    case Count(a) => CountedOnly(s, a, s.acqs[a].stage.slot);
    case _ => SimpleMoves(s, x);
  }

  lemma ConnectMoves(s: State, a: nat, c: nat)
    requires ScopeInv(s) && Enabled(s, Connect(a, c))
    ensures Only(s, Next(s, Connect(a, c)), a) && Moves(s, Next(s, Connect(a, c)), Connect(a, c))
  {
  }

  lemma SimpleMoves(s: State, x: Action)
    requires ScopeInv(s) && Enabled(s, x)
    requires x.ConnectFails? || x.ScopeFails? || x.TimeOut? || x.Release? || x.ResetDone? || x.ResetFails?
    ensures Only(s, Next(s, x), x.a) && Moves(s, Next(s, x), x)
  {
  }

  lemma ApartMoves(s: State, s': State, x: Action)
    requires ScopeInv(s) && Enabled(s, x) && OnAcq(x) && Only(s, s', x.a) && Moves(s, s', x)
    ensures Apart(s'.acqs)
  {
  }

  lemma IdleMoves(s: State, s': State, x: Action)
    requires ScopeInv(s) && Enabled(s, x) && OnAcq(x) && Only(s, s', x.a) && Moves(s, s', x)
    ensures IdleOk(s')
  {
    assert AcqOk(s, s.acqs[x.a]);
  }

  lemma OthersMove(s: State, s': State, x: Action, b: nat)
    requires ScopeInv(s) && Enabled(s, x) && OnAcq(x) && Only(s, s', x.a) && Moves(s, s', x)
    requires b < |s.acqs| && b != x.a
    ensures AcqOk(s', s'.acqs[b])
  {
  }

  lemma SelfMoves(s: State, s': State, x: Action)
    requires ScopeInv(s) && Enabled(s, x) && OnAcq(x) && Only(s, s', x.a) && Moves(s, s', x)
    ensures AcqOk(s', s'.acqs[x.a])
  {
  }

  lemma ScopeStep(s: State, x: Action)
    requires ScopeInv(s) && Enabled(s, x)
    ensures ScopeInv(Next(s, x))
  {
    if OnAcq(x) {
      StepMoves(s, x);
      MovesKeepScope(s, Next(s, x), x);
    } else if x.OpenRun? || x.Call? || x.Evict? {
      ScopeKept(s, x);
    } else {
      SlotsOnly(s, x);
      SameScope(s, Next(s, x));
    }
  }

  lemma MovesKeepScope(s: State, s': State, x: Action)
    requires ScopeInv(s) && Enabled(s, x) && OnAcq(x) && Only(s, s', x.a) && Moves(s, s', x)
    ensures ScopeInv(s')
  {
    ApartMoves(s, s', x);
    IdleMoves(s, s', x);
    SelfMoves(s, s', x);
    forall b | 0 <= b < |s'.acqs| && b != x.a ensures AcqOk(s', s'.acqs[b]) {
      OthersMove(s, s', x, b);
    }
  }

  lemma SlotsOnly(s: State, x: Action)
    requires Enabled(s, x) && (x.Register? || x.UpdateCap? || x.Deregister?)
    ensures var s' := Next(s, x);
            s'.conns == s.conns && s'.unreset == s.unreset && s'.acqs == s.acqs && s'.runs == s.runs
  {
  }

  lemma SameScope(s: State, s': State)
    requires ScopeInv(s) && s'.conns == s.conns && s'.unreset == s.unreset && s'.acqs == s.acqs && s'.runs == s.runs
    ensures ScopeInv(s')
  {
  }

  lemma ScopeKept(s: State, x: Action)
    requires ScopeInv(s) && Enabled(s, x) && (x.OpenRun? || x.Call? || x.Evict?)
    ensures ScopeInv(Next(s, x))
  {
    var s' := Next(s, x);
    forall a | 0 <= a < |s'.acqs| ensures AcqOk(s', s'.acqs[a]) {
      assert a < |s.acqs| ==> AcqOk(s, s.acqs[a]);
    }
  }

  // ---------------------------------------------------------------- counting

  datatype Query = Busy | ChargedTo(i: nat) | HeldOn(i: nat) | GrantedOn(i: nat) | LeakedOn(i: nat) | HandedTo(r: nat)

  predicate Fits(acq: Acq, q: Query) {
    match q
    case Busy => HasConn(acq.stage)
    case ChargedTo(i) => (acq.stage.Held? || acq.stage.Granted? || acq.stage.Threw?) && acq.stage.slot == Some(i)
    case HeldOn(i) => acq.stage == Held(Some(i))
    case GrantedOn(i) => acq.stage == Granted(Some(i))
    case LeakedOn(i) => acq.stage == Threw(Some(i))
    case HandedTo(r) => acq.ctx == Some(r) && IsHanded(acq.stage)
  }

  predicate IsHanded(stage: Stage) {
    stage.Held? || stage == Resetting || stage == Released
  }

  function One(b: bool): nat {
    if b then 1 else 0
  }

  function Tally(acqs: seq<Acq>, q: Query): nat {
    if acqs == [] then 0 else Tally(acqs[..|acqs| - 1], q) + One(Fits(acqs[|acqs| - 1], q))
  }

  lemma {:induction false} TallyUpdate(acqs: seq<Acq>, a: nat, acq: Acq, q: Query)
    requires a < |acqs|
    ensures Tally(acqs[a := acq], q) + One(Fits(acqs[a], q)) == Tally(acqs, q) + One(Fits(acq, q))
    decreases |acqs|
  {
    var n := |acqs| - 1;
    if a < n {
      assert acqs[a := acq][..n] == acqs[..n][a := acq];
      TallyUpdate(acqs[..n], a, acq, q);
    } else {
      assert acqs[a := acq][..n] == acqs[..n];
    }
  }

  lemma TallyAppend(acqs: seq<Acq>, acq: Acq, q: Query)
    ensures Tally(acqs + [acq], q) == Tally(acqs, q) + One(Fits(acq, q))
  {
  }

  lemma {:induction false} TallyNone(acqs: seq<Acq>, q: Query)
    requires forall a :: 0 <= a < |acqs| ==> !Fits(acqs[a], q)
    ensures Tally(acqs, q) == 0
    decreases |acqs|
  {
    if acqs != [] {
      TallyNone(acqs[..|acqs| - 1], q);
    }
  }

  lemma {:induction false} TallySome(acqs: seq<Acq>, a: nat, q: Query)
    requires a < |acqs| && Fits(acqs[a], q)
    ensures Tally(acqs, q) >= 1
    decreases |acqs|
  {
    if a < |acqs| - 1 {
      TallySome(acqs[..|acqs| - 1], a, q);
    }
  }

  lemma {:induction false} ChargedSplits(acqs: seq<Acq>, i: nat)
    ensures Tally(acqs, ChargedTo(i)) == Tally(acqs, HeldOn(i)) + Tally(acqs, GrantedOn(i)) + Tally(acqs, LeakedOn(i))
    decreases |acqs|
  {
    if acqs != [] {
      ChargedSplits(acqs[..|acqs| - 1], i);
    }
  }

  function OutCount(conns: seq<Conn>): nat {
    if conns == [] then 0 else OutCount(conns[..|conns| - 1]) + One(conns[|conns| - 1].place == Out)
  }

  lemma {:induction false} OutUpdate(conns: seq<Conn>, c: nat, conn: Conn)
    requires c < |conns|
    ensures OutCount(conns[c := conn]) + One(conns[c].place == Out) == OutCount(conns) + One(conn.place == Out)
    decreases |conns|
  {
    var n := |conns| - 1;
    if c < n {
      assert conns[c := conn][..n] == conns[..n][c := conn];
      OutUpdate(conns[..n], c, conn);
    } else {
      assert conns[c := conn][..n] == conns[..n];
    }
  }

  // ---------------------------------------------------------------- the pool

  ghost predicate PoolInv(s: State) {
    OutCount(s.conns) == Tally(s.acqs, Busy)
  }

  lemma OnlyUpdates(s: State, s': State, a: nat)
    requires a < |s.acqs| && Only(s, s', a)
    ensures s'.acqs == s.acqs[a := s'.acqs[a]]
  {
  }

  /** Connections checked out and acquisitions that have one change together. */
  lemma PoolMoves(s: State, s': State, x: Action)
    requires ScopeInv(s) && PoolInv(s) && Enabled(s, x) && OnAcq(x) && Only(s, s', x.a) && Moves(s, s', x)
    ensures PoolInv(s')
  {
    OnlyUpdates(s, s', x.a);
    TallyUpdate(s.acqs, x.a, s'.acqs[x.a], Busy);
    OutMoves(s, s', x);
  }

  lemma OutMoves(s: State, s': State, x: Action)
    requires ScopeInv(s) && Enabled(s, x) && OnAcq(x) && Only(s, s', x.a) && Moves(s, s', x)
    ensures OutCount(s'.conns) + One(HasConn(s.acqs[x.a].stage)) == OutCount(s.conns) + One(HasConn(s'.acqs[x.a].stage))
  {
    assert AcqOk(s, s.acqs[x.a]);
    var c := s'.acqs[x.a].conn;
    if c < |s.conns| {
      if s'.conns != s.conns {
        OutUpdate(s.conns, c, s'.conns[c]);
        assert s'.conns == s.conns[c := s'.conns[c]];
      }
    } else if x.Connect? {
      assert s'.conns[..|s.conns|] == s.conns;
    }
  }

  lemma PoolStep(s: State, x: Action)
    requires ScopeInv(s) && PoolInv(s) && Enabled(s, x)
    ensures PoolInv(Next(s, x))
  {
    if OnAcq(x) {
      StepMoves(s, x);
      PoolMoves(s, Next(s, x), x);
    } else if x.Call? {
      TallyAppend(s.acqs, Acq(x.ctx, 0, Opening), Busy);
    } else if x.Evict? {
      OutUpdate(s.conns, x.c, Conn("", Gone));
    } else if !x.OpenRun? {
      SlotsOnly(s, x);
    }
  }

  // ---------------------------------------------------------------- the query limit

  function Min(a: nat, b: nat): nat {
    if a < b then a else b
  }

  /** A run is handed a connection for each query counted, up to the limit. */
  ghost predicate RunInv(s: State) {
    forall r :: 0 <= r < |s.runs| ==> Tally(s.acqs, HandedTo(r)) == Min(s.runs[r].count, QUERY_LIMIT)
  }

  lemma RunCounted(s: State, a: nat, slot: Option<nat>)
    requires RunInv(s) && a < |s.acqs| && !IsHanded(s.acqs[a].stage) && ValidCtx(s, s.acqs[a].ctx)
    ensures RunInv(Counted(s, a, slot))
  {
    var s' := Counted(s, a, slot);
    CountedOnly(s, a, slot);
    OnlyUpdates(s, s', a);
    forall r | 0 <= r < |s'.runs| ensures Tally(s'.acqs, HandedTo(r)) == Min(s'.runs[r].count, QUERY_LIMIT) {
      TallyUpdate(s.acqs, a, s'.acqs[a], HandedTo(r));
    }
  }

  lemma RunConnect(s: State, a: nat, c: nat)
    requires RunInv(s) && Enabled(s, Connect(a, c)) && ValidCtx(s, s.acqs[a].ctx)
    ensures RunInv(Connected(s, a, c))
  {
    var conns := if c < |s.conns| then s.conns[c := s.conns[c].(place := Out)] else s.conns + [Conn("", Out)];
    var s1 := s.(conns := conns, acqs := s.acqs[a := s.acqs[a].(conn := c)]);
    RunUnchanged(s, s1, a);
    if TenantIn(s, s.acqs[a].ctx) == "" {
      RunCounted(s1, a, None);
    } else {
      RunUnchanged(s1, Connected(s, a, c), a);
    }
  }

  lemma RunUnchanged(s: State, s': State, a: nat)
    requires RunInv(s) && a < |s.acqs| && a < |s'.acqs| && s'.runs == s.runs && s'.acqs == s.acqs[a := s'.acqs[a]]
    requires s'.acqs[a].ctx == s.acqs[a].ctx && (IsHanded(s.acqs[a].stage) <==> IsHanded(s'.acqs[a].stage))
    ensures RunInv(s')
  {
    forall r | 0 <= r < |s'.runs| ensures Tally(s'.acqs, HandedTo(r)) == Tally(s.acqs, HandedTo(r)) {
      TallyUpdate(s.acqs, a, s'.acqs[a], HandedTo(r));
    }
  }

  lemma RunStep(s: State, x: Action)
    requires ScopeInv(s) && RunInv(s) && Enabled(s, x)
    ensures RunInv(Next(s, x))
  {
    if OnAcq(x) {
      assert AcqOk(s, s.acqs[x.a]);
      if x.Connect? {
        RunConnect(s, x.a, x.c);
      } else if x.Count? {
        RunCounted(s, x.a, s.acqs[x.a].stage.slot);
      } else {
        RunKept(s, x);
        RunUnchanged(s, Next(s, x), x.a);
      }
    } else if x.Call? {
      forall r | 0 <= r < |s.runs| ensures Tally(Next(s, x).acqs, HandedTo(r)) == Tally(s.acqs, HandedTo(r)) {
        TallyAppend(s.acqs, Acq(x.ctx, 0, Opening), HandedTo(r));
      }
    } else if x.OpenRun? {
      forall a | 0 <= a < |s.acqs| ensures !Fits(s.acqs[a], HandedTo(|s.runs|)) {
        assert AcqOk(s, s.acqs[a]);
      }
      TallyNone(s.acqs, HandedTo(|s.runs|));
    } else if !x.Evict? {
      SlotsOnly(s, x);
    }
  }

  lemma RunKept(s: State, x: Action)
    requires ScopeInv(s) && Enabled(s, x) && OnAcq(x) && !x.Connect? && !x.Count?
    ensures var s' := Next(s, x);
            && s'.runs == s.runs && |s'.acqs| == |s.acqs| && s'.acqs == s.acqs[x.a := s'.acqs[x.a]]
            && s'.acqs[x.a].ctx == s.acqs[x.a].ctx
            && (IsHanded(s.acqs[x.a].stage) <==> IsHanded(s'.acqs[x.a].stage))
  {
    StepMoves(s, x);
    OnlyUpdates(s, Next(s, x), x.a);
  }

  // ---------------------------------------------------------------- the slots

  /** Slots referred to exist and are the tenant's. */
  ghost predicate SlotRefs(s: State) {
    && (forall t :: t in s.live ==> s.live[t] < |s.slots| && s.slots[s.live[t]].owner == t)
    && (forall a :: 0 <= a < |s.acqs| ==> SlotRefOk(s, s.acqs[a]))
  }

  ghost predicate SlotRefOk(s: State, acq: Acq) {
    && (acq.stage.Waiting? ==> IsSlotOf(s, acq.stage.on, TenantIn(s, acq.ctx)))
    && ((acq.stage.Granted? || acq.stage.Held? || acq.stage.Threw?) && acq.stage.slot.Some? ==>
          IsSlotOf(s, acq.stage.slot.value, TenantIn(s, acq.ctx)))
  }

  ghost predicate IsSlotOf(s: State, i: nat, t: Tenant) {
    i < |s.slots| && s.slots[i].owner == t
  }

  ghost predicate OneSlot(s: State) {
    forall i :: 0 <= i < |s.slots| && s.slots[i].owner !in s.spoilt ==>
      s.slots[i].owner in s.live && s.live[s.slots[i].owner] == i
  }

  ghost predicate Exact(s: State, t: Tenant) {
    t in s.live && t !in s.spoilt && t != "" && s.live[t] < |s.slots| ==>
      s.slots[s.live[t]].current == Tally(s.acqs, ChargedTo(s.live[t])) && !PassedBy(s, t)
  }

  ghost predicate SlotInv(s: State) {
    SlotRefs(s) && OneSlot(s) && forall t :: t in s.live ==> Exact(s, t)
  }

  lemma PassedUpdate(s: State, s': State, a: nat, t: Tenant)
    requires a < |s.acqs| && Only(s, s', a) && PassedBy(s', t)
    requires IsUncharged(s'.acqs[a].stage) ==> IsUncharged(s.acqs[a].stage) || TenantIn(s, s.acqs[a].ctx) != t
    ensures PassedBy(s, t)
  {
  }

  /** A step of a that leaves the slots alone and neither charges nor passes anyone new. */
  lemma SlotsUntouched(s: State, s': State, a: nat)
    requires SlotInv(s) && a < |s.acqs| && Only(s, s', a)
    requires s'.slots == s.slots && s'.live == s.live && s'.spoilt == s.spoilt
    requires SlotRefOk(s, s'.acqs[a])
    requires forall i :: Fits(s.acqs[a], ChargedTo(i)) <==> Fits(s'.acqs[a], ChargedTo(i))
    requires (IsUncharged(s'.acqs[a].stage) ==>
                || IsUncharged(s.acqs[a].stage)
                || TenantIn(s, s.acqs[a].ctx) == "" || TenantIn(s, s.acqs[a].ctx) !in s.live)
    ensures SlotInv(s')
  {
    OnlyUpdates(s, s', a);
    forall b | 0 <= b < |s'.acqs| ensures SlotRefOk(s', s'.acqs[b]) {
      assert b != a ==> SlotRefOk(s, s.acqs[b]);
    }
    forall t | t in s'.live ensures Exact(s', t) {
      assert Exact(s, t);
      TallyUpdate(s.acqs, a, s'.acqs[a], ChargedTo(s.live[t]));
      if t !in s.spoilt && t != "" && PassedBy(s', t) {
        PassedUpdate(s, s', a, t);
      }
    }
  }

  lemma SlotsTried(s: State, a: nat, i: nat)
    requires SlotInv(s) && a < |s.acqs| && IsSlotOf(s, i, TenantIn(s, s.acqs[a].ctx))
    requires s.acqs[a].stage == Scoping || s.acqs[a].stage.Waiting?
    ensures SlotInv(Tried(s, a, i))
  {
    var s' := Tried(s, a, i);
    TriedOnly(s, a, i);
    if Full(s, i) {
      SlotsUntouched(s, s', a);
    } else {
      SlotsCharged(s, a, i);
    }
  }

  lemma SlotsCharged(s: State, a: nat, i: nat)
    requires SlotInv(s) && a < |s.acqs| && IsSlotOf(s, i, TenantIn(s, s.acqs[a].ctx)) && !Full(s, i)
    requires s.acqs[a].stage == Scoping || s.acqs[a].stage.Waiting?
    ensures SlotInv(Tried(s, a, i))
  {
    var s' := Tried(s, a, i);
    assert forall j :: 0 <= j < |s.slots| ==> s'.slots[j].owner == s.slots[j].owner;
    TriedOnly(s, a, i);
    OnlyUpdates(s, s', a);
    forall b | 0 <= b < |s'.acqs| ensures SlotRefOk(s', s'.acqs[b]) {
      assert SlotRefOk(s, s.acqs[b]);
    }
    forall t | t in s'.live ensures Exact(s', t) {
      assert Exact(s, t);
      TallyUpdate(s.acqs, a, s'.acqs[a], ChargedTo(s.live[t]));
      if t !in s.spoilt && t != "" && PassedBy(s', t) {
        PassedUpdate(s, s', a, t);
      }
    }
  }

  lemma SlotsNew(s: State, t: Tenant, max: nat)
    requires SlotInv(s)
    ensures SlotInv(NewSlot(s, t, max))
  {
    var s' := NewSlot(s, t, max);
    var n := |s.slots|;
    assert forall j :: 0 <= j < n ==> s'.slots[j] == s.slots[j];
    forall b | 0 <= b < |s'.acqs| ensures SlotRefOk(s', s'.acqs[b]) {
      assert SlotRefOk(s, s.acqs[b]);
    }
    forall u | u in s'.live ensures Exact(s', u) {
      if u != t {
        assert Exact(s, u);
        assert PassedBy(s', u) <==> PassedBy(s, u);
      } else {
        ChargedFresh(s);
        assert PassedBy(s', t) <==> PassedBy(s, t);
      }
    }
    forall i | 0 <= i < n && s.slots[i].owner !in s'.spoilt ensures s.slots[i].owner != t {
      assert s.slots[i].owner == t ==> HadSlot(s, t);
    }
  }

  lemma ChargedFresh(s: State)
    requires SlotRefs(s)
    ensures Tally(s.acqs, ChargedTo(|s.slots|)) == 0
  {
    forall a | 0 <= a < |s.acqs| ensures !Fits(s.acqs[a], ChargedTo(|s.slots|)) {
      assert SlotRefOk(s, s.acqs[a]);
    }
    TallyNone(s.acqs, ChargedTo(|s.slots|));
  }

  lemma SlotsDropped(s: State, t: Tenant)
    requires SlotInv(s)
    ensures SlotInv(DropSlot(s, t))
  {
  }

  lemma SlotsCapped(s: State, t: Tenant, max: nat)
    requires SlotInv(s) && t in s.live && s.live[t] < |s.slots|
    ensures SlotInv(s.(slots := s.slots[s.live[t] := Recapped(s.slots[s.live[t]], max)]))
  {
  }

  /** A release in its own context takes one from the live slot, which is the slot that was charged. */
  lemma SlotsReleased(s: State, a: nat, ctx: Option<nat>)
    requires SlotInv(s) && Enabled(s, Release(a, ctx))
    ensures SlotInv(Next(s, Release(a, ctx)))
  {
    var s' := Next(s, Release(a, ctx));
    var t, t' := TenantIn(s, s.acqs[a].ctx), TenantIn(s, ctx);
    assert Only(s, s', a);
    OnlyUpdates(s, s', a);
    assert SlotRefOk(s, s.acqs[a]);
    assert forall j :: 0 <= j < |s.slots| ==> s'.slots[j].owner == s.slots[j].owner;
    forall b | 0 <= b < |s'.acqs| ensures SlotRefOk(s', s'.acqs[b]) {
      assert SlotRefOk(s, s.acqs[b]);
    }
    forall u | u in s'.live ensures Exact(s', u) {
      if u !in s'.spoilt && u != "" {
        ReleaseExact(s, a, ctx, u);
      }
    }
  }

  lemma ReleaseExact(s: State, a: nat, ctx: Option<nat>, u: Tenant)
    requires SlotInv(s) && Enabled(s, Release(a, ctx)) && u in s.live && u != ""
    requires u !in Next(s, Release(a, ctx)).spoilt
    ensures Exact(Next(s, Release(a, ctx)), u)
  {
    var s' := Next(s, Release(a, ctx));
    var t := TenantIn(s, s.acqs[a].ctx);
    assert Only(s, s', a);
    OnlyUpdates(s, s', a);
    assert Exact(s, u) && SlotRefOk(s, s.acqs[a]);
    TallyUpdate(s.acqs, a, s'.acqs[a], ChargedTo(s.live[u]));
    if PassedBy(s', u) {
      PassedUpdate(s, s', a, u);
    }
    if u == t {
      if s.acqs[a].stage.slot == None {
        UnchargedPasses(s, a);
        assert false;
      }
      assert s.slots[s.acqs[a].stage.slot.value].owner == t;
      TallySome(s.acqs, a, ChargedTo(s.live[u]));
    }
  }

  lemma UnchargedPasses(s: State, a: nat)
    requires a < |s.acqs| && IsUncharged(s.acqs[a].stage)
    ensures PassedBy(s, TenantIn(s, s.acqs[a].ctx))
  {
  }

  lemma SlotsConnected(s: State, a: nat, c: nat)
    requires ScopeInv(s) && SlotInv(s) && Enabled(s, Connect(a, c))
    ensures SlotInv(Connected(s, a, c))
  {
    ConnectMoves(s, a, c);
    assert AcqOk(s, s.acqs[a]);
    SlotsUntouched(s, Connected(s, a, c), a);
  }

  lemma SlotsCounted(s: State, a: nat)
    requires SlotInv(s) && Enabled(s, Count(a))
    ensures SlotInv(Next(s, Count(a)))
  {
    CountedOnly(s, a, s.acqs[a].stage.slot);
    assert SlotRefOk(s, s.acqs[a]);
    SlotsUntouched(s, Next(s, Count(a)), a);
  }

  lemma SameSlots(s: State, s': State)
    requires SlotInv(s) && s'.acqs == s.acqs && s'.runs == s.runs
    requires s'.slots == s.slots && s'.live == s.live && s'.spoilt == s.spoilt
    ensures SlotInv(s')
  {
  }

  lemma SlotsScoped(s: State, a: nat)
    requires ScopeInv(s) && SlotInv(s) && Enabled(s, ScopeSet(a))
    ensures SlotInv(Next(s, ScopeSet(a)))
  {
    var ctx := s.acqs[a].ctx;
    var t := TenantIn(s, ctx);
    assert AcqOk(s, s.acqs[a]);
    var tier := s.runs[ctx.value].tier;
    var s1 := WithConn(s, s.acqs[a].conn, Conn(t, Out));
    SameSlots(s, s1);
    var s2 := if tier != "" && t !in s.live && Quota.Cap(tier).Some? then NewSlot(s1, t, Quota.Cap(tier).value) else s1;
    if s2 != s1 {
      SlotsNew(s1, t, Quota.Cap(tier).value);
    }
    if t in s2.live {
      SlotsTried(s2, a, s2.live[t]);
    } else {
      SlotsUntouched(s2, WithStage(s2, a, Granted(None)), a);
    }
  }

  lemma SlotsSimple(s: State, x: Action)
    requires ScopeInv(s) && SlotInv(s) && Enabled(s, x)
    requires x.ConnectFails? || x.ScopeFails? || x.TimeOut? || x.ResetDone? || x.ResetFails?
    ensures SlotInv(Next(s, x))
  {
    StepMoves(s, x);
    SlotsUntouched(s, Next(s, x), x.a);
  }

  lemma SlotsKept(s: State, x: Action)
    requires ScopeInv(s) && SlotInv(s) && Enabled(s, x) && (x.OpenRun? || x.Call?)
    ensures SlotInv(Next(s, x))
  {
    var s' := Next(s, x);
    forall b | 0 <= b < |s.acqs| ensures TenantIn(s', s.acqs[b].ctx) == TenantIn(s, s.acqs[b].ctx) {
      assert AcqOk(s, s.acqs[b]);
    }
    forall b | 0 <= b < |s'.acqs| ensures SlotRefOk(s', s'.acqs[b]) {
      assert b < |s.acqs| ==> SlotRefOk(s, s.acqs[b]);
    }
    forall u | u in s'.live ensures Exact(s', u) {
      assert Exact(s, u);
      if x.Call? {
        TallyAppend(s.acqs, Acq(x.ctx, 0, Opening), ChargedTo(s.live[u]));
      }
      assert PassedBy(s', u) <==> PassedBy(s, u);
    }
  }

  lemma SlotStep(s: State, x: Action)
    requires ScopeInv(s) && SlotInv(s) && Enabled(s, x)
    ensures SlotInv(Next(s, x))
  {
    match x
    case OpenRun(_, _) => SlotsKept(s, x);
    case Call(_) => SlotsKept(s, x);
    case Connect(a, c) => SlotsConnected(s, a, c);
    case ScopeSet(a) => SlotsScoped(s, a);
    case Wake(a) =>
      assert SlotRefOk(s, s.acqs[a]);
      SlotsTried(s, a, s.acqs[a].stage.on);
    case Count(a) => SlotsCounted(s, a);
    case Release(a, ctx) => SlotsReleased(s, a, ctx);
    case Evict(c) => SameSlots(s, Next(s, x));
    case Register(t, cap) =>
      if cap.Some? {
        SlotsNew(s, t, cap.value);
      }
    case UpdateCap(t, cap) =>
      if cap == None {
        SlotsDropped(s, t);
      } else if t in s.live {
        SlotsCapped(s, t, cap.value);
      } else {
        SlotsNew(s, t, cap.value);
      }
    case Deregister(t) => SlotsDropped(s, t);
    case _ => SlotsSimple(s, x);
  }

  // ---------------------------------------------------------------- the cap

  /** A step charges a slot by one at most, and only from below its cap; only a new cap changes the cap. */
  lemma StepWithinCap(s: State, x: Action, i: nat)
    requires CapInv(s) && Enabled(s, x) && i < |s.slots|
    ensures var s' := Next(s, x);
            && i < |s'.slots| && s'.slots[i].owner == s.slots[i].owner
            && (s'.slots[i].current > s.slots[i].current ==>
                  && s'.slots[i].current == s.slots[i].current + 1 <= s.slots[i].max
                  && (x.ScopeSet? || x.Wake?) && At(s', x.a, Granted(Some(i))))
            && (s'.slots[i].current < s.slots[i].current ==>
                  s'.slots[i].current == s.slots[i].current - 1 && x.Release?)
            && (s'.slots[i].max != s.slots[i].max ==>
                  x.UpdateCap? && x.t in s.live && s.live[x.t] == i && x.cap == Some(s'.slots[i].max))
            && s'.slots[i].peak == Quota.Max(s.slots[i].peak, s'.slots[i].max)
  {
    if x.ScopeSet? || x.Wake? || x.Release? {
      GrantsWithinCap(s, x, i);
    } else if x.Register? || x.UpdateCap? || x.Deregister? {
      CapsWithinCap(s, x, i);
    } else {
      SlotsAreKept(s, x);
    }
  }

  lemma SlotsAreKept(s: State, x: Action)
    requires Enabled(s, x) && !x.ScopeSet? && !x.Wake? && !x.Release? && !x.Register? && !x.UpdateCap? && !x.Deregister?
    ensures Next(s, x).slots == s.slots
  {
  }

  lemma GrantsWithinCap(s: State, x: Action, i: nat)
    requires CapInv(s) && Enabled(s, x) && i < |s.slots|
    requires x.ScopeSet? || x.Wake? || x.Release?
    ensures var s' := Next(s, x);
            && i < |s'.slots| && s'.slots[i].owner == s.slots[i].owner
            && (s'.slots[i].current > s.slots[i].current ==>
                  && s'.slots[i].current == s.slots[i].current + 1 <= s.slots[i].max
                  && (x.ScopeSet? || x.Wake?) && At(s', x.a, Granted(Some(i))))
            && (s'.slots[i].current < s.slots[i].current ==>
                  s'.slots[i].current == s.slots[i].current - 1 && x.Release?)
            && (s'.slots[i].max != s.slots[i].max ==>
                  x.UpdateCap? && x.t in s.live && s.live[x.t] == i && x.cap == Some(s'.slots[i].max))
            && s'.slots[i].peak == Quota.Max(s.slots[i].peak, s'.slots[i].max)
  {
  }

  lemma CapsWithinCap(s: State, x: Action, i: nat)
    requires CapInv(s) && Enabled(s, x) && i < |s.slots|
    requires x.Register? || x.UpdateCap? || x.Deregister?
    ensures var s' := Next(s, x);
            && i < |s'.slots| && s'.slots[i].owner == s.slots[i].owner
            && (s'.slots[i].current > s.slots[i].current ==>
                  && s'.slots[i].current == s.slots[i].current + 1 <= s.slots[i].max
                  && (x.ScopeSet? || x.Wake?) && At(s', x.a, Granted(Some(i))))
            && (s'.slots[i].current < s.slots[i].current ==>
                  s'.slots[i].current == s.slots[i].current - 1 && x.Release?)
            && (s'.slots[i].max != s.slots[i].max ==>
                  x.UpdateCap? && x.t in s.live && s.live[x.t] == i && x.cap == Some(s'.slots[i].max))
            && s'.slots[i].peak == Quota.Max(s.slots[i].peak, s'.slots[i].max)
  {
  }

  /** A slot the step makes is empty, or charged once, within its cap. */
  lemma NewWithinCap(s: State, x: Action, i: nat)
    requires Enabled(s, x) && |s.slots| <= i < |Next(s, x).slots|
    ensures Next(s, x).slots[i].current <= Next(s, x).slots[i].max == Next(s, x).slots[i].peak
    ensures Next(s, x).slots[i].current > 0 ==> x.ScopeSet?
  {
  }

  /** No slot counts more than the largest cap it was given. */
  ghost predicate CapInv(s: State) {
    forall i :: 0 <= i < |s.slots| ==> s.slots[i].current <= s.slots[i].peak && s.slots[i].max <= s.slots[i].peak
  }

  /** A release takes one from the live slot of the tenant of the context it is made in, not below zero,
      and nothing from any other. */
  lemma ReleaseDischarges(s: State, a: nat, ctx: Option<nat>, i: nat)
    requires Enabled(s, Release(a, ctx)) && i < |s.slots|
    ensures var s', t := Next(s, Release(a, ctx)), TenantIn(s, ctx);
            && |s'.slots| == |s.slots|
            && s'.slots[i] == (if t != "" && t in s.live && s.live[t] == i && s.slots[i].current > 0
                               then s.slots[i].(current := s.slots[i].current - 1) else s.slots[i])
  {
  }

  /** What the quota's other operations do to the slots: a registration makes an empty one, in place of
      the old; a new cap goes to the slot there is. */
  lemma QuotaOperations(s: State, x: Action, u: Tenant)
    requires SlotRefs(s) && Enabled(s, x) && (x.Register? || x.UpdateCap? || x.Deregister?)
    ensures var s' := Next(s, x);
            var isNew := (x.Register? || (x.UpdateCap? && x.t !in s.live)) && x.cap.Some?;
            var isGone := x.Deregister? || (x.UpdateCap? && x.cap == None);
            && (isNew ==> s'.live == s.live[x.t := |s.slots|]
                          && s'.slots == s.slots + [SlotRecord(x.t, 0, x.cap.value, x.cap.value)])
            && (isGone ==> s'.live == s.live - {x.t} && s'.slots == s.slots)
            && (!isNew && !isGone ==> s'.live == s.live && |s'.slots| == |s.slots|)
            && (x.UpdateCap? && x.t in s.live && x.cap.Some? ==> s'.slots[s.live[x.t]].max == x.cap.value)
  {
  }

  /** The tenant had a slot before, or has connections that none is charged for. */
  ghost predicate HasPast(s: State, t: Tenant) {
    || (exists i :: 0 <= i < |s.slots| && s.slots[i].owner == t)
    || (exists a :: 0 <= a < |s.acqs| && (s.acqs[a].stage == Granted(None) || s.acqs[a].stage == Held(None))
                    && TenantIn(s, s.acqs[a].ctx) == t)
  }

  /** How a tenant leaves the scope of SlotConservation: its slot is replaced or removed, or made beside
      connections without one, or a connection is released across its context. */
  lemma SpoiltOnlyBy(s: State, x: Action, t: Tenant)
    requires SlotRefs(s) && Enabled(s, x) && t !in s.spoilt && t in Next(s, x).spoilt
    ensures || ((x.Register? || x.UpdateCap?) && x.t == t && x.cap.Some? && HasPast(s, t))
            || (x.ScopeSet? && TenantIn(s, s.acqs[x.a].ctx) == t && t !in s.live && HasPast(s, t))
            || ((x.Deregister? || x.UpdateCap?) && x.t == t && t in s.live)
            || (x.Release? && TenantIn(s, s.acqs[x.a].ctx) != TenantIn(s, x.ctx)
                && t in {TenantIn(s, s.acqs[x.a].ctx), TenantIn(s, x.ctx)})
  {
  }

  /** A context is opened for its tenant and tier with no query counted. */
  lemma RunOpens(s: State, tenant: Tenant, tier: string)
    ensures Next(s, OpenRun(tenant, tier)).runs == s.runs + [Run(tenant, tier, 0)]
  {
  }

  lemma CapStep(s: State, x: Action)
    requires CapInv(s) && Enabled(s, x)
    ensures CapInv(Next(s, x))
  {
    hide Next, Enabled;
    forall i | 0 <= i < |Next(s, x).slots|
      ensures Next(s, x).slots[i].current <= Next(s, x).slots[i].peak
      ensures Next(s, x).slots[i].max <= Next(s, x).slots[i].peak
    {
      if i < |s.slots| {
        StepWithinCap(s, x, i);
      } else {
        NewWithinCap(s, x, i);
      }
    }
  }

  /** What runs when the tenant was set: on first sight of a tenant with a capped tier, a slot with that
      cap; then the slot that is live is the one captured, and without one the cap lets it pass. */
  lemma ScopedCaptures(s: State, a: nat)
    requires SlotRefs(s) && Enabled(s, ScopeSet(a)) && ValidCtx(s, s.acqs[a].ctx) && s.acqs[a].ctx.Some?
    ensures (var s', t, tier := Next(s, ScopeSet(a)), TenantIn(s, s.acqs[a].ctx), s.runs[s.acqs[a].ctx.value].tier;
             && (t !in s.live && tier != "" && Quota.Cap(tier).Some? ==>
                   t in s'.live && s'.live[t] == |s.slots| && |s'.slots| == |s.slots| + 1
                   && s'.slots[|s.slots|].max == Quota.Cap(tier).value && s'.slots[|s.slots|].owner == t)
             && (t in s.live || tier == "" || Quota.Cap(tier) == None ==> s'.live == s.live && |s'.slots| == |s.slots|)
             && (forall u :: u != t ==> (u in s'.live <==> u in s.live) && (u in s.live ==> s'.live[u] == s.live[u]))
             && (if t in s'.live then At(s', a, Waiting(s'.live[t])) || At(s', a, Granted(Some(s'.live[t])))
                 else At(s', a, Granted(None))))
  {
  }

  // ---------------------------------------------------------------- runs of the machine

  ghost predicate Inv(s: State) {
    ScopeInv(s) && PoolInv(s) && RunInv(s) && SlotInv(s) && CapInv(s)
  }

  lemma InvStep(s: State, x: Action)
    requires Inv(s) && Enabled(s, x)
    ensures Inv(Next(s, x))
  {
    hide ScopeInv, PoolInv, RunInv, SlotInv, CapInv, Next, Enabled;
    ScopeStep(s, x);
    PoolStep(s, x);
    RunStep(s, x);
    SlotStep(s, x);
    CapStep(s, x);
  }

  predicate Legal(s: State, run: seq<Action>)
    decreases |run|
  {
    run != [] ==> Enabled(s, run[0]) && Legal(Next(s, run[0]), run[1..])
  }

  function Exec(s: State, run: seq<Action>): State
    requires Legal(s, run)
    decreases |run|
  {
    if run == [] then s else Exec(Next(s, run[0]), run[1..])
  }

  ghost predicate Reachable(s: State) {
    exists s0, run :: Initial(s0) && Legal(s0, run) && Exec(s0, run) == s
  }

  lemma {:induction false} InvRun(s: State, run: seq<Action>)
    requires Inv(s) && Legal(s, run)
    ensures Inv(Exec(s, run))
    decreases |run|
  {
    if run != [] {
      InvStep(s, run[0]);
      InvRun(Next(s, run[0]), run[1..]);
    }
  }

  lemma ReachableInv(s: State)
    requires Reachable(s)
    ensures Inv(s)
  {
    var s0, run :| Initial(s0) && Legal(s0, run) && Exec(s0, run) == s;
    assert Inv(s0);
    InvRun(s0, run);
  }

  // ---------------------------------------------------------------- results

  /** A connection handed out in a tenant's context carries that tenant's id; outside one it carries an
      id exactly when a release left it one.  No one else holds it. */
  lemma HeldCarriesHolder(s: State, a: nat)
    requires Reachable(s) && a < |s.acqs| && s.acqs[a].stage.Held?
    ensures var c, t := s.acqs[a].conn, TenantIn(s, s.acqs[a].ctx);
            && c < |s.conns| && s.conns[c].place == Out
            && (if t == "" then s.conns[c].setting != "" <==> c in s.unreset else s.conns[c].setting == t)
            && (s.conns[c].setting == "" || IsUuid(s.conns[c].setting))
            && forall b :: 0 <= b < |s.acqs| && b != a && HasConn(s.acqs[b].stage) ==> s.acqs[b].conn != c
  {
    ReachableInv(s);
    assert AcqOk(s, s.acqs[a]);
  }

  function Lower(c: char): char {
    if 'A' <= c <= 'Z' then c - 'A' + 'a' else c
  }

  /** Two ids that denote the same uuid. */
  predicate SameUuid(x: Tenant, y: Tenant) {
    IsUuid(x) && IsUuid(y) && forall i :: 0 <= i < 36 ==> Lower(x[i]) == Lower(y[i])
  }

  /** The number a hexadecimal digit stands for. */
  function DigitValue(c: char): nat
    requires IsHex(c)
  {
    if c <= '9' then c as int - '0' as int
    else if c <= 'F' then c as int - 'A' as int + 10
    else c as int - 'a' as int + 10
  }

  lemma SameDigit(c: char, d: char)
    requires IsHex(c) && IsHex(d)
    ensures Lower(c) == Lower(d) <==> DigitValue(c) == DigitValue(d)
  {
  }

  /** Equal as uuids is equal digit by digit, upper or lower case. */
  lemma SameUuidIff(x: Tenant, y: Tenant)
    ensures (SameUuid(x, y) <==>
               && IsUuid(x) && IsUuid(y)
               && forall i :: 0 <= i < 36 && i !in {8, 13, 18, 23} ==> DigitValue(x[i]) == DigitValue(y[i]))
  {
    if IsUuid(x) && IsUuid(y) {
      forall i | 0 <= i < 36 && i !in {8, 13, 18, 23}
        ensures Lower(x[i]) == Lower(y[i]) <==> DigitValue(x[i]) == DigitValue(y[i])
      {
        SameDigit(x[i], y[i]);
      }
    }
  }

  datatype Row = Row(tenant: Tenant, payload: nat)

  /** The policy: tenant_id = current_setting('app.tenant_id', true)::uuid.  An empty setting matches
      no row; cast from the empty string it is an error, and the query returns none. */
  predicate Visible(conn: Conn, row: Row) {
    SameUuid(row.tenant, conn.setting)
  }

  /** What a query in a tenant's context reads is exactly that tenant's rows, whatever became of the
      resets before it. */
  lemma ReadsOwnRows(s: State, a: nat, row: Row)
    requires Reachable(s) && a < |s.acqs| && s.acqs[a].stage.Held? && TenantIn(s, s.acqs[a].ctx) != ""
    ensures s.acqs[a].conn < |s.conns|
    ensures Visible(s.conns[s.acqs[a].conn], row) <==> SameUuid(row.tenant, TenantIn(s, s.acqs[a].ctx))
  {
    HeldCarriesHolder(s, a);
  }

  /** A query outside any tenant's context can read some row exactly when its connection was given back
      without a reset. */
  lemma ReadsOutsideIff(s: State, a: nat)
    requires Reachable(s) && a < |s.acqs| && s.acqs[a].stage.Held? && TenantIn(s, s.acqs[a].ctx) == ""
    ensures s.acqs[a].conn < |s.conns|
    ensures (exists row :: Visible(s.conns[s.acqs[a].conn], row)) <==> s.acqs[a].conn in s.unreset
  {
    HeldCarriesHolder(s, a);
    var conn := s.conns[s.acqs[a].conn];
    if conn.setting != "" {
      assert Visible(conn, Row(conn.setting, 0));
    }
  }

  /** Such a connection comes from a run in which a reset threw, changed nothing, and the pool kept the
      connection. */
  lemma {:induction false} UnresetByFailure(s: State, run: seq<Action>)
    requires Legal(s, run) && s.unreset == {}
    requires forall i :: 0 <= i < |run| ==> !LeavesSetting(run[i])
    ensures Exec(s, run).unreset == {}
    decreases |run|
  {
    if run != [] {
      NoneUnreset(s, run[0]);
      UnresetByFailure(Next(s, run[0]), run[1..]);
    }
  }

  predicate LeavesSetting(x: Action) {
    x.ResetFails? && !x.applied && x.kept
  }

  lemma NoneUnreset(s: State, x: Action)
    requires Enabled(s, x) && s.unreset == {} && !LeavesSetting(x)
    ensures Next(s, x).unreset == {}
  {
  }

  /** And there are such runs: a tenant's query, a reset that throws, and a query outside any context on
      the same connection. */
  lemma UnresetReadsRows(t: Tenant, row: Row) returns (s: State)
    requires IsUuid(t) && SameUuid(row.tenant, t)
    ensures Reachable(s) && |s.acqs| == 2 && s.acqs[1].stage.Held? && s.acqs[1].ctx == None && s.acqs[1].conn == 0
    ensures |s.conns| == 1 && Visible(s.conns[0], row)
  {
    hide Reachable, Enabled, Next, IsUuid, SameUuid;
    s := TenantCall(t);
    s := TenantQuery(s, t);
    s := FailedReset(s);
    s := OutsideQuery(s);
  }

  lemma ReachableStep(s: State, x: Action)
    requires Reachable(s) && Enabled(s, x)
    ensures Reachable(Next(s, x))
  {
    var s0, run :| Initial(s0) && Legal(s0, run) && Exec(s0, run) == s;
    Append(s0, run, x);
    assert Legal(s0, run + [x]);
  }

  lemma TenantCall(t: Tenant) returns (s: State)
    ensures Reachable(s)
    ensures s == State([], {}, [], map[], [Run(t, "", 0)], [Acq(Some(0), 0, Opening)], {})
  {
    s := State([], {}, [], map[], [], [], {});
    assert Initial(s) && Legal(s, []) && Exec(s, []) == s;
    hide Reachable, Legal, Exec;
    ReachableStep(s, OpenRun(t, ""));
    s := Next(s, OpenRun(t, ""));
    ReachableStep(s, Call(Some(0)));
    s := Next(s, Call(Some(0)));
  }

  lemma TenantQuery(s0: State, t: Tenant) returns (s: State)
    requires s0 == State([], {}, [], map[], [Run(t, "", 0)], [Acq(Some(0), 0, Opening)], {})
    requires Reachable(s0) && IsUuid(t)
    ensures Reachable(s)
    ensures s == State([Conn(t, Out)], {}, [], map[], [Run(t, "", 1)], [Acq(Some(0), 0, Held(None))], {})
  {
    hide Reachable, IsUuid;
    assert t != "" by {
      Nonempty(t);
    }
    ReachableStep(s0, Connect(0, 0));
    s := Next(s0, Connect(0, 0));
    ReachableStep(s, ScopeSet(0));
    s := Next(s, ScopeSet(0));
    ReachableStep(s, Count(0));
    s := Next(s, Count(0));
  }

  lemma Nonempty(t: Tenant)
    requires IsUuid(t)
    ensures t != ""
  {
  }

  lemma FailedReset(s0: State) returns (s: State)
    requires Reachable(s0) && |s0.conns| == 1 && |s0.runs| == 1 && s0.acqs == [Acq(Some(0), 0, Held(None))]
    ensures Reachable(s) && s.conns == [s0.conns[0].(place := Idle)]
    ensures s.acqs == [Acq(Some(0), 0, Released), Acq(None, 0, Opening)]
  {
    hide Reachable;
    ReachableStep(s0, Release(0, Some(0)));
    s := Next(s0, Release(0, Some(0)));
    ReachableStep(s, ResetFails(0, false, true));
    s := Next(s, ResetFails(0, false, true));
    ReachableStep(s, Call(None));
    s := Next(s, Call(None));
  }

  lemma OutsideQuery(s0: State) returns (s: State)
    requires Reachable(s0) && |s0.conns| == 1 && s0.conns[0].place == Idle
    requires s0.acqs == [Acq(Some(0), 0, Released), Acq(None, 0, Opening)]
    ensures Reachable(s) && s.conns == [s0.conns[0].(place := Out)]
    ensures s.acqs == [Acq(Some(0), 0, Released), Acq(None, 0, Held(None))]
  {
    ReachableStep(s0, Connect(1, 0));
    s := Next(s0, Connect(1, 0));
  }

  /** The slot of a tenant that was never replaced counts the connections held, those about to be
      handed out, and those lost to the query limit after the cap had let them pass. */
  lemma SlotConservation(s: State, t: Tenant)
    requires Reachable(s) && t in s.live && t !in s.spoilt && t != ""
    ensures s.live[t] < |s.slots|
    ensures var i := s.live[t];
            s.slots[i].current == Tally(s.acqs, HeldOn(i)) + Tally(s.acqs, GrantedOn(i)) + Tally(s.acqs, LeakedOn(i))
  {
    ReachableInv(s);
    assert Exact(s, t);
    ChargedSplits(s.acqs, s.live[t]);
  }

  /** So it holds no more connections than the largest cap its slot was given, each of them charged to that
      slot. */
  lemma HeldWithinCap(s: State, t: Tenant)
    requires Reachable(s) && t in s.live && t !in s.spoilt && t != ""
    ensures s.live[t] < |s.slots|
    ensures Tally(s.acqs, HeldOn(s.live[t])) <= s.slots[s.live[t]].current <= s.slots[s.live[t]].peak
    ensures forall a :: 0 <= a < |s.acqs| && s.acqs[a].stage.Held? && TenantIn(s, s.acqs[a].ctx) == t ==>
              s.acqs[a].stage == Held(Some(s.live[t]))
  {
    SlotConservation(s, t);
    ReachableInv(s);
    assert Exact(s, t);
    forall a | 0 <= a < |s.acqs| && s.acqs[a].stage.Held? && TenantIn(s, s.acqs[a].ctx) == t
      ensures s.acqs[a].stage == Held(Some(s.live[t]))
    {
      assert SlotRefOk(s, s.acqs[a]);
    }
  }

  /** So a tenant that lost as many connections to the limit as its cap allows gets no more. */
  lemma LimitExhaustsCap(s: State, t: Tenant)
    requires Reachable(s) && t in s.live && t !in s.spoilt && t != ""
    requires s.live[t] < |s.slots| && Tally(s.acqs, LeakedOn(s.live[t])) >= s.slots[s.live[t]].max
    ensures Full(s, s.live[t])
  {
    SlotConservation(s, t);
  }

  /** Connections checked out of the pool are those in use and those of acquisitions that threw. */
  lemma PoolConservation(s: State)
    requires Reachable(s)
    ensures OutCount(s.conns) == Tally(s.acqs, Busy)
    ensures forall a :: 0 <= a < |s.acqs| && s.acqs[a].stage.Threw? ==> Fits(s.acqs[a], Busy)
  {
    ReachableInv(s);
  }

  lemma ThrewStep(s: State, x: Action, a: nat)
    requires ScopeInv(s) && Enabled(s, x) && a < |s.acqs| && s.acqs[a].stage.Threw?
    ensures a < |Next(s, x).acqs| && Next(s, x).acqs[a] == s.acqs[a]
  {
    if OnAcq(x) {
      StepMoves(s, x);
    } else if !x.OpenRun? && !x.Call? && !x.Evict? {
      SlotsOnly(s, x);
    }
  }

  /** An acquisition that threw after the pool gave it a connection keeps that connection out for good. */
  lemma {:induction false} ThrewNeverReturns(s: State, run: seq<Action>, a: nat)
    requires Inv(s) && Legal(s, run) && a < |s.acqs| && s.acqs[a].stage.Threw?
    ensures var s' := Exec(s, run);
            && a < |s'.acqs| && s'.acqs[a] == s.acqs[a]
            && s.acqs[a].conn < |s'.conns| && s'.conns[s.acqs[a].conn].place == Out
    decreases |run|
  {
    assert AcqOk(s, s.acqs[a]);
    if run != [] {
      ThrewStep(s, run[0], a);
      InvStep(s, run[0]);
      ThrewNeverReturns(Next(s, run[0]), run[1..], a);
    }
  }

  /** At most fifty connections are handed out in a run; a nested run counts for itself. */
  lemma FiftyPerRun(s: State, r: nat)
    requires Reachable(s) && r < |s.runs|
    ensures Tally(s.acqs, HandedTo(r)) == Min(s.runs[r].count, 50) <= 50
  {
    ReachableInv(s);
  }

  lemma {:induction false} Append(s: State, run: seq<Action>, x: Action)
    requires Legal(s, run) && Enabled(Exec(s, run), x)
    ensures Legal(s, run + [x]) && Exec(s, run + [x]) == Next(Exec(s, run), x)
    decreases |run|
  {
    if run == [] {
      assert [x][1..] == [];
      assert [] + [x] == [x];
    } else {
      Append(Next(s, run[0]), run[1..], x);
      assert (run + [x])[1..] == run[1..] + [x];
    }
  }
}
