/** The patched acquireConnection and releaseConnection as the code runs them: at each await the other
    tasks may do anything that is not this acquisition's to do.  Both are runs of the Interceptor
    machine. */
module InterceptorTasks {
  import opened Interceptor
  import opened Options
  import Quota

  /** How a call of acquireConnection ends: with a connection, or thrown out by the pool, by the id
      check, by the SET, by the quota or by the query counter. */
  datatype Ending = Handed | NoConnection | BadId | SetFailed | TimedOut | OverLimit

  predicate Mine(a: nat, x: Action) {
    OnAcq(x) && x.a == a
  }

  ghost predicate Reaches(s: State, s': State) {
    (exists run :: Legal(s, run) && Exec(s, run) == s') && Inv(s')
  }

  lemma ReachesSelf(s: State)
    requires Inv(s)
    ensures Reaches(s, s)
  {
    assert Legal(s, []) && Exec(s, []) == s;
  }

  lemma ReachesStep(s0: State, s: State, x: Action)
    requires Reaches(s0, s) && Enabled(s, x)
    ensures Reaches(s0, Next(s, x))
  {
    var run :| Legal(s0, run) && Exec(s0, run) == s;
    Append(s0, run, x);
    assert Legal(s0, run + [x]);
    InvStep(s, x);
  }

  /** What an acquisition finds as it left it. */
  ghost predicate Keeps(a: nat, s: State, s': State) {
    && |s.acqs| <= |s'.acqs| && (a < |s.acqs| ==> s'.acqs[a] == s.acqs[a])
    && |s.runs| <= |s'.runs| && (forall r :: 0 <= r < |s.runs| ==> s'.runs[r].tenant == s.runs[r].tenant)
  }

  lemma OthersKeep(a: nat, s: State, x: Action)
    requires Inv(s) && Enabled(s, x) && !Mine(a, x)
    ensures Keeps(a, s, Next(s, x))
  {
    if OnAcq(x) {
      StepMoves(s, x);
    } else if x.Register? || x.UpdateCap? || x.Deregister? {
      SlotsOnly(s, x);
    }
  }

  /** What the faults to come say: the k-th answer. */
  predicate FaultAt(faults: seq<bool>, k: nat) {
    k < |faults| && faults[k]
  }

  /** The state after the other tasks' steps: of those they try, the possible ones that are not the
      owner's. */
  function Acted(a: nat, s: State, script: seq<Action>): State
    decreases |script|
  {
    if script == [] then s
    else
      var n := |script| - 1;
      var t := Acted(a, s, script[..n]);
      if Enabled(t, script[n]) && !Mine(a, script[n]) then Next(t, script[n]) else t
  }

  class QueryInterceptor {
    var state: State
    /** What the other tasks try to do at each await to come, and which calls to come throw. */
    var others: seq<seq<Action>>
    var faults: seq<bool>
    /** The clock, and how long each sleep to come takes beyond the interval asked for. */
    var now: nat
    var delays: seq<nat>

    constructor ()
      ensures Reachable(state)
    {
      var initial := State([], {}, [], map[], [], [], {});
      state, others, faults, now, delays := initial, [], [], 0, [];
      new;
      assert Initial(initial) && Legal(initial, []) && Exec(initial, []) == initial;
    }

    method Await(a: nat, ghost s0: State)
      requires Reaches(s0, state)
      modifies this`state, this`others
      ensures Reaches(s0, state) && Keeps(a, old(state), state)
      ensures state == Acted(a, old(state), if old(others) == [] then [] else old(others)[0])
      ensures others == if old(others) == [] then [] else old(others)[1..]
    {
      var script := [];
      if others != [] {
        script, others := others[0], others[1..];
      }
      for i := 0 to |script|
        invariant Reaches(s0, state) && Keeps(a, old(state), state)
        invariant state == Acted(a, old(state), script[..i])
        invariant others == if old(others) == [] then [] else old(others)[1..]
      {
        assert script[..i + 1][..i] == script[..i];
        if Enabled(state, script[i]) && !Mine(a, script[i]) {
          OthersKeep(a, state, script[i]);
          ReachesStep(s0, state, script[i]);
          state := Next(state, script[i]);
        }
      }
      assert script[..|script|] == script;
    }

    method Throws() returns (b: bool)
      modifies this`faults
      ensures b == FaultAt(old(faults), 0) && (b ==> true in old(faults))
      ensures faults == if old(faults) == [] then [] else old(faults)[1..]
      ensures forall x :: x in faults ==> x in old(faults)
    {
      b := faults != [] && faults[0];
      faults := if faults == [] then [] else faults[1..];
    }

    method Do(x: Action, ghost s0: State)
      requires Reaches(s0, state) && Enabled(state, x)
      modifies this`state
      ensures Reaches(s0, state) && state == Next(old(state), x)
    {
      ReachesStep(s0, state, x);
      state := Next(state, x);
    }

    /** The pool hands out an idle connection, or makes one. */
    method Pick() returns (c: nat)
      ensures c <= |state.conns| && (c < |state.conns| ==> state.conns[c].place == Idle)
    {
      c := 0;
      while c < |state.conns| && state.conns[c].place != Idle
        invariant c <= |state.conns|
      {
        c := c + 1;
      }
    }

    /** The underlying acquire, and what runs up to the next await: the id check, or outside a tenant
        the query counter. */
    method Connect(a: nat, ghost s0: State) returns (e: Ending)
      requires Reaches(s0, state) && At(state, a, Opening)
      modifies this`state, this`others, this`faults
      ensures Reaches(s0, state) && IsEnding(old(state), state, a, e)
      ensures e == Handed || e == NoConnection || e == BadId || e == OverLimit
      ensures e == Handed && TenantIn(state, state.acqs[a].ctx) != "" ==> state.acqs[a].stage == Scoping
      ensures e == Handed && TenantIn(state, state.acqs[a].ctx) == "" ==> state.acqs[a].stage == Held(None)
      ensures e == NoConnection <==> FaultAt(old(faults), 0)
      ensures e == OverLimit ==> TenantIn(state, state.acqs[a].ctx) == ""
      ensures e == NoConnection ==> true in old(faults)
      ensures faults == if old(faults) == [] then [] else old(faults)[1..]
      ensures forall x :: x in faults ==> x in old(faults)
    {
      hide Reaches, Inv, IsUuid, Next, Enabled;
      ghost var before := state;
      CallStands(s0, state, a);
      Await(a, s0);
      KeepsMeans(a, before, state);
      CallStands(s0, state, a);
      var threw := Throws();
      if threw {
        ConnectFailsEnds(state, a);
        Do(ConnectFails(a), s0);
        return NoConnection;
      }
      var c := Pick();
      ConnectIsPossible(state, a, c);
      ConnectEnds(state, a, c);
      Do(Action.Connect(a, c), s0);
      e := if !state.acqs[a].stage.Threw? then Handed
           else if TenantIn(state, state.acqs[a].ctx) == "" then OverLimit else BadId;
    }

    /** SET the tenant, then ask the quota. */
    method Scope(a: nat, ghost s0: State) returns (e: Ending)
      requires Reaches(s0, state) && At(state, a, Scoping)
      modifies this`state, this`others, this`faults
      ensures Reaches(s0, state) && IsEnding(old(state), state, a, e)
      ensures e == Handed || e == SetFailed
      ensures e == Handed ==> IsWaitingOrGranted(state, a)
      ensures e == SetFailed <==> FaultAt(old(faults), 0)
      ensures e == SetFailed ==> true in old(faults)
    {
      hide Reaches, Inv, IsUuid, Next, Enabled, IsWaitingOrGranted;
      ghost var before := state;
      CallStands(s0, state, a);
      Await(a, s0);
      KeepsMeans(a, before, state);
      CallStands(s0, state, a);
      var threw := Throws();
      if threw {
        var applied := Throws();
        ScopeFailsEnds(state, a, applied);
        Do(ScopeFails(a, applied), s0);
        return SetFailed;
      }
      ScopedEnds(state, a);
      Do(ScopeSet(a), s0);
      e := Handed;
    }

    /** The polling wait for the captured slot. */
    method Wait(a: nat, ghost s0: State) returns (e: Ending, sleeps: nat, ghost seen: State)
      requires Reaches(s0, state) && IsWaitingOrGranted(state, a)
      modifies this`state, this`others, this`now, this`delays
      ensures Reaches(s0, state) && IsEnding(old(state), state, a, e)
      ensures e == Handed || e == TimedOut
      ensures e == Handed ==> seen == state && IsGrant(seen, a)
      ensures e == TimedOut ==> IsFullWait(seen, a) && now >= old(now) + 5000
      ensures Reaches(s0, seen) && SameCall(old(state), seen, a)
      ensures sleeps <= 100
    {
      sleeps := 0;
      var deadline := now + Quota.ACQUIRE_TIMEOUT_MS;
      ghost var before := state;
      KeepsSelf(a, state);
      while state.acqs[a].stage.Waiting?
        invariant Reaches(s0, state) && SameCall(before, state, a) && IsWaitingOrGranted(state, a)
        invariant now >= old(now) + sleeps * Quota.POLL_INTERVAL_MS
        invariant sleeps <= Quota.ACQUIRE_TIMEOUT_MS / Quota.POLL_INTERVAL_MS
        decreases Quota.ACQUIRE_TIMEOUT_MS / Quota.POLL_INTERVAL_MS - sleeps
      {
        if now >= deadline {
          seen := state;
          StepMoves(state, TimeOut(a));
          Do(TimeOut(a), s0);
          return TimedOut, sleeps, seen;
        }
        Poll(a, s0, before);
        sleeps := sleeps + 1;
      }
      seen := state;
      e := Handed;
    }

    /** One sleep and the test that follows it. */
    method Poll(a: nat, ghost s0: State, ghost before: State)
      requires Reaches(s0, state) && SameCall(before, state, a) && state.acqs[a].stage.Waiting?
      modifies this`state, this`others, this`now, this`delays
      ensures Reaches(s0, state) && SameCall(before, state, a) && IsWaitingOrGranted(state, a)
      ensures now == old(now) + 50 + if old(delays) == [] then 0 else old(delays)[0]
      ensures delays == if old(delays) == [] then [] else old(delays)[1..]
    {
      if delays == [] {
        now := now + Quota.POLL_INTERVAL_MS;
      } else {
        now, delays := now + Quota.POLL_INTERVAL_MS + delays[0], delays[1..];
      }
      ghost var s := state;
      Await(a, s0);
      KeepsMeans(a, s, state);
      WakeWaitsWhenFull(state, a);
      Do(Wake(a), s0);
    }

    /** A connection is handed out only in the holder's name, and withheld only for a reason: a call
        that threw, a malformed id, five seconds of a full slot, or a used-up run.  seen is the state the
        quota's last answer left: a tenant's connection was granted within the cap, or past no slot at all. */
    method AcquireConnection(ctx: Option<nat>) returns (e: Ending, a: nat, ghost seen: State)
      requires Inv(state) && ValidCtx(state, ctx)
      modifies this
      ensures Reaches(old(state), state) && a < |state.acqs| && state.acqs[a].ctx == ctx
      ensures if e == Handed then state.acqs[a].stage.Held? else HasThrown(state.acqs[a].stage)
      ensures e == NoConnection <==> FaultAt(old(faults), 0)
      ensures e == SetFailed ==> FaultAt(old(faults), 1)
      ensures e != NoConnection && IsUuid(TenantIn(state, ctx)) && FaultAt(old(faults), 1) ==> e == SetFailed
      ensures e == BadId ==> TenantIn(state, ctx) != "" && !IsUuid(TenantIn(state, ctx))
      ensures e == TimedOut ==> now >= old(now) + 5000 && IsFullWait(seen, a)
      ensures e == OverLimit ==> IsOverLimit(state, ctx)
      ensures Reaches(old(state), seen)
      ensures (e == Handed ==>
                 if TenantIn(state, ctx) == "" then state.acqs[a].stage == Held(None)
                 else IsGrant(seen, a) && SameCall(seen, state, a) && SameSlot(seen, state, a))
    {
      hide *;
      ghost var s0 := state;
      ReachesSelf(s0);
      FaultNext(faults);
      a := Begin(ctx, s0);
      ghost var s1 := state;
      OpeningMeans(s1, a);
      e := Connect(a, s0);
      ghost var s2 := state;
      EndingMeans(s1, s2, a, e);
      seen := state;
      if e == Handed && state.acqs[a].stage == Scoping {
        ScopingMeans(s2, a);
        e, seen := Admit(a, s0);
        EndingMeans(s2, state, a, e);
      }
    }

    method Begin(ctx: Option<nat>, ghost s0: State) returns (a: nat)
      requires Reaches(s0, state) && ValidCtx(state, ctx)
      modifies this`state
      ensures Reaches(s0, state) && At(state, a, Opening) && state.acqs[a].ctx == ctx
    {
      a := |state.acqs|;
      Do(Call(ctx), s0);
    }

    /** In a tenant's context: the setting, the quota, the counter. */
    method Admit(a: nat, ghost s0: State) returns (e: Ending, ghost seen: State)
      requires Reaches(s0, state) && At(state, a, Scoping)
      modifies this
      ensures Reaches(s0, state) && IsEnding(old(state), state, a, e)
      ensures Reaches(s0, seen)
      ensures e == Handed ==> state.acqs[a].stage.Held?
      ensures e == Handed ==> IsGrant(seen, a) && SameCall(seen, state, a) && SameSlot(seen, state, a)
      ensures e == SetFailed <==> FaultAt(old(faults), 0)
      ensures e == TimedOut ==> now >= old(now) + 5000 && IsFullWait(seen, a)
      ensures e != NoConnection && e != BadId
    {
      hide Reaches, IsEnding, IsGrant, IsFullWait, SameSlot;
      ghost var s1 := state;
      e := Scope(a, s0);
      seen := state;
      if e == Handed {
        EndingIsCall(s1, state, a, e);
        ghost var s2 := state;
        var sleeps;
        e, sleeps, seen := Wait(a, s0);
        EndingThen(s1, s2, state, a, e);
      }
      if e == Handed {
        ghost var s3 := state;
        EndingIsCall(s1, state, a, e);
        GrantIsGranted(state, a);
        e := CountQuery(a, s0);
        EndingIsCall(s3, state, a, e);
        EndingThen(s1, s3, state, a, e);
      }
    }

    /** After the quota's await, the query counter. */
    method CountQuery(a: nat, ghost s0: State) returns (e: Ending)
      requires Reaches(s0, state) && a < |state.acqs| && state.acqs[a].stage.Granted?
      modifies this`state, this`others
      ensures Reaches(s0, state) && IsEnding(old(state), state, a, e)
      ensures e == Handed || e == OverLimit
      ensures e == Handed ==> state.acqs[a].stage.Held? && SameSlot(old(state), state, a)
    {
      ghost var before := state;
      Await(a, s0);
      KeepsMeans(a, before, state);
      CountEnds(state, a);
      Do(Count(a), s0);
      e := if state.acqs[a].stage.Held? then Handed else OverLimit;
    }

    /** The connection leaves its holder: it is idle without a tenant; or the reset threw, and it is
        discarded, or idle with or without the setting it had. */
    method ReleaseConnection(a: nat, ctx: Option<nat>)
      requires Inv(state) && a < |state.acqs| && state.acqs[a].stage.Held? && ValidCtx(state, ctx)
      modifies this
      ensures Reaches(old(state), state) && At(state, a, Released) && state.acqs[a].conn == old(state.acqs[a].conn)
      ensures GivenBack(state, state.acqs[a].conn, old(TenantIn(state, state.acqs[a].ctx)),
                        FaultAt(old(faults), 0), FaultAt(old(faults), 1), FaultAt(old(faults), 2))
    {
      ghost var s0 := state;
      ReachesSelf(s0);
      hide Reaches, Inv, GivenBack, AcqOk;
      ReleaseStarts(s0, a, ctx);
      Do(Release(a, ctx), s0);
      ghost var before := state;
      Await(a, s0);
      KeepsMeans(a, before, state);
      IsInv(s0, state);
      var threw := Throws();
      if threw {
        var applied := Throws();
        var kept := Throws();
        ResetEnds(state, a, ResetFails(a, applied, kept));
        Do(ResetFails(a, applied, kept), s0);
      } else {
        ResetEnds(state, a, ResetDone(a));
        Do(ResetDone(a), s0);
      }
    }
  }

  /** What a release leaves of a connection that tenant t had: reset, or discarded when the reset threw
      and the pool did not keep it, or with the setting it had when the reset changed nothing. */
  ghost predicate GivenBack(s: State, c: nat, t: Tenant, threw: bool, applied: bool, kept: bool) {
    && c < |s.conns|
    && if threw && !kept then s.conns[c] == Conn("", Gone)
       else if !threw || applied then s.conns[c] == Conn("", Idle) && c !in s.unreset
       else if t != "" then s.conns[c] == Conn(t, Idle) && c in s.unreset
       else s.conns[c].place == Idle && IsLeft(s, c)
  }

  lemma IsInv(s0: State, s: State)
    requires Reaches(s0, s)
    ensures Inv(s)
  {
  }

  lemma ReleaseStarts(s: State, a: nat, ctx: Option<nat>)
    requires Inv(s) && Enabled(s, Release(a, ctx))
    ensures var s' := Next(s, Release(a, ctx));
            && At(s', a, Resetting) && SameCall(s, s', a)
            && s'.acqs[a].conn == s.acqs[a].conn && ValidCtx(s', s'.acqs[a].ctx)
  {
    assert AcqOk(s, s.acqs[a]);
    StepMoves(s, Release(a, ctx));
  }

  lemma ResetEnds(s: State, a: nat, x: Action)
    requires Inv(s) && Enabled(s, x) && OnAcq(x) && x.a == a && (x.ResetDone? || x.ResetFails?)
    ensures At(Next(s, x), a, Released) && Next(s, x).acqs[a].conn == s.acqs[a].conn
    ensures GivenBack(Next(s, x), s.acqs[a].conn, TenantIn(s, s.acqs[a].ctx),
                      x.ResetFails?, x.ResetFails? && x.applied, x.ResetFails? && x.kept)
  {
    assert AcqOk(s, s.acqs[a]);
    StepMoves(s, x);
  }

  ghost predicate IsOverLimit(s: State, ctx: Option<nat>) {
    ctx.Some? && ctx.value < |s.runs| && s.runs[ctx.value].count > 50
  }

  predicate HasThrown(stage: Stage) {
    stage.Threw? || stage == Failed
  }

  /** The call is the same: its context and the tenants of the runs have not changed. */
  ghost predicate SameCall(s: State, s': State, a: nat) {
    && a < |s.acqs| && a < |s'.acqs| && s'.acqs[a].ctx == s.acqs[a].ctx
    && TenantIn(s', s'.acqs[a].ctx) == TenantIn(s, s.acqs[a].ctx)
  }

  /** What an ending says about the state it leaves. */
  ghost predicate IsEnding(s: State, s': State, a: nat, e: Ending) {
    && SameCall(s, s', a)
    && var acq := s'.acqs[a];
       match e
       case Handed => !HasThrown(acq.stage)
       case NoConnection => acq.stage == Failed
       case BadId => acq.stage == Threw(None) && TenantIn(s', acq.ctx) != "" && !IsUuid(TenantIn(s', acq.ctx))
       case SetFailed => acq.stage == Threw(None)
       case TimedOut => acq.stage == Threw(None)
       case OverLimit =>
         acq.stage.Threw? && IsOverLimit(s', acq.ctx)
  }

  lemma FaultNext(faults: seq<bool>)
    ensures FaultAt(if faults == [] then [] else faults[1..], 0) <==> FaultAt(faults, 1)
  {
  }

  lemma OpeningMeans(s: State, a: nat)
    requires At(s, a, Opening)
    ensures a < |s.acqs|
  {
  }

  lemma ScopingMeans(s: State, a: nat)
    requires a < |s.acqs| && s.acqs[a].stage == Scoping
    ensures At(s, a, Scoping)
  {
  }

  lemma EndingMeans(s: State, s': State, a: nat, e: Ending)
    requires IsEnding(s, s', a, e)
    ensures a < |s.acqs| && a < |s'.acqs| && s'.acqs[a].ctx == s.acqs[a].ctx
    ensures TenantIn(s', s'.acqs[a].ctx) == TenantIn(s, s.acqs[a].ctx)
    ensures HasThrown(s'.acqs[a].stage) <==> e != Handed
    ensures e == BadId ==> TenantIn(s', s'.acqs[a].ctx) != "" && !IsUuid(TenantIn(s', s'.acqs[a].ctx))
    ensures e == OverLimit ==> IsOverLimit(s', s'.acqs[a].ctx)
    ensures IsUuid(TenantIn(s', s'.acqs[a].ctx)) ==> TenantIn(s', s'.acqs[a].ctx) != ""
  {
  }

  lemma EndingIsCall(s: State, s': State, a: nat, e: Ending)
    requires IsEnding(s, s', a, e)
    ensures SameCall(s, s', a)
  {
  }

  lemma EndingThen(s: State, s1: State, s2: State, a: nat, e: Ending)
    requires SameCall(s, s1, a) && IsEnding(s1, s2, a, e)
    ensures IsEnding(s, s2, a, e)
  {
  }

  /** The slot charged for the grant is the one held. */
  ghost predicate SameSlot(s: State, s': State, a: nat) {
    && a < |s.acqs| && s.acqs[a].stage.Granted? && a < |s'.acqs|
    && s'.acqs[a].stage == Held(s.acqs[a].stage.slot)
  }

  lemma GrantIsGranted(s: State, a: nat)
    requires IsGrant(s, a)
    ensures a < |s.acqs| && s.acqs[a].stage.Granted?
  {
  }

  ghost predicate IsWaitingOrGranted(s: State, a: nat) {
    && a < |s.acqs| && (s.acqs[a].stage.Waiting? || s.acqs[a].stage.Granted?)
    && (if s.acqs[a].stage.Waiting? then IsFullWait(s, a) else IsGrant(s, a))
  }

  /** The slot the acquisition captured is its tenant's, and full. */
  ghost predicate IsFullWait(s: State, a: nat) {
    && a < |s.acqs| && s.acqs[a].stage.Waiting?
    && var i := s.acqs[a].stage.on;
       i < |s.slots| && s.slots[i].owner == TenantIn(s, s.acqs[a].ctx) && s.slots[i].current >= s.slots[i].max
  }

  /** The moment of a grant: the tenant has no slot, or its slot with this grant is within its cap. */
  ghost predicate IsGrant(s: State, a: nat) {
    && a < |s.acqs| && s.acqs[a].stage.Granted?
    && var t := TenantIn(s, s.acqs[a].ctx);
       match s.acqs[a].stage.slot
       case None => t !in s.live
       case Some(i) => i < |s.slots| && s.slots[i].owner == t && 0 < s.slots[i].current <= s.slots[i].max
  }

  lemma KeepsMeans(a: nat, s: State, s': State)
    requires Keeps(a, s, s') && a < |s.acqs| && ValidCtx(s, s.acqs[a].ctx)
    ensures SameCall(s, s', a) && s'.acqs[a] == s.acqs[a]
  {
  }

  lemma KeepsSelf(a: nat, s: State)
    requires a < |s.acqs|
    ensures SameCall(s, s, a)
  {
  }

  lemma CallStands(s0: State, s: State, a: nat)
    requires Reaches(s0, s) && a < |s.acqs|
    ensures Inv(s) && ValidCtx(s, s.acqs[a].ctx)
  {
    assert AcqOk(s, s.acqs[a]);
  }

  lemma ConnectIsPossible(s: State, a: nat, c: nat)
    requires At(s, a, Opening) && c <= |s.conns| && (c < |s.conns| ==> s.conns[c].place == Idle)
    ensures Enabled(s, Action.Connect(a, c))
  {
  }

  lemma ScopeFailsEnds(s: State, a: nat, applied: bool)
    requires Inv(s) && At(s, a, Scoping)
    ensures Enabled(s, ScopeFails(a, applied)) && IsEnding(s, Next(s, ScopeFails(a, applied)), a, SetFailed)
  {
    StepMoves(s, ScopeFails(a, applied));
  }

  lemma ScopedEnds(s: State, a: nat)
    requires Inv(s) && At(s, a, Scoping)
    ensures Enabled(s, ScopeSet(a)) && IsEnding(s, Next(s, ScopeSet(a)), a, Handed)
    ensures IsWaitingOrGranted(Next(s, ScopeSet(a)), a)
  {
    ScopedWaitsWhenFull(s, a);
  }

  lemma ConnectFailsEnds(s: State, a: nat)
    requires At(s, a, Opening)
    ensures Enabled(s, ConnectFails(a)) && IsEnding(s, Next(s, ConnectFails(a)), a, NoConnection)
  {
  }

  lemma ConnectEnds(s: State, a: nat, c: nat)
    requires Inv(s) && Enabled(s, Action.Connect(a, c))
    ensures var s' := Next(s, Action.Connect(a, c));
            && SameCall(s, s', a)
            && var t, acq := TenantIn(s, s.acqs[a].ctx), s'.acqs[a];
               if t == "" then
                 acq.stage == Held(None) || (acq.stage.Threw? && IsOverLimit(s', acq.ctx))
               else acq.stage == if IsUuid(t) then Scoping else Threw(None)
  {
    ConnectMoves(s, a, c);
  }

  lemma CountEnds(s: State, a: nat)
    requires Inv(s) && Enabled(s, Count(a))
    ensures var s' := Next(s, Count(a));
            && SameCall(s, s', a)
            && var acq := s'.acqs[a];
               acq.stage.Held? || (acq.stage.Threw? && IsOverLimit(s', acq.ctx))
  {
    StepMoves(s, Count(a));
  }

  lemma ScopedWaitsWhenFull(s: State, a: nat)
    requires Inv(s) && Enabled(s, ScopeSet(a))
    ensures Only(s, Next(s, ScopeSet(a)), a) && IsWaitingOrGranted(Next(s, ScopeSet(a)), a)
  {
    assert AcqOk(s, s.acqs[a]);
    ScopedOnly(s, a);
    ScopedCaptures(s, a);
  }

  lemma WakeWaitsWhenFull(s: State, a: nat)
    requires Inv(s) && Enabled(s, Wake(a))
    ensures Only(s, Next(s, Wake(a)), a) && IsWaitingOrGranted(Next(s, Wake(a)), a)
  {
    assert SlotRefOk(s, s.acqs[a]);
    TriedOnly(s, a, s.acqs[a].stage.on);
  }
}
