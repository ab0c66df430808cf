/** The tasks that drive the outbox, written as the code runs them: each statement is followed by an
    await at which the other tasks may do anything that is not this task's to do.  Every task is shown
    to be a run of the Outbox machine, so the results proved there for all runs hold for any mix of them. */
module OutboxTasks {
  import opened Outbox
  import opened Options

  /** What a suspended task holds on to: a poller its transaction and its outstanding enqueue calls,
      a worker its job. */
  datatype Owner = Nobody | Poller(p: nat, pending: multiset<EventId>) | Worker(j: nat)

  /** Steps only the owner itself takes. */
  predicate Mine(owner: Owner, s: State, a: Action) {
    match owner
    case Nobody => false
    case Poller(p, pending) =>
      || ((a.Select? || a.Commit? || a.Abort?) && a.p == p)
      || ((a.Enqueue? || a.LoseAdd?) && s.adds[a.e] <= pending[a.e])
    case Worker(j) => TouchesJob(a) && a.j == j
  }

  /** Nothing else is kept from the others. */
  lemma OnlyOwnSteps(owner: Owner, s: State, a: Action)
    requires Mine(owner, s, a)
    ensures (&& owner.Poller?
             && (a in {Commit(owner.p), Abort(owner.p)} || (a.Select? && a.p == owner.p)
                 || ((a.Enqueue? || a.LoseAdd?) && s.adds[a.e] <= owner.pending[a.e])))
            || (owner.Worker? && TouchesJob(a) && a.j == owner.j)
  {
  }

  /** What an owner finds as it left it. */
  ghost predicate Keeps(owner: Owner, s: State, s': State) {
    && |s.jobs| <= |s'.jobs|
    && (forall j :: 0 <= j < |s.jobs| ==> s'.jobs[j].event == s.jobs[j].event)
    && Holds(owner, s, s')
  }

  ghost predicate Holds(owner: Owner, s: State, s': State) {
    match owner
    case Nobody => true
    case Poller(p, pending) =>
      && (p in s.open <==> p in s'.open) && (p in s.open ==> s'.open[p] == s.open[p])
      && (pending <= s.adds ==> pending <= s'.adds)
    case Worker(j) => j < |s.jobs| ==> j < |s'.jobs| && s'.jobs[j] == s.jobs[j]
  }

  lemma JobsKeep(s: State, a: Action)
    requires Enabled(s, a)
    ensures |s.jobs| <= |Next(s, a).jobs|
    ensures forall j :: 0 <= j < |s.jobs| ==> Next(s, a).jobs[j].event == s.jobs[j].event
  {
  }

  lemma OthersKeep(owner: Owner, s: State, a: Action)
    requires Enabled(s, a) && !Mine(owner, s, a)
    ensures Keeps(owner, s, Next(s, a))
  {
    JobsKeep(s, a);
    if owner.Poller? {
      PollerKeeps(owner.p, owner.pending, s, a);
    }
  }

  lemma PollerKeeps(p: nat, pending: multiset<EventId>, s: State, a: Action)
    requires Enabled(s, a) && !Mine(Poller(p, pending), s, a)
    ensures Holds(Poller(p, pending), s, Next(s, a))
  {
    if pending <= s.adds {
      forall e ensures pending[e] <= Next(s, a).adds[e] {
        assert pending[e] <= s.adds[e];
      }
    }
  }

  ghost predicate Reaches(s: State, s': State) {
    exists run :: Legal(s, run) && Exec(s, run) == s'
  }

  lemma ReachesSelf(s: State)
    ensures Reaches(s, s)
  {
    assert Legal(s, []) && Exec(s, []) == s;
  }

  lemma ReachesThen(s0: State, s1: State, s2: State)
    requires Reaches(s0, s1) && Reaches(s1, s2)
    ensures Reaches(s0, s2)
  {
    var a :| Legal(s0, a) && Exec(s0, a) == s1;
    var b :| Legal(s1, b) && Exec(s1, b) == s2;
    Then(s0, a, b);
    assert Legal(s0, a + b);
  }

  lemma ReachesStep(s0: State, s: State, a: Action)
    requires Reaches(s0, s) && Enabled(s, a)
    ensures Reaches(s0, Next(s, a))
  {
    One(s, a);
    assert Legal(s, [a]);
    ReachesThen(s0, s, Next(s, a));
  }

  /** What holds in every reachable state holds after any task. */
  lemma TasksStayReachable(s: State, s': State)
    requires Reachable(s) && Reaches(s, s')
    ensures Reachable(s') && Inv(s')
  {
    var s0, a :| Initial(s0) && Legal(s0, a) && Exec(s0, a) == s;
    var b :| Legal(s, b) && Exec(s, b) == s';
    Then(s0, a, b);
    assert Legal(s0, a + b);
    ReachableInv(s');
  }

  /** Rows an action has to write that a poller's transaction holds. */
  function InTheWay(s: State, a: Action): set<EventId> {
    match a
    case MarkProcessed(j) => if j < |s.jobs| && Locked(s, s.jobs[j].event) then {s.jobs[j].event} else {}
    case OnFailed(j) => if j < |s.jobs| && Locked(s, s.jobs[j].event) then {s.jobs[j].event} else {}
    case CronPurge => set e | e in s.rows && s.rows[e].expires < s.now && Locked(s, e)
    case _ => {}
  }

  /** An event's definition, as far as it decides what is inserted: the data its schema accepts. */
  datatype EventDefinition<!D> = EventDefinition(schema: D -> bool)

  /** One pending row more, to expire in seven days. */
  ghost predicate IsInserted(s: State, s': State, tenant: nat, e: EventId) {
    && s'.rows == s.rows[e := EventRow(tenant, Pending, None, s.now + TTL)]
    && s'.jobs == s.jobs && s'.open == s.open && s'.adds == s.adds && s'.now == s.now
  }

  ghost predicate HasJobFrom(s: State, n: nat, e: EventId) {
    exists j :: n <= j < |s.jobs| && s.jobs[j].event == e
  }

  /** What the faults to come say: the k-th answer. */
  predicate FaultAt(faults: seq<bool>, k: nat) {
    k < |faults| && faults[k]
  }

  /** The next call returns; it takes effect, whether or not it returns. */
  predicate Returns(faults: seq<bool>) {
    !FaultAt(faults, 0)
  }

  predicate Takes(faults: seq<bool>) {
    Returns(faults) || FaultAt(faults, 1)
  }

  /** The state after the other tasks' steps: of those they try, the possible ones that are not the
      owner's. */
  function Acted(owner: Owner, s: State, script: seq<Action>): State
    decreases |script|
  {
    if script == [] then s
    else
      var n := |script| - 1;
      var t := Acted(owner, s, script[..n]);
      if Enabled(t, script[n]) && !Mine(owner, t, script[n]) then Next(t, script[n]) else t
  }

  class Backend {
    var state: State
    /** What the other tasks try to do at each await to come; for each call to come whether it throws,
        and if so whether it took effect; and which of the transactions a task waits for commit. */
    var others: seq<seq<Action>>
    var faults: seq<bool>
    var commits: seq<bool>

    constructor ()
      ensures Reachable(state)
    {
      var initial := State(0.0, map[], map[], multiset{}, [], map[]);
      state, others, faults, commits := initial, [], [], [];
      new;
      assert Initial(initial) && Legal(initial, []) && Exec(initial, []) == initial;
    }

    method Await(owner: Owner)
      modifies this`state, this`others
      ensures Reaches(old(state), state) && Keeps(owner, old(state), state)
      ensures state == Acted(owner, old(state), if old(others) == [] then [] else old(others)[0])
      ensures others == if old(others) == [] then [] else old(others)[1..]
    {
      var script := [];
      if others != [] {
        script, others := others[0], others[1..];
      }
      ReachesSelf(state);
      for i := 0 to |script|
        invariant Reaches(old(state), state) && Keeps(owner, old(state), state)
        invariant state == Acted(owner, old(state), script[..i])
        invariant others == if old(others) == [] then [] else old(others)[1..]
      {
        assert script[..i + 1][..i] == script[..i];
        if Enabled(state, script[i]) && !Mine(owner, state, script[i]) {
          OthersKeep(owner, state, script[i]);
          ReachesStep(old(state), state, script[i]);
          state := Next(state, script[i]);
        }
      }
      assert script[..|script|] == script;
    }

    method Throws() returns (b: bool)
      modifies this`faults
      ensures b == FaultAt(old(faults), 0) && (b ==> true in old(faults))
      ensures faults == if old(faults) == [] then [] else old(faults)[1..]
      ensures forall x :: x in faults ==> x in old(faults)
    {
      b := faults != [] && faults[0];
      faults := if faults == [] then [] else faults[1..];
    }

    /** A call: ok when it returned; took when it took effect, which it may also have done when it threw. */
    method Call() returns (ok: bool, took: bool)
      modifies this`faults
      ensures ok == Returns(old(faults)) && took == Takes(old(faults))
      ensures !ok ==> true in old(faults)
      ensures forall x :: x in faults ==> x in old(faults)
    {
      var threw := Throws();
      ok, took := !threw, !threw;
      if threw {
        took := Throws();
      }
    }

    /** An UPDATE or DELETE waits for the transactions that hold its rows to end. */
    method AwaitLocks(owner: Owner, a: Action)
      requires !owner.Poller?
      modifies this`state, this`commits
      ensures Reaches(old(state), state) && Keeps(owner, old(state), state)
      ensures InTheWay(state, a) == {}
    {
      ReachesSelf(state);
      while InTheWay(state, a) != {}
        invariant Reaches(old(state), state) && Keeps(owner, old(state), state)
        decreases |state.open|
      {
        var e :| e in InTheWay(state, a);
        assert Locked(state, e);
        var p :| p in state.open && e in state.open[p].batch;
        var end := if commits != [] && commits[0] then Commit(p) else Abort(p);
        commits := if commits == [] then [] else commits[1..];
        OthersKeep(owner, state, end);
        ReachesStep(old(state), state, end);
        state := Next(state, end);
      }
    }

    /** The insert of emit; e is the id the table gives the new row. */
    method Insert(tenant: nat, e: EventId) returns (ok: bool)
      requires e !in state.ledger
      modifies this`state, this`faults
      ensures Reaches(old(state), state)
      ensures ok == Returns(old(faults)) && (!ok ==> true in old(faults))
      ensures if Takes(old(faults)) then IsInserted(old(state), state, tenant, e) else state == old(state)
    {
      ReachesSelf(state);
      var took;
      ok, took := Call();
      if took {
        ReachesStep(state, state, Action.Emit(e, tenant));
        state := Next(state, Action.Emit(e, tenant));
      }
    }

    /** SELECT ... FOR UPDATE SKIP LOCKED LIMIT 50. */
    method SelectPending() returns (batch: set<EventId>)
      ensures if batch == {} then forall e :: e in state.rows ==> !Selectable(state, e) else LegalBatch(state, batch)
      ensures IsBatch(state, batch)
    {
      var eligible := set e | e in state.rows && Selectable(state, e);
      batch := {};
      while |batch| < BATCH_SIZE && batch != eligible
        invariant batch <= eligible && |batch| <= BATCH_SIZE
        invariant batch == {} ==> |batch| == 0
        decreases BATCH_SIZE - |batch|
      {
        var e :| e in eligible && e !in batch;
        batch := batch + {e};
      }
      assert forall e :: Selectable(state, e) ==> e in eligible;
      forall e | MaySelect(state, e) ensures Selectable(state, e) {
        assert !Locked(state, e) && !TenantLocked(state, state.rows[e].tenant);
      }
    }

    /** took: the queue has the job, whether or not the call said so. */
    method AddOne(p: nat, e: EventId, todo: set<EventId>) returns (ok: bool, took: bool)
      requires p !in state.open && e in todo && multiset(todo) <= state.adds
      modifies this
      ensures Reaches(old(state), state) && Keeps(Nobody, old(state), state)
      ensures p !in state.open && multiset(todo - {e}) <= state.adds
      ensures (took ==> HasJobFrom(state, |old(state.jobs)|, e)) && (ok ==> took) && (!ok ==> true in old(faults))
      ensures took ==> state.jobs != [] && state.jobs[|state.jobs| - 1] == Job(e, 0, 0, Waiting)
      ensures forall x :: x in faults ==> x in old(faults)
    {
      Await(Poller(p, multiset(todo)));
      ghost var s := state;
      assert s.adds[e] >= multiset(todo)[e];
      ok, took := Call();
      var a := if took then Enqueue(e) else LoseAdd(e);
      ReachesStep(old(state), s, a);
      state := Next(state, a);
      assert took ==> state.jobs[|s.jobs|].event == e;
      forall x ensures multiset(todo - {e})[x] <= state.adds[x] {
        assert multiset(todo)[x] <= s.adds[x];
      }
    }

    /** Promise.all over the claimed rows: each call succeeds or fails on its own.  enqueued are those
        that the queue took. */
    method Add(p: nat, batch: set<EventId>) returns (enqueued: set<EventId>)
      requires p !in state.open && multiset(batch) <= state.adds
      modifies this
      ensures Reaches(old(state), state) && p !in state.open && Keeps(Nobody, old(state), state)
      ensures enqueued <= batch && forall e :: e in enqueued ==> HasJobFrom(state, |old(state.jobs)|, e)
      ensures enqueued == batch || true in old(faults)
    {
      enqueued := {};
      var todo := batch;
      ReachesSelf(state);
      while todo != {}
        invariant todo <= batch && multiset(todo) <= state.adds
        invariant Reaches(old(state), state) && p !in state.open && Keeps(Nobody, old(state), state)
        invariant enqueued <= batch && forall e :: e in enqueued ==> HasJobFrom(state, |old(state.jobs)|, e)
        invariant (forall e :: e in batch ==> e in enqueued || e in todo) || true in old(faults)
        invariant forall x :: x in faults ==> x in old(faults)
        decreases todo
      {
        var e :| e in todo;
        ghost var s := state;
        var ok, took := AddOne(p, e, todo);
        ReachesThen(old(state), s, state);
        JobsStay(s, state, |old(state.jobs)|, enqueued);
        if took {
          enqueued := enqueued + {e};
        }
        todo := todo - {e};
      }
    }

    /** One round of a poller.  What it claims is a legal batch of the state it saw; it ends without a
        lock, and a row it claimed has a job unless a call threw: its enqueue call, or a commit that took
        effect. */
    method Poll(p: nat) returns (failed: bool, claimed: set<EventId>, enqueued: set<EventId>, ghost seen: State)
      requires p !in state.open
      modifies this
      ensures Reaches(old(state), seen) && Reaches(old(state), state) && p !in state.open
      ensures failed ==> enqueued == {}
      ensures !failed && claimed == {} ==> forall e :: !Selectable(seen, e)
      ensures claimed != {} ==> LegalBatch(seen, claimed)
      ensures claimed != {} || !failed ==> IsBatch(seen, claimed)
      ensures enqueued <= claimed && forall e :: e in enqueued ==> HasJobFrom(state, |old(state.jobs)|, e)
      ensures true !in old(faults) ==> !failed && enqueued == claimed
    {
      failed, claimed, enqueued := false, {}, {};
      Await(Poller(p, multiset{}));
      seen := state;
      var batch := SelectPending();
      if batch == {} {
        return;
      }
      var ok, took := Claim(p, batch);
      ReachesThen(old(state), seen, state);
      failed, claimed := !ok, if took then batch else {};
      if took {
        ghost var s := state;
        if ok {
          enqueued := Add(p, batch);
        } else {
          Lose(p, batch);
        }
        ReachesThen(old(state), s, state);
      }
    }

    /** The enqueue calls that a poll does not come to make. */
    method Lose(p: nat, batch: set<EventId>)
      requires p !in state.open && multiset(batch) <= state.adds
      modifies this`state
      ensures Reaches(old(state), state) && p !in state.open
      ensures state == old(state).(adds := old(state.adds) - multiset(batch))
    {
      var todo := batch;
      ReachesSelf(state);
      hide Reaches, Enabled, Next;
      while todo != {}
        invariant todo <= batch && multiset(todo) <= state.adds && Reaches(old(state), state)
        invariant state == old(state).(adds := old(state.adds) - multiset(batch - todo))
        decreases todo
      {
        var e :| e in todo;
        LoseOne(state, e, todo);
        CallsLeft(old(state.adds), batch, todo, e);
        ReachesStep(old(state), state, LoseAdd(e));
        state := Next(state, LoseAdd(e));
        todo := todo - {e};
      }
      assert batch - todo == batch;
    }

    /** From the locks of the SELECT to the end of its transaction. */
    method Claim(p: nat, batch: set<EventId>) returns (ok: bool, took: bool)
      requires p !in state.open && LegalBatch(state, batch)
      modifies this
      ensures Reaches(old(state), state) && p !in state.open && Keeps(Nobody, old(state), state)
      ensures (ok ==> took) && (!ok ==> true in old(faults))
      ensures took ==> multiset(batch) <= state.adds
      ensures took ==> forall e :: e in batch && e in state.rows ==>
                state.rows[e].status == Queued && state.rows[e].queuedAt == Some(old(state.now))
      ensures forall x :: x in faults ==> x in old(faults)
    {
      ReachesSelf(state);
      ReachesStep(state, state, Select(p, batch));
      state := Next(state, Select(p, batch));
      ghost var s1 := state;
      Await(Poller(p, multiset{}));
      ReachesThen(old(state), s1, state);
      ok, took := Call();
      var a := if took then Commit(p) else Abort(p);
      ReachesStep(old(state), state, a);
      state := Next(state, a);
    }

    /** The owner of job j awaits, waits for the locks in its way, and takes one step; when that threw,
        the attempt failed, whether or not the step took effect. */
    method Step(j: nat, a: Action, ghost s0: State) returns (ok: bool, took: bool)
      requires Reaches(s0, state) && j < |state.jobs| && IsDue(state.jobs[j], j, a)
      modifies this
      ensures Reaches(s0, state) && j < |state.jobs|
      ensures ok ==> took && state.jobs[j] == After(old(state.jobs[j]), a)
      ensures (!ok ==>
                 && true in old(faults)
                 && state.jobs[j] ==
                      After(if took then After(old(state.jobs[j]), a) else old(state.jobs[j]), FailAttempt(j)))
      ensures took && a.MarkProcessed? && state.jobs[j].event in state.rows ==>
                state.rows[state.jobs[j].event].status == Processed
      ensures forall x :: x in faults ==> x in old(faults)
    {
      Await(Worker(j));
      ghost var s := state;
      AwaitLocks(Worker(j), a);
      ReachesThen(old(state), s, state);
      ok, took := Call();
      took := took && (ok || !a.Finish?);
      ReachesThen(s0, old(state), state);
      if took {
        ReachesStep(s0, state, a);
        state := Next(state, a);
      }
      if !ok {
        ReachesStep(s0, state, FailAttempt(j));
        state := Next(state, FailAttempt(j));
      }
    }

    method Take(j: nat)
      requires j < |state.jobs| && state.jobs[j].phase == Waiting
      modifies this
      ensures Reaches(old(state), state) && j < |state.jobs|
      ensures state.jobs[j] == old(state.jobs[j]).(phase := Running(false, false)) && faults == old(faults)
    {
      ReachesSelf(state);
      ReachesStep(state, state, Start(j));
      state := Next(state, Start(j));
    }

    /** A worker's attempt at a job: fire, then mark the row.  Either call may throw, before or after
        it took effect.  marked is the state the mark leaves. */
    method Process(j: nat) returns (ok: bool, ghost marked: State)
      requires j < |state.jobs| && state.jobs[j].phase == Waiting
      modifies this
      ensures Reaches(old(state), state) && j < |state.jobs|
      ensures ok ==> state.jobs[j] == old(state.jobs[j]).(fires := old(state.jobs[j].fires) + 1, phase := Done)
      ensures (ok ==>
                 var e := old(state.jobs[j].event);
                 && Reaches(old(state), marked) && Reaches(marked, state)
                 && (e in marked.rows ==> marked.rows[e].status == Processed))
      ensures (!ok ==>
                 && state.jobs[j].made == old(state.jobs[j].made) + 1
                 && old(state.jobs[j].fires) <= state.jobs[j].fires <= old(state.jobs[j].fires) + 1
                 && true in old(faults)
                 && state.jobs[j].phase == if state.jobs[j].made < 3 then Waiting else Failed(false))
    {
      Take(j);
      var took;
      ok, took := Step(j, Fire(j), old(state));
      if ok {
        ok, took := Step(j, MarkProcessed(j), old(state));
      }
      marked := state;
      if ok {
        ReachesSelf(marked);
        ok, took := Step(j, Finish(j), marked);
        ReachesThen(old(state), marked, state);
      }
    }

    /** The failure handler puts the row back once the attempts are used up; before that it does nothing.
        reset says whether its call took effect, on the state seen. */
    method OnFailed(j: nat) returns (reset: bool, ghost seen: State)
      requires j < |state.jobs| && (state.jobs[j].phase == Waiting || state.jobs[j].phase == Failed(false))
      requires state.jobs[j].phase == Failed(false) <==> state.jobs[j].made >= 3
      modifies this
      ensures Reaches(old(state), state) && j < |state.jobs|
      ensures old(state.jobs[j].made) < 3 ==> !reset && state == old(state)
      ensures old(state.jobs[j].made) >= 3 ==> reset == Takes(old(faults)) && (!reset ==> state == seen)
      ensures (reset ==>
                 var e := state.jobs[j].event;
                 && e == old(state.jobs[j].event)
                 && Reaches(old(state), seen) && state.rows.Keys == seen.rows.Keys
                 && (forall x :: x in seen.rows ==>
                       state.rows[x] ==
                         if x == e then seen.rows[x].(status := Pending, queuedAt := None) else seen.rows[x]))
    {
      reset, seen := false, state;
      ReachesSelf(state);
      if state.jobs[j].made >= ATTEMPTS {
        Await(Worker(j));
        ghost var s := state;
        AwaitLocks(Worker(j), Action.OnFailed(j));
        ReachesThen(old(state), s, state);
        seen := state;
        var ok;
        ok, reset := Call();
        if reset {
          ReachesStep(old(state), state, Action.OnFailed(j));
          state := Next(state, Action.OnFailed(j));
        }
      }
    }

    /** Of the rows it meets, the UPDATE puts back those queued for more than fifteen minutes, and no other. */
    method ResetStuckPluginEvents() returns (ok: bool, ghost seen: State)
      modifies this
      ensures Reaches(old(state), seen) && Reaches(old(state), state)
      ensures ok == Returns(old(faults)) && (!Takes(old(faults)) ==> state == seen)
      ensures (Takes(old(faults)) ==>
                 && state.rows.Keys == seen.rows.Keys && state.now == seen.now
                 && (forall e :: e in seen.rows ==>
                       var row := seen.rows[e];
                       state.rows[e] ==
                         if row.status == Queued && row.queuedAt.Some? && row.queuedAt.value < seen.now - 15.0
                         then row.(status := Pending, queuedAt := None) else row))
    {
      Await(Nobody);
      seen := state;
      var took;
      ok, took := Call();
      if took {
        ReachesStep(old(state), state, CronReset);
        state := Next(state, CronReset);
      }
    }

    /** Of the rows it meets, the DELETE leaves those that have not expired, as they are. */
    method PurgeExpiredPluginEvents() returns (ok: bool, ghost seen: State)
      modifies this
      ensures Reaches(old(state), seen) && Reaches(old(state), state)
      ensures ok == Returns(old(faults)) && (!Takes(old(faults)) ==> state == seen)
      ensures (Takes(old(faults)) ==>
                 && state.now == seen.now
                 && (forall e :: e in state.rows <==> e in seen.rows && seen.rows[e].expires >= seen.now)
                 && (forall e :: e in state.rows ==> state.rows[e] == seen.rows[e]))
    {
      Await(Nobody);
      ghost var s := state;
      AwaitLocks(Nobody, CronPurge);
      ReachesThen(old(state), s, state);
      seen := state;
      var took;
      ok, took := Call();
      if took {
        assert forall e :: e in InTheWay(state, CronPurge) <==>
                             e in state.rows && state.rows[e].expires < state.now && Locked(state, e);
        ReachesStep(old(state), state, CronPurge);
        state := Next(state, CronPurge);
      }
    }
  }

  /** What the SELECT may return: pending, unexpired, and neither the row nor its tenant in an open claim. */
  ghost predicate MaySelect(s: State, e: EventId) {
    && e in s.rows && s.rows[e].status == Pending && s.rows[e].expires > s.now
    && forall p :: p in s.open ==> e !in s.open[p].batch && s.rows[e].tenant !in s.open[p].tenants
  }

  /** Fifty of those rows, or all of them. */
  ghost predicate IsBatch(s: State, batch: set<EventId>) {
    && |batch| <= 50
    && (forall e :: e in batch ==> MaySelect(s, e))
    && (|batch| < 50 ==> forall e :: MaySelect(s, e) ==> e in batch)
  }

  /** The machine selects the same batches, and none when there is nothing to select. */
  lemma SelectIff(s: State, p: nat, batch: set<EventId>)
    ensures Enabled(s, Select(p, batch)) <==> p !in s.open && batch != {} && IsBatch(s, batch)
  {
    forall e ensures MaySelect(s, e) <==> Selectable(s, e) {}
  }

  // ---------------------------------------------------------------- the event registry

  /** The definition last registered under a name. */
  function Registered<D>(log: seq<(string, EventDefinition<D>)>, name: string): Option<EventDefinition<D>> {
    if log == [] then None
    else if log[|log| - 1].0 == name then Some(log[|log| - 1].1)
    else Registered(log[..|log| - 1], name)
  }

  datatype EmitResult = Emitted | ResourceNotFound | SchemaError | InsertFailed

  class EventRegistryService<!D> {
    const backend: Backend
    var definitions: map<string, EventDefinition<D>>
    /** Every registration so far. */
    ghost var log: seq<(string, EventDefinition<D>)>

    /** Under each name stands the definition last registered for it, and nothing else does. */
    ghost predicate Valid()
      reads this
    {
      forall name :: Registered(log, name) == if name in definitions then Some(definitions[name]) else None
    }

    constructor (backend: Backend)
      ensures Valid() && log == [] && this.backend == backend
    {
      this.backend, definitions, log := backend, map[], [];
    }

    method Register(name: string, def: EventDefinition<D>)
      requires Valid()
      modifies this
      ensures Valid() && log == old(log) + [(name, def)]
    {
      definitions := definitions[name := def];
      log := log + [(name, def)];
      assert log[..|log| - 1] == old(log);
    }

    /** A row is inserted exactly when the definition last registered under the name accepts the data,
        and the insert does not throw; one that throws may have inserted it; otherwise nothing changes. */
    method Emit(name: string, tenant: nat, data: D, e: EventId) returns (r: EmitResult)
      requires Valid() && e !in backend.state.ledger
      modifies backend`state, backend`faults
      ensures Reaches(old(backend.state), backend.state)
      ensures r == ResourceNotFound <==> Registered(log, name) == None
      ensures r == SchemaError <==> Registered(log, name).Some? && !Registered(log, name).value.schema(data)
      ensures r.Emitted? || r.InsertFailed? ==> (r.Emitted? <==> Returns(old(backend.faults)))
      ensures (if (r.Emitted? || r.InsertFailed?) && Takes(old(backend.faults))
               then IsInserted(old(backend.state), backend.state, tenant, e)
               else backend.state == old(backend.state))
    {
      ReachesSelf(backend.state);
      assert Registered(log, name) == if name in definitions then Some(definitions[name]) else None;
      if name !in definitions {
        return ResourceNotFound;
      }
      if !definitions[name].schema(data) {
        return SchemaError;
      }
      var ok := backend.Insert(tenant, e);
      r := if ok then Emitted else InsertFailed;
    }
  }

  /** The order of an attempt's steps. */
  predicate IsDue(job: Job, j: nat, a: Action) {
    match a
    case Fire(i) => i == j && job.phase == Running(false, false)
    case MarkProcessed(i) => i == j && job.phase == Running(true, false)
    case Finish(i) => i == j && job.phase == Running(true, true)
    case _ => false
  }

  /** The job after a step of its worker. */
  function After(job: Job, a: Action): Job {
    match a
    case Fire(_) => job.(phase := Running(true, false), fires := job.fires + 1)
    case MarkProcessed(_) => job.(phase := Running(true, true))
    case Finish(_) => job.(phase := Done)
    case _ => job.(made := job.made + 1, phase := if job.made + 1 < ATTEMPTS then Waiting else Failed(false))
  }

  lemma LoseOne(s: State, e: EventId, todo: set<EventId>)
    requires e in todo && multiset(todo) <= s.adds
    ensures Enabled(s, LoseAdd(e)) && Next(s, LoseAdd(e)) == s.(adds := s.adds - multiset{e})
    ensures multiset(todo - {e}) <= s.adds - multiset{e}
  {
    assert s.adds[e] >= multiset(todo)[e];
    forall x ensures multiset(todo - {e})[x] <= (s.adds - multiset{e})[x] {
      assert multiset(todo)[x] <= s.adds[x];
    }
  }

  lemma CallsLeft(adds: multiset<EventId>, batch: set<EventId>, todo: set<EventId>, e: EventId)
    requires e in todo && todo <= batch
    ensures adds - multiset(batch - todo) - multiset{e} == adds - multiset(batch - (todo - {e}))
  {
    assert batch - (todo - {e}) == (batch - todo) + {e};
    assert multiset((batch - todo) + {e}) == multiset(batch - todo) + multiset{e};
  }

  lemma JobsStay(s: State, s': State, n: nat, enqueued: set<EventId>)
    requires Keeps(Nobody, s, s')
    requires forall e :: e in enqueued ==> HasJobFrom(s, n, e)
    ensures forall e :: e in enqueued ==> HasJobFrom(s', n, e)
  {
    forall e | e in enqueued ensures HasJobFrom(s', n, e) {
      var j :| n <= j < |s.jobs| && s.jobs[j].event == e;
      assert s'.jobs[j].event == e;
    }
  }
}
