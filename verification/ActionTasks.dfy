/** The tasks over the action rows, written as the code runs them: at each await the other tasks may do
    anything that is not this task's to do.  Every task is a run of the ActionRows machine. */
module ActionTasks {
  import opened ActionRows

  /** What a suspended task holds on to: a poller its transaction and its outstanding enqueue calls,
      a worker its job. */
  datatype Owner = Poller(p: nat, pending: multiset<RowId>) | Worker(j: nat)

  /** Steps only the owner itself takes.  The failure handler of an earlier attempt is another task. */
  predicate Mine(owner: Owner, s: State, a: Action) {
    match owner
    case Poller(p, pending) =>
      || ((a.Select? || a.Commit? || a.Abort?) && a.p == p)
      || ((a.Enqueue? || a.LoseAdd?) && s.adds[a.e] <= pending[a.e])
    case Worker(j) => ByWorker(a) && !a.Notify? && a.j == j
  }

  /** Nothing else is kept from the others. */
  lemma OnlyOwnSteps(owner: Owner, s: State, a: Action)
    requires Mine(owner, s, a)
    ensures (&& owner.Poller?
             && (a in {Commit(owner.p), Abort(owner.p)} || (a.Select? && a.p == owner.p)
                 || ((a.Enqueue? || a.LoseAdd?) && s.adds[a.e] <= owner.pending[a.e])))
            || (owner.Worker? && ByWorker(a) && !a.Notify? && a.j == owner.j)
  {
  }

  /** What an owner finds as it left it. */
  ghost predicate Keeps(owner: Owner, s: State, s': State) {
    JobsStay(s, s') && Holds(owner, s, s')
  }

  ghost predicate JobsStay(s: State, s': State) {
    forall e :: HasJob(s, e) ==> HasJob(s', e)
  }

  ghost predicate Holds(owner: Owner, s: State, s': State) {
    match owner
    case Poller(p, pending) =>
      && (p in s.open <==> p in s'.open) && (p in s.open ==> s'.open[p] == s.open[p])
      && (pending <= s.adds ==> pending <= s'.adds)
    case Worker(j) =>
      j < |s.jobs| ==> j < |s'.jobs| && s'.jobs[j] == s.jobs[j].(notices := s'.jobs[j].notices)
  }

  lemma JobStays(s: State, a: Action)
    requires Enabled(s, a)
    ensures JobsStay(s, Next(s, a))
  {
    var s' := Next(s, a);
    forall e | HasJob(s, e) ensures HasJob(s', e) {
      var j :| 0 <= j < |s.jobs| && s.jobs[j].row == e;
      assert s'.jobs[j].row == e;
    }
  }

  lemma OthersKeep(owner: Owner, s: State, a: Action)
    requires Enabled(s, a) && !Mine(owner, s, a)
    ensures Holds(owner, s, Next(s, a))
  {
    if owner.Poller? && owner.pending <= s.adds {
      forall e ensures owner.pending[e] <= Next(s, a).adds[e] {
        assert owner.pending[e] <= s.adds[e];
      }
    }
  }

  lemma {:induction false} Concat(s: State, a: seq<Action>, b: seq<Action>)
    requires Legal(s, a) && Legal(Exec(s, a), b)
    ensures Legal(s, a + b) && Exec(s, a + b) == Exec(Exec(s, a), b)
    decreases |a|
  {
    if a == [] {
      assert a + b == b;
    } else {
      Concat(Next(s, a[0]), a[1..], b);
      assert (a + b)[1..] == a[1..] + b;
    }
  }

  /** s' is reached from s by some run: the invariant holds, and rows that were over by then stay over. */
  ghost predicate Reaches(s: State, s': State) {
    && (exists run :: Legal(s, run) && Exec(s, run) == s')
    && Inv(s')
    && (forall e :: e in s.rows ==> e in s'.rows)
    && (forall e :: e in s.rows && !Live(s, e) ==> !Live(s', e))
  }

  /** What holds in every reachable state holds after any mix of these tasks. */
  lemma TasksStayReachable(s: State, s': State)
    requires Reachable(s) && Reaches(s, s')
    ensures Reachable(s')
  {
    var s0, a :| Initial(s0) && Legal(s0, a) && Exec(s0, a) == s;
    var b :| Legal(s, b) && Exec(s, b) == s';
    Concat(s0, a, b);
    assert Legal(s0, a + b);
  }

  lemma ReachesSelf(s: State)
    requires Inv(s)
    ensures Reaches(s, s)
  {
    assert Legal(s, []) && Exec(s, []) == s;
  }

  lemma RowsStay(s: State, a: Action)
    requires Enabled(s, a)
    ensures forall e :: e in s.rows ==> e in Next(s, a).rows
  {
  }

  lemma ReachesStep(s0: State, s: State, a: Action)
    requires Reaches(s0, s) && Enabled(s, a)
    ensures Reaches(s0, Next(s, a))
  {
    var run :| Legal(s0, run) && Exec(s0, run) == s;
    Append(s0, run, a);
    assert Legal(s0, run + [a]);
    InvStep(s, a);
    RowsStay(s, a);
    forall e | e in s0.rows && !Live(s0, e) ensures !Live(Next(s, a), e) {
      DeadStep(s, a, e);
    }
  }

  function IdsFrom(rows: seq<RowId>, i: nat): multiset<RowId>
    requires i <= |rows|
  {
    multiset(rows[i..])
  }

  /** What the faults to come say: the k-th answer. */
  predicate FaultAt(faults: seq<bool>, k: nat) {
    k < |faults| && faults[k]
  }

  /** The next call returns; it takes effect, whether or not it returns. */
  predicate Returns(faults: seq<bool>) {
    !FaultAt(faults, 0)
  }

  predicate Takes(faults: seq<bool>) {
    Returns(faults) || FaultAt(faults, 1)
  }

  /** The state after the other tasks' steps: of those they try, the possible ones that are not the
      owner's. */
  function Acted(owner: Owner, s: State, script: seq<Action>): State
    decreases |script|
  {
    if script == [] then s
    else
      var n := |script| - 1;
      var t := Acted(owner, s, script[..n]);
      if Enabled(t, script[n]) && !Mine(owner, t, script[n]) then Next(t, script[n]) else t
  }

  class Backend {
    var state: State
    /** What the other tasks try to do at each await to come; and for each call to come whether it
        throws, and if so whether it took effect. */
    var others: seq<seq<Action>>
    var faults: seq<bool>

    constructor ()
      ensures Reachable(state)
    {
      var initial := State(map[], map[], multiset{}, []);
      state, others, faults := initial, [], [];
      new;
      assert Initial(initial) && Legal(initial, []) && Exec(initial, []) == initial;
    }

    method Await(owner: Owner, ghost s0: State)
      requires Reaches(s0, state)
      modifies this`state, this`others
      ensures Reaches(s0, state) && Keeps(owner, old(state), state)
      ensures state == Acted(owner, old(state), if old(others) == [] then [] else old(others)[0])
      ensures others == if old(others) == [] then [] else old(others)[1..]
    {
      hide Reaches, Enabled, Next, Mine;
      var script := [];
      if others != [] {
        script, others := others[0], others[1..];
      }
      for i := 0 to |script|
        invariant Reaches(s0, state) && Keeps(owner, old(state), state)
        invariant state == Acted(owner, old(state), script[..i])
        invariant others == if old(others) == [] then [] else old(others)[1..]
      {
        assert script[..i + 1][..i] == script[..i];
        if Enabled(state, script[i]) && !Mine(owner, state, script[i]) {
          OthersKeep(owner, state, script[i]);
          JobStays(state, script[i]);
          ReachesStep(s0, state, script[i]);
          state := Next(state, script[i]);
        }
      }
      assert script[..|script|] == script;
    }

    method Throws() returns (b: bool)
      modifies this`faults
      ensures b == FaultAt(old(faults), 0) && (b ==> true in old(faults))
      ensures faults == if old(faults) == [] then [] else old(faults)[1..]
      ensures forall x :: x in faults ==> x in old(faults)
    {
      b := faults != [] && faults[0];
      faults := if faults == [] then [] else faults[1..];
    }

    /** A call: ok when it returned; took when it took effect, which it may also have done when it threw. */
    method Call() returns (ok: bool, took: bool)
      modifies this`faults
      ensures ok == Returns(old(faults)) && took == Takes(old(faults))
      ensures !ok ==> true in old(faults)
      ensures forall x :: x in faults ==> x in old(faults)
    {
      var threw := Throws();
      ok, took := !threw, !threw;
      if threw {
        took := Throws();
      }
    }

    method Do(a: Action, ghost s0: State)
      requires Reaches(s0, state) && Enabled(state, a)
      modifies this`state
      ensures Reaches(s0, state) && state == Next(old(state), a)
    {
      ReachesStep(s0, state, a);
      state := Next(state, a);
    }

    method LoseOne(batch: seq<RowId>, i: nat, ghost s0: State)
      requires Reaches(s0, state) && i < |batch| && IdsFrom(batch, i) <= state.adds
      modifies this`state
      ensures Reaches(s0, state) && IdsFrom(batch, i + 1) <= state.adds
      ensures IsOver(state, batch[i]) && StayOver(old(state), state)
      ensures state.open == old(state.open) && state.jobs == old(state.jobs)
    {
      ghost var s := state;
      NextId(batch, i);
      Do(LoseAdd(batch[i]), s0);
      LostIsOver(s, batch[i]);
      forall e | IsOver(s, e) ensures IsOver(state, e) {
        DeadStep(s, LoseAdd(batch[i]), e);
      }
    }

    /** The rest of the batch when one enqueue call has thrown: no later call is made. */
    method Abandon(batch: seq<RowId>, from: nat, ghost s0: State)
      requires Reaches(s0, state) && from <= |batch| && IdsFrom(batch, from) <= state.adds
      modifies this`state
      ensures Reaches(s0, state) && state.open == old(state.open) && state.jobs == old(state.jobs)
      ensures forall k :: from <= k < |batch| ==> IsOver(state, batch[k])
    {
      hide *;
      for i := from to |batch|
        invariant Reaches(s0, state) && IdsFrom(batch, i) <= state.adds
        invariant state.open == old(state.open) && state.jobs == old(state.jobs)
        invariant forall k :: from <= k < i ==> IsOver(state, batch[k])
      {
        LoseOne(batch, i, s0);
      }
    }

    method AddOne(p: nat, batch: seq<RowId>, i: nat, ghost s0: State) returns (ok: bool, took: bool)
      requires Reaches(s0, state) && p !in state.open && i < |batch| && IdsFrom(batch, i) <= state.adds
      modifies this
      ensures Reaches(s0, state) && p !in state.open
      ensures IdsFrom(batch, if took then i + 1 else i) <= state.adds
      ensures JobsStay(old(state), state) && (took ==> HasJob(state, batch[i]))
      ensures took ==> state.jobs != [] && state.jobs[|state.jobs| - 1] == Job(batch[i], 0, 0, 0, 0, Waiting)
      ensures ok == Returns(old(faults)) && took == Takes(old(faults)) && (!ok ==> true in old(faults))
      ensures ok ==> took
      ensures forall x :: x in faults ==> x in old(faults)
    {
      hide Reaches, Keeps, Enabled, Next;
      ghost var before := state;
      Await(Poller(p, IdsFrom(batch, i)), s0);
      OwnerKeeps(p, batch, i, before, state);
      ok, took := Call();
      if took {
        EnqueueOne(p, batch, i, state);
        JobsStayThen(before, state, Next(state, Enqueue(batch[i])));
        Do(Enqueue(batch[i]), s0);
      }
    }

    /** The enqueue loop: one call after the other, and the first that throws ends it.  The first n rows
        have a job: that of the call that threw among them, when the queue took it all the same. */
    method Add(p: nat, batch: seq<RowId>, ghost s0: State) returns (ok: bool, n: nat)
      requires Reaches(s0, state) && p !in state.open && IdsFrom(batch, 0) <= state.adds
      modifies this
      ensures Reaches(s0, state) && p !in state.open && n <= |batch|
      ensures forall k :: 0 <= k < n ==> HasJob(state, batch[k])
      ensures forall k :: n <= k < |batch| ==> IsOver(state, batch[k])
      ensures if ok then n == |batch| else true in old(faults)
    {
      hide *;
      ok, n := true, 0;
      while ok && n < |batch|
        invariant n <= |batch| && Reaches(s0, state) && p !in state.open && IdsFrom(batch, n) <= state.adds
        invariant forall k :: 0 <= k < n ==> HasJob(state, batch[k])
        invariant forall x :: x in faults ==> x in old(faults)
        invariant !ok ==> true in old(faults)
        decreases ok, |batch| - n
      {
        ghost var s := state;
        var took;
        ok, took := AddOne(p, batch, n, s0);
        JobsStayFor(s, state, batch, n);
        n := if took then n + 1 else n;
      }
      ghost var s := state;
      Abandon(batch, n, s0);
      SameJobs(s, state);
      JobsStayFor(s, state, batch, n);
    }

    /** SELECT ... ORDER BY scheduled_at LIMIT 50 FOR UPDATE SKIP LOCKED. */
    method SelectOldest() returns (batch: seq<RowId>)
      ensures IsBatch(state, batch) && |batch| <= BATCH_SIZE
      ensures IsOldestFifty(state, Ids(batch))
    {
      batch := [];
      var left := SelectableSet(state);
      while |batch| < BATCH_SIZE && left != {}
        invariant IsOldest(state, batch, left) && |batch| <= BATCH_SIZE
        decreases left
      {
        var x := OldestOf(left);
        OldestGrows(state, batch, left, x);
        batch := batch + [x];
        left := left - {x};
      }
      OldestIsLegal(state, batch, left);
      BatchIsOldest(state, batch);
    }

    /** One round of a poller: claim the oldest rows in a transaction, then enqueue them in order.  What
        it claims is a legal batch of the state it saw, oldest first; it ends without a lock; the first n
        of the rows it claimed have a job, and the rest are over: all of them, when the commit took effect
        but threw. */
    method Poll(p: nat) returns (failed: bool, claimed: seq<RowId>, n: nat, ghost seen: State)
      requires Inv(state) && p !in state.open
      modifies this
      ensures Reaches(old(state), seen) && Reaches(old(state), state) && p !in state.open
      ensures claimed != [] || !failed ==> IsBatch(seen, claimed) && IsOldestFifty(seen, Ids(claimed))
      ensures n <= |claimed|
      ensures forall k :: 0 <= k < n ==> HasJob(state, claimed[k])
      ensures forall k :: n <= k < |claimed| ==> IsOver(state, claimed[k])
      ensures if failed then true in old(faults) else n == |claimed|
    {
      ghost var s0 := state;
      ReachesSelf(s0);
      hide *;
      n := 0;
      failed, claimed, seen := Claim(p, s0);
      if claimed != [] || !failed {
        BatchIsOldest(seen, claimed);
      }
      if !failed {
        var ok;
        ok, n := Add(p, claimed, s0);
        failed := !ok;
      }
    }

    /** The transaction: SELECT, UPDATE, COMMIT, with an await before each.  Rows of a commit that took
        effect but threw are claimed and never enqueued. */
    method Claim(p: nat, ghost s0: State) returns (failed: bool, claimed: seq<RowId>, ghost seen: State)
      requires Reaches(s0, state) && p !in state.open
      modifies this
      ensures Reaches(s0, state) && Reaches(s0, seen) && p !in state.open
      ensures failed ==> true in old(faults) && forall k :: 0 <= k < |claimed| ==> IsOver(state, claimed[k])
      ensures claimed != [] || !failed ==> IsBatch(seen, claimed)
      ensures !failed ==> IdsFrom(claimed, 0) <= state.adds
      ensures forall x :: x in faults ==> x in old(faults)
    {
      hide *;
      failed := false;
      claimed, seen := Open(p, s0);
      if claimed == [] {
        NoIds(state.adds);
      } else {
        var ok, took := Close(p, claimed, s0);
        failed := !ok;
        if !took {
          claimed := [];
        } else if failed {
          Abandon(claimed, 0, s0);
        }
      }
    }

    method Open(p: nat, ghost s0: State) returns (batch: seq<RowId>, ghost seen: State)
      requires Reaches(s0, state) && p !in state.open
      modifies this`state, this`others
      ensures Reaches(s0, state) && Reaches(s0, seen) && IsBatch(seen, batch) && Distinct(batch)
      ensures if batch == [] then p !in state.open else p in state.open && state.open[p] == Ids(batch)
    {
      Await(Poller(p, multiset{}), s0);
      seen := state;
      batch := SelectOldest();
      if batch != [] {
        Do(Select(p, Ids(batch)), s0);
      }
    }

    method Close(p: nat, batch: seq<RowId>, ghost s0: State) returns (ok: bool, took: bool)
      requires Reaches(s0, state) && p in state.open && state.open[p] == Ids(batch) && Distinct(batch)
      modifies this
      ensures Reaches(s0, state) && p !in state.open
      ensures (took ==> IdsFrom(batch, 0) <= state.adds) && (ok ==> took) && (!ok ==> true in old(faults))
      ensures forall x :: x in faults ==> x in old(faults)
    {
      Await(Poller(p, multiset{}), s0);
      ok, took := Call();
      if !took {
        Do(Abort(p), s0);
      } else {
        ghost var adds := state.adds;
        Do(Commit(p), s0);
        DistinctIds(batch);
        assert batch[0..] == batch;
        assert state.adds == adds + multiset(Ids(batch));
      }
    }

    method Take(j: nat, ghost s0: State)
      requires Reaches(s0, state) && j < |state.jobs| && state.jobs[j].phase == Waiting
      modifies this
      ensures Reaches(s0, state) && j < |state.jobs|
      ensures state.jobs[j] == old(state.jobs[j]).(phase := Active(Fresh)) && faults == old(faults)
    {
      Do(Start(j), s0);
    }

    /** The worker of job j awaits and then takes its next step; when that threw, the attempt failed,
        whether or not the table was written. */
    method Step(j: nat, a: Action, ghost s0: State) returns (ok: bool)
      requires Reaches(s0, state) && j < |state.jobs| && IsDue(state.jobs[j], j, a)
      modifies this
      ensures Reaches(s0, state) && j < |state.jobs|
      ensures ok ==> SameRecord(state.jobs[j], After(old(state.jobs[j]), a))
      ensures !ok ==> FailedOnce(old(state.jobs[j]), state.jobs[j]) && true in old(faults)
      ensures forall x :: x in faults ==> x in old(faults)
    {
      hide Reaches, Enabled, Next;
      Await(Worker(j), s0);
      var took;
      ok, took := Call();
      DueStep(state, j, a);
      if ok || (took && IsWrite(a)) {
        Do(a, s0);
      }
      if !ok {
        FailStep(state, j);
        Do(FailAttempt(j), s0);
      }
    }

    /** The tenant's lookup decides: a missing tenant is recorded without calling the handler. */
    method Handle(j: nat, tenantExists: bool, ghost s0: State) returns (ok: bool)
      requires Reaches(s0, state) && j < |state.jobs| && state.jobs[j].phase == Active(Begun)
      modifies this
      ensures Reaches(s0, state) && j < |state.jobs|
      ensures ok ==> SameRecord(state.jobs[j], Handled(old(state.jobs[j]), tenantExists))
      ensures !ok ==> FailedOnce(old(state.jobs[j]), state.jobs[j]) && true in old(faults)
      ensures forall x :: x in faults ==> x in old(faults)
    {
      hide Reaches;
      if !tenantExists {
        ok := Step(j, TenantMissing(j), s0);
      } else {
        ok := Step(j, Return(j), s0);
        if ok {
          ok := Step(j, Complete(j), s0);
        }
      }
    }

    /** One attempt: mark processing, look the tenant up, call the handler, mark the outcome.  A
        missing tenant ends the job without a retry. */
    method Process(j: nat, tenantExists: bool, ghost s0: State) returns (ok: bool)
      requires Reaches(s0, state) && j < |state.jobs| && state.jobs[j].phase == Waiting
      modifies this
      ensures Reaches(s0, state) && j < |state.jobs|
      ensures (ok ==>
                 var job := old(state.jobs[j]);
                 SameRecord(state.jobs[j],
                            job.(begins := job.begins + 1, phase := Ended,
                                 handled := job.handled + if tenantExists then 1 else 0)))
      ensures !ok ==> FailedOnce(old(state.jobs[j]), state.jobs[j]) && true in old(faults)
    {
      hide Reaches;
      Take(j, s0);
      ok := Step(j, Begin(j), s0);
      if ok {
        ok := Handle(j, tenantExists, s0);
      }
      if ok {
        ok := Step(j, Finish(j), s0);
      }
    }

    /** The failure handler runs after any failed attempt, not only the last, and marks the row failed. */
    method OnFailed(j: nat) returns (ok: bool)
      requires Inv(state) && j < |state.jobs| && state.jobs[j].notices > 0
      modifies this
      ensures Reaches(old(state), state)
      ensures (if ok then old(state.jobs[j].row) in state.rows && state.rows[old(state.jobs[j].row)].status == Failed
               else true in old(faults))
    {
      ghost var s0 := state;
      ReachesSelf(s0);
      var took;
      ok, took := Call();
      if took {
        Do(Notify(j), s0);
      }
    }

    method OldestOf(rows: set<RowId>) returns (x: RowId)
      requires rows != {} && forall e :: e in rows ==> e in state.rows
      ensures x in rows && forall e :: e in rows ==> NotAfter(state, x, e)
    {
      x :| x in rows;
      var left := rows - {x};
      while left != {}
        invariant x in rows && left <= rows
        invariant forall e :: e in rows && e !in left ==> NotAfter(state, x, e)
        decreases left
      {
        var y :| y in left;
        if !NotAfter(state, x, y) {
          x := y;
        }
        left := left - {y};
      }
    }
  }

  /** The order of an attempt's steps. */
  predicate IsDue(job: Job, j: nat, a: Action) {
    match a
    case Begin(i) => i == j && job.phase == Active(Fresh)
    case TenantMissing(i) => i == j && job.phase == Active(Begun)
    case Return(i) => i == j && job.phase == Active(Begun)
    case Complete(i) => i == j && job.phase == Active(Returned)
    case Finish(i) => i == j && job.phase == Active(Recorded)
    case _ => false
  }

  lemma DueStep(s: State, j: nat, a: Action)
    requires j < |s.jobs| && IsDue(s.jobs[j], j, a)
    ensures Enabled(s, a) && |Next(s, a).jobs| == |s.jobs|
    ensures SameRecord(Next(s, a).jobs[j], After(s.jobs[j], a))
  {
  }

  lemma FailStep(s: State, j: nat)
    requires j < |s.jobs| && s.jobs[j].phase.Active?
    ensures Enabled(s, FailAttempt(j)) && |Next(s, FailAttempt(j)).jobs| == |s.jobs|
    ensures FailedOnce(s.jobs[j], Next(s, FailAttempt(j)).jobs[j])
  {
  }

  /** The steps that write the row and leave the attempt running. */
  predicate IsWrite(a: Action) {
    a.Begin? || a.TenantMissing? || a.Complete?
  }

  /** Equal up to the failure handlers still to run. */
  predicate SameRecord(a: Job, b: Job) {
    a == b.(notices := a.notices)
  }

  predicate FailedOnce(job: Job, job': Job) {
    && job'.made == job.made + 1
    && job'.phase == if job'.made < ATTEMPTS then Waiting else Exhausted
  }

  function Handled(job: Job, tenantExists: bool): Job {
    job.(phase := Active(Recorded), handled := job.handled + if tenantExists then 1 else 0)
  }

  /** The job after a step of its worker. */
  function After(job: Job, a: Action): Job {
    match a
    case Begin(_) => job.(phase := Active(Begun), begins := job.begins + 1)
    case Return(_) => job.(phase := Active(Returned), handled := job.handled + 1)
    case TenantMissing(_) => job.(phase := Active(Recorded))
    case Complete(_) => job.(phase := Active(Recorded))
    case _ => job.(phase := Ended)
  }

  function Ids(batch: seq<RowId>): set<RowId> {
    set e | e in batch
  }

  ghost predicate Distinct(batch: seq<RowId>) {
    forall i, j :: 0 <= i < j < |batch| ==> batch[i] != batch[j]
  }

  /** Distinct rows, oldest first. */
  ghost predicate InOrder(s: State, batch: seq<RowId>) {
    && Distinct(batch)
    && (forall e :: e in batch ==> e in s.rows)
    && (forall i, j :: 0 <= i < j < |batch| ==> NotAfter(s, batch[i], batch[j]))
  }

  /** What the SELECT returns: the oldest rows in order, or none when nothing is selectable. */
  ghost predicate IsBatch(s: State, batch: seq<RowId>) {
    && InOrder(s, batch)
    && if batch == [] then SelectableSet(s) == {} else LegalBatch(s, Ids(batch))
  }

  /** Pending and in no open claim. */
  ghost predicate MaySelect(s: State, e: RowId) {
    e in s.rows && s.rows[e].status == Pending && forall p :: p in s.open ==> e !in s.open[p]
  }

  /** The fifty of them scheduled first, or all. */
  ghost predicate IsOldestFifty(s: State, batch: set<RowId>) {
    && |batch| <= 50
    && (forall e :: e in batch ==> MaySelect(s, e))
    && (|batch| < 50 ==> forall e :: MaySelect(s, e) ==> e in batch)
    && (forall x, y :: x in batch && MaySelect(s, x) && MaySelect(s, y) && y !in batch ==>
          s.rows[x].scheduledAt <= s.rows[y].scheduledAt)
  }

  lemma MaySelectIff(s: State, e: RowId)
    ensures MaySelect(s, e) <==> Selectable(s, e)
  {
  }

  /** The machine selects the same batches, and none when there is nothing to select. */
  lemma SelectIff(s: State, p: nat, batch: set<RowId>)
    ensures Enabled(s, Select(p, batch)) <==> p !in s.open && batch != {} && IsOldestFifty(s, batch)
  {
    forall e ensures MaySelect(s, e) <==> Selectable(s, e) {
      MaySelectIff(s, e);
    }
    hide MaySelect, Selectable;
  }

  lemma BatchIsOldest(s: State, batch: seq<RowId>)
    requires IsBatch(s, batch)
    ensures IsOldestFifty(s, Ids(batch))
  {
    forall e ensures MaySelect(s, e) <==> Selectable(s, e) {
      MaySelectIff(s, e);
    }
    hide MaySelect, Selectable;
    if batch == [] {
      assert Ids(batch) == {};
      assert forall e :: Selectable(s, e) ==> e in SelectableSet(s);
    }
  }

  lemma NoIds(adds: multiset<RowId>)
    ensures IdsFrom([], 0) <= adds
  {
  }

  /** batch is what comes before left among the selectable rows. */
  ghost predicate IsOldest(s: State, batch: seq<RowId>, left: set<RowId>) {
    && InOrder(s, batch)
    && (forall e :: e in left ==> e !in batch)
    && (forall e :: Selectable(s, e) <==> e in batch || e in left)
    && (forall x, y :: x in batch && y in left ==> x in s.rows && y in s.rows && NotAfter(s, x, y))
  }

  lemma OldestGrows(s: State, batch: seq<RowId>, left: set<RowId>, x: RowId)
    requires IsOldest(s, batch, left) && x in left
    requires forall e :: e in left ==> e in s.rows && x in s.rows && NotAfter(s, x, e)
    ensures IsOldest(s, batch + [x], left - {x})
  {
  }

  lemma OldestIsLegal(s: State, batch: seq<RowId>, left: set<RowId>)
    requires IsOldest(s, batch, left) && |batch| <= BATCH_SIZE
    requires |batch| < BATCH_SIZE ==> left == {}
    ensures if batch == [] then SelectableSet(s) == {} else LegalBatch(s, Ids(batch))
  {
    DistinctIds(batch);
    assert |multiset(batch)| == |batch|;
    assert |multiset(Ids(batch))| == |Ids(batch)|;
    if batch != [] {
      assert batch[0] in Ids(batch);
    }
  }

  lemma {:induction false} DistinctIds(batch: seq<RowId>)
    requires Distinct(batch)
    ensures multiset(Ids(batch)) == multiset(batch)
    decreases |batch|
  {
    if batch != [] {
      var n := |batch| - 1;
      DistinctIds(batch[..n]);
      assert batch == batch[..n] + [batch[n]];
      assert Ids(batch) == Ids(batch[..n]) + {batch[n]};
    }
  }

  lemma OwnerKeeps(p: nat, batch: seq<RowId>, i: nat, s: State, s': State)
    requires i <= |batch| && p !in s.open && IdsFrom(batch, i) <= s.adds
    requires Keeps(Poller(p, IdsFrom(batch, i)), s, s')
    ensures p !in s'.open && IdsFrom(batch, i) <= s'.adds && JobsStay(s, s')
  {
  }

  lemma EnqueueOne(p: nat, batch: seq<RowId>, i: nat, s: State)
    requires i < |batch| && p !in s.open && IdsFrom(batch, i) <= s.adds
    ensures Enabled(s, Enqueue(batch[i]))
    ensures var s' := Next(s, Enqueue(batch[i]));
            && p !in s'.open && IdsFrom(batch, i + 1) <= s'.adds
            && s'.jobs != [] && s'.jobs[|s'.jobs| - 1] == Job(batch[i], 0, 0, 0, 0, Waiting)
            && JobsStay(s, s') && HasJob(s', batch[i])
  {
    NextId(batch, i);
    JobStays(s, Enqueue(batch[i]));
    JobAppended(s, batch[i], batch[i]);
  }

  lemma JobsStayThen(s0: State, s1: State, s2: State)
    requires JobsStay(s0, s1) && JobsStay(s1, s2)
    ensures JobsStay(s0, s2)
  {
  }

  ghost predicate IsOver(s: State, e: RowId) {
    e in s.rows && !Live(s, e)
  }

  ghost predicate StayOver(s: State, s': State) {
    forall e :: IsOver(s, e) ==> IsOver(s', e)
  }

  lemma SameJobs(s: State, s': State)
    requires s.jobs == s'.jobs
    ensures JobsStay(s, s')
  {
  }

  lemma JobsStayFor(s: State, s': State, batch: seq<RowId>, n: nat)
    requires JobsStay(s, s') && n <= |batch|
    requires forall k :: 0 <= k < n ==> HasJob(s, batch[k])
    ensures forall k :: 0 <= k < n ==> HasJob(s', batch[k])
  {
  }

  lemma NextId(batch: seq<RowId>, i: nat)
    requires i < |batch|
    ensures IdsFrom(batch, i) == IdsFrom(batch, i + 1) + multiset{batch[i]}
  {
    assert batch[i..] == [batch[i]] + batch[i + 1..];
  }

  lemma LostIsOver(s: State, e: RowId)
    requires Inv(s) && e in s.adds
    ensures e in s.rows && !Live(Next(s, LoseAdd(e)), e)
  {
    assert !HasJob(s, e);
  }
}
