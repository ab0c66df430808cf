/** The plugin event outbox: rows inserted pending, pollers that claim them in a locking
    transaction and enqueue after commit, jobs with three attempts, a handler that may put an
    exhausted event back, and the crons that reset stuck rows and purge expired ones.

    Any number of pollers and workers interleave; an action is one atomic step of one of them. */
module Outbox {
  import opened Options

  type EventId = nat

  const BATCH_SIZE: nat := 50
  const ATTEMPTS: nat := 3
  const STUCK_AFTER: real := 15.0       // minutes
  const TTL: real := 10080.0            // seven days, in minutes

  datatype RowStatus = Pending | Queued | Processed

  datatype EventRow = EventRow(tenant: nat, status: RowStatus, queuedAt: Option<real>, expires: real)

  /** A poll transaction between its SELECT ... FOR UPDATE SKIP LOCKED and its end.  The SELECT
      joins tenants, so it holds the tenant rows of its batch as well. */
  datatype Claim = Claim(batch: set<EventId>, tenants: set<nat>, started: real)

  datatype Phase = Waiting | Running(fired: bool, marked: bool) | Failed(notified: bool) | Done

  /** made: attempts that failed so far; fires: completed calls of fireTriggerEvents. */
  datatype Job = Job(event: EventId, made: nat, fires: nat, phase: Phase)

  /** What the history counts for one emitted event. */
  datatype Ledger = Ledger(claims: nat, resets: nat, expires: real)

  /** adds: claimed rows whose enqueue call has neither succeeded nor been lost yet. */
  datatype State = State(
    now: real,
    rows: map<EventId, EventRow>,
    open: map<nat, Claim>,
    adds: multiset<EventId>,
    jobs: seq<Job>,
    ledger: map<EventId, Ledger>)

  datatype Action =
    | Tick(to: real)
    | Emit(e: EventId, tenant: nat)
    | Select(p: nat, batch: set<EventId>)
    | Commit(p: nat)
    | Abort(p: nat)
    | Enqueue(e: EventId)
    | LoseAdd(e: EventId)
    | Start(j: nat)
    | Fire(j: nat)
    | MarkProcessed(j: nat)
    | Finish(j: nat)
    | FailAttempt(j: nat)
    | OnFailed(j: nat)
    | CronReset
    | CronPurge

  predicate Locked(s: State, e: EventId) {
    exists p :: p in s.open && e in s.open[p].batch
  }

  predicate TenantLocked(s: State, t: nat) {
    exists p :: p in s.open && t in s.open[p].tenants
  }

  /** What a poll may select right now. */
  predicate Selectable(s: State, e: EventId) {
    && e in s.rows
    && s.rows[e].status == Pending && s.rows[e].expires > s.now
    && !Locked(s, e) && !TenantLocked(s, s.rows[e].tenant)
  }

  /** LIMIT 50 with no order: any fifty selectable rows, or all of them. */
  predicate LegalBatch(s: State, batch: set<EventId>) {
    && batch != {} && |batch| <= BATCH_SIZE
    && (forall e :: e in batch ==> Selectable(s, e))
    && (|batch| < BATCH_SIZE ==> forall e :: e in s.rows && Selectable(s, e) ==> e in batch)
  }

  predicate Stuck(s: State, e: EventId) {
    && e in s.rows && s.rows[e].status == Queued
    && s.rows[e].queuedAt.Some? && s.rows[e].queuedAt.value < s.now - STUCK_AFTER
  }

  predicate Enabled(s: State, a: Action) {
    match a
    case Tick(to) => to >= s.now
    case Emit(e, _) => e !in s.ledger
    case Select(p, batch) => p !in s.open && LegalBatch(s, batch)
    case Commit(p) => p in s.open
    case Abort(p) => p in s.open
    case Enqueue(e) => e in s.adds
    case LoseAdd(e) => e in s.adds
    case Start(j) => j < |s.jobs| && s.jobs[j].phase == Waiting
    case Fire(j) => j < |s.jobs| && s.jobs[j].phase == Running(false, false)
    case MarkProcessed(j) => j < |s.jobs| && s.jobs[j].phase == Running(true, false) && !Locked(s, s.jobs[j].event)
    case Finish(j) => j < |s.jobs| && s.jobs[j].phase == Running(true, true)
    case FailAttempt(j) => j < |s.jobs| && s.jobs[j].phase.Running?
    case OnFailed(j) => j < |s.jobs| && s.jobs[j].phase == Failed(false) && !Locked(s, s.jobs[j].event)
    case CronReset => true
    case CronPurge => forall e :: e in s.rows && s.rows[e].expires < s.now ==> !Locked(s, e)
  }

  function WithStatus(s: State, e: EventId, status: RowStatus): map<EventId, EventRow> {
    if e in s.rows then s.rows[e := s.rows[e].(status := status)] else s.rows
  }

  function Reset(s: State, e: EventId): map<EventId, EventRow> {
    if e in s.rows then s.rows[e := s.rows[e].(status := Pending, queuedAt := None)] else s.rows
  }

  function WithJob(s: State, j: nat, job: Job): seq<Job>
    requires j < |s.jobs|
  {
    s.jobs[j := job]
  }

  function Next(s: State, a: Action): State
    requires Enabled(s, a)
  {
    match a
    case Tick(to) => s.(now := to)
    case Emit(e, tenant) =>
      s.(rows := s.rows[e := EventRow(tenant, Pending, None, s.now + TTL)],
         ledger := s.ledger[e := Ledger(0, 0, s.now + TTL)])
    case Select(p, batch) =>
      s.(open := s.open[p := Claim(batch, set e | e in batch && e in s.rows :: s.rows[e].tenant, s.now)])
    case Commit(p) =>
      var c := s.open[p];
      s.(rows := map e | e in s.rows ::
                   if e in c.batch then s.rows[e].(status := Queued, queuedAt := Some(c.started)) else s.rows[e],
         open := s.open - {p},
         adds := s.adds + multiset(c.batch),
         ledger := map e | e in s.ledger ::
                     if e in c.batch then s.ledger[e].(claims := s.ledger[e].claims + 1) else s.ledger[e])
    case Abort(p) => s.(open := s.open - {p})
    case Enqueue(e) => s.(adds := s.adds - multiset{e}, jobs := s.jobs + [Job(e, 0, 0, Waiting)])
    case LoseAdd(e) => s.(adds := s.adds - multiset{e})
    case Start(j) => s.(jobs := WithJob(s, j, s.jobs[j].(phase := Running(false, false))))
    case Fire(j) => s.(jobs := WithJob(s, j, s.jobs[j].(phase := Running(true, false), fires := s.jobs[j].fires + 1)))
    case MarkProcessed(j) =>
      s.(rows := WithStatus(s, s.jobs[j].event, Processed),
         jobs := WithJob(s, j, s.jobs[j].(phase := Running(true, true))))
    case Finish(j) => s.(jobs := WithJob(s, j, s.jobs[j].(phase := Done)))
    case FailAttempt(j) =>
      var made := s.jobs[j].made + 1;
      s.(jobs := WithJob(s, j, s.jobs[j].(made := made, phase := if made < ATTEMPTS then Waiting else Failed(false))))
    case OnFailed(j) =>
      var e := s.jobs[j].event;
      s.(rows := Reset(s, e),
         jobs := WithJob(s, j, s.jobs[j].(phase := Failed(true))),
         ledger := if e in s.ledger then s.ledger[e := s.ledger[e].(resets := s.ledger[e].resets + 1)] else s.ledger)
    case CronReset =>
      s.(rows := map e | e in s.rows ::
                   if Stuck(s, e) then s.rows[e].(status := Pending, queuedAt := None) else s.rows[e],
         ledger := map e | e in s.ledger ::
                     if Stuck(s, e) then s.ledger[e].(resets := s.ledger[e].resets + 1) else s.ledger[e])
    case CronPurge =>
      s.(rows := map e | e in s.rows && s.rows[e].expires >= s.now :: s.rows[e])
  }

  predicate Initial(s: State) {
    s.rows == map[] && s.open == map[] && s.adds == multiset{} && s.jobs == [] && s.ledger == map[]
  }

  // ---------------------------------------------------------------- counting jobs and fires

  function JobsOf(jobs: seq<Job>, e: EventId): nat {
    if jobs == [] then 0
    else JobsOf(jobs[..|jobs| - 1], e) + if jobs[|jobs| - 1].event == e then 1 else 0
  }

  function FiresOf(jobs: seq<Job>, e: EventId): nat {
    if jobs == [] then 0
    else FiresOf(jobs[..|jobs| - 1], e) + if jobs[|jobs| - 1].event == e then jobs[|jobs| - 1].fires else 0
  }

  lemma {:induction false} UpdateCounts(jobs: seq<Job>, j: nat, job: Job, e: EventId)
    requires j < |jobs| && job.event == jobs[j].event && job.fires >= jobs[j].fires
    ensures JobsOf(jobs[j := job], e) == JobsOf(jobs, e)
    ensures FiresOf(jobs[j := job], e) == FiresOf(jobs, e) + if job.event == e then job.fires - jobs[j].fires else 0
    decreases |jobs|
  {
    var n := |jobs| - 1;
    if j < n {
      assert jobs[j := job][..n] == jobs[..n][j := job];
      UpdateCounts(jobs[..n], j, job, e);
    } else {
      assert jobs[j := job][..n] == jobs[..n];
    }
  }

  lemma {:induction false} FiresAtLeast(jobs: seq<Job>, j: nat)
    requires j < |jobs|
    ensures FiresOf(jobs, jobs[j].event) >= jobs[j].fires
    decreases |jobs|
  {
    if j < |jobs| - 1 {
      FiresAtLeast(jobs[..|jobs| - 1], j);
    }
  }

  lemma {:induction false} FiresBounded(jobs: seq<Job>, e: EventId)
    requires forall j :: 0 <= j < |jobs| ==> jobs[j].fires <= ATTEMPTS
    ensures FiresOf(jobs, e) <= ATTEMPTS * JobsOf(jobs, e)
    decreases |jobs|
  {
    if jobs != [] {
      FiresBounded(jobs[..|jobs| - 1], e);
    }
  }

  // ---------------------------------------------------------------- the invariant

  /** Selected rows stay pending and in place until their transaction ends, and no two open
      transactions hold a row of the same tenant. */
  ghost predicate LockInv(s: State) {
    && (forall p, e :: p in s.open && e in s.open[p].batch ==>
          e in s.rows && s.rows[e].status == Pending && s.rows[e].tenant in s.open[p].tenants)
    && (forall p, q :: p in s.open && q in s.open && p != q ==> s.open[p].tenants !! s.open[q].tenants)
    && (forall p :: p in s.open ==> s.open[p].started <= s.now)
  }

  ghost predicate RowInv(s: State) {
    && (forall e :: e in s.rows ==> e in s.ledger && s.rows[e].expires == s.ledger[e].expires)
    && (forall e :: e in s.ledger && s.ledger[e].expires >= s.now ==> e in s.rows)
    && (forall e :: e in s.rows && s.rows[e].status == Queued ==>
          s.rows[e].queuedAt.Some? && s.rows[e].queuedAt.value <= s.now)
  }

  /** A row is claimed at most once for being emitted and once for each reset. */
  ghost predicate ClaimInv(s: State) {
    forall e :: e in s.ledger ==>
      s.ledger[e].claims + (if e in s.rows && s.rows[e].status == Pending then 1 else 0) <= 1 + s.ledger[e].resets
  }

  ghost predicate JobInv(s: State) {
    && (forall e :: e in s.adds ==> e in s.ledger)
    && (forall j :: 0 <= j < |s.jobs| ==> s.jobs[j].event in s.ledger)
    && (forall e :: e in s.ledger ==> JobsOf(s.jobs, e) + s.adds[e] <= s.ledger[e].claims)
  }

  predicate GoodJob(job: Job) {
    && job.fires <= job.made + (if job.phase.Running? && job.phase.fired then 1 else if job.phase.Done? then 1 else 0)
    && job.made <= ATTEMPTS
    && (!job.phase.Failed? ==> job.made < ATTEMPTS)
    && (job.phase.Running? && job.phase.marked ==> job.phase.fired)
    && (job.phase.Running? && job.phase.fired ==> job.fires >= 1)
  }

  ghost predicate FireInv(s: State) {
    && (forall j :: 0 <= j < |s.jobs| ==> GoodJob(s.jobs[j]))
    && (forall e :: e in s.rows && s.rows[e].status == Processed ==> FiresOf(s.jobs, e) >= 1)
  }

  ghost predicate Inv(s: State) {
    LockInv(s) && RowInv(s) && ClaimInv(s) && JobInv(s) && FireInv(s)
  }

  lemma LockSelect(s: State, p: nat, batch: set<EventId>)
    requires LockInv(s) && Enabled(s, Select(p, batch))
    ensures LockInv(Next(s, Select(p, batch)))
  {
  }

  lemma LockCommit(s: State, p: nat)
    requires LockInv(s) && Enabled(s, Commit(p))
    ensures LockInv(Next(s, Commit(p)))
  {
  }

  lemma LockStep(s: State, a: Action)
    requires LockInv(s) && RowInv(s) && Enabled(s, a)
    ensures LockInv(Next(s, a))
  {
    match a
    case Select(p, batch) => LockSelect(s, p, batch);
    case Commit(p) => LockCommit(s, p);
    case OnFailed(j) => ResetKeepsLocks(s, j);
    case MarkProcessed(j) => ResetKeepsLocks(s, j);
    case CronReset =>
    case CronPurge =>
    case _ => TableUntouched(s, a);
  }

  /** A row changed by a worker is not locked by any poller. */
  lemma ResetKeepsLocks(s: State, j: nat)
    requires LockInv(s) && j < |s.jobs| && !Locked(s, s.jobs[j].event)
    ensures Enabled(s, OnFailed(j)) ==> LockInv(Next(s, OnFailed(j)))
    ensures Enabled(s, MarkProcessed(j)) ==> LockInv(Next(s, MarkProcessed(j)))
  {
  }

  lemma TableUntouched(s: State, a: Action)
    requires LockInv(s) && RowInv(s) && Enabled(s, a)
    requires (a.Tick? || a.Emit? || a.Abort? || a.Enqueue? || a.LoseAdd? || a.Start? || a.Fire? || a.Finish?
              || a.FailAttempt?)
    ensures LockInv(Next(s, a))
  {
  }

  lemma RowStep(s: State, a: Action)
    requires LockInv(s) && RowInv(s) && Enabled(s, a)
    ensures RowInv(Next(s, a))
  {
    match a
    case Emit(_, _) =>
    case Commit(p) => RowsByCommit(s, p);
    case MarkProcessed(_) => RowsByWorker(s, a);
    case OnFailed(_) => RowsByWorker(s, a);
    case CronReset => RowsByCron(s, a);
    case CronPurge => RowsByCron(s, a);
    case Tick(_) =>
    case _ => RowsUntouched(s, a);
  }

  lemma RowsByCommit(s: State, p: nat)
    requires LockInv(s) && RowInv(s) && Enabled(s, Commit(p))
    ensures RowInv(Next(s, Commit(p)))
  {
  }

  lemma RowsByCron(s: State, a: Action)
    requires RowInv(s) && Enabled(s, a) && (a.CronReset? || a.CronPurge?)
    ensures RowInv(Next(s, a))
  {
  }

  lemma RowsByWorker(s: State, a: Action)
    requires RowInv(s) && Enabled(s, a) && (a.MarkProcessed? || a.OnFailed?)
    ensures RowInv(Next(s, a))
  {
  }

  lemma RowsUntouched(s: State, a: Action)
    requires RowInv(s) && Enabled(s, a)
    requires a.Select? || a.Abort? || a.Enqueue? || a.LoseAdd? || a.Start? || a.Fire? || a.Finish? || a.FailAttempt?
    ensures RowInv(Next(s, a))
  {
  }

  lemma ClaimStep(s: State, a: Action)
    requires LockInv(s) && RowInv(s) && ClaimInv(s) && Enabled(s, a)
    ensures ClaimInv(Next(s, a))
  {
  }

  /** The job an action works on, before and after. */
  predicate TouchesJob(a: Action) {
    a.Start? || a.Fire? || a.MarkProcessed? || a.Finish? || a.FailAttempt? || a.OnFailed?
  }

  lemma JobTouched(s: State, a: Action)
    requires Enabled(s, a) && TouchesJob(a)
    ensures var s' := Next(s, a);
            && s'.jobs == s.jobs[a.j := s'.jobs[a.j]]
            && s'.jobs[a.j].event == s.jobs[a.j].event
            && s'.jobs[a.j].fires >= s.jobs[a.j].fires
            && (GoodJob(s.jobs[a.j]) ==> GoodJob(s'.jobs[a.j]))
  {
  }

  lemma JobsTouched(s: State, a: Action)
    requires JobInv(s) && Enabled(s, a) && TouchesJob(a)
    ensures JobInv(Next(s, a))
  {
    var s' := Next(s, a);
    JobTouched(s, a);
    forall e | e in s'.ledger ensures JobsOf(s'.jobs, e) + s'.adds[e] <= s'.ledger[e].claims {
      UpdateCounts(s.jobs, a.j, s'.jobs[a.j], e);
    }
  }

  lemma JobsCommit(s: State, p: nat)
    requires RowInv(s) && LockInv(s) && JobInv(s) && Enabled(s, Commit(p))
    ensures JobInv(Next(s, Commit(p)))
  {
  }

  lemma JobsEmit(s: State, e: EventId, tenant: nat)
    requires JobInv(s) && Enabled(s, Emit(e, tenant))
    ensures JobInv(Next(s, Emit(e, tenant)))
  {
    FreshHasNoJobs(s.jobs, e);
    assert e !in s.adds;
  }

  lemma JobsEnqueue(s: State, a: Action)
    requires JobInv(s) && Enabled(s, a) && (a.Enqueue? || a.LoseAdd?)
    ensures JobInv(Next(s, a))
  {
    var s' := Next(s, a);
    if a.Enqueue? {
      assert s'.jobs[..|s.jobs|] == s.jobs;
    }
    assert forall e :: e in s'.adds ==> e in s.adds;
  }

  lemma JobStep(s: State, a: Action)
    requires RowInv(s) && LockInv(s) && JobInv(s) && Enabled(s, a)
    ensures JobInv(Next(s, a))
  {
    match a
    case Commit(p) => JobsCommit(s, p);
    case Emit(e, t) => JobsEmit(s, e, t);
    case Enqueue(_) => JobsEnqueue(s, a);
    case LoseAdd(_) => JobsEnqueue(s, a);
    case Tick(_) => JobsUntouched(s, a);
    case Select(_, _) => JobsUntouched(s, a);
    case Abort(_) => JobsUntouched(s, a);
    case CronReset => JobsUntouched(s, a);
    case CronPurge => JobsUntouched(s, a);
    case _ => JobsTouched(s, a);
  }

  lemma JobsUntouched(s: State, a: Action)
    requires JobInv(s) && Enabled(s, a) && (a.Tick? || a.Select? || a.Abort? || a.CronReset? || a.CronPurge?)
    ensures JobInv(Next(s, a))
  {
  }

  lemma {:induction false} FreshHasNoJobs(jobs: seq<Job>, e: EventId)
    requires forall j :: 0 <= j < |jobs| ==> jobs[j].event != e
    ensures JobsOf(jobs, e) == 0
    decreases |jobs|
  {
    if jobs != [] {
      FreshHasNoJobs(jobs[..|jobs| - 1], e);
    }
  }

  /** A row is processed because it was, or because a worker just marked it. */
  lemma ProcessedComesFrom(s: State, a: Action, e: EventId)
    requires Enabled(s, a)
    requires e in Next(s, a).rows && Next(s, a).rows[e].status == Processed
    ensures (e in s.rows && s.rows[e].status == Processed) || (a.MarkProcessed? && e == s.jobs[a.j].event)
  {
  }

  lemma FireTouched(s: State, a: Action)
    requires FireInv(s) && Enabled(s, a) && TouchesJob(a)
    ensures FireInv(Next(s, a))
  {
    var s' := Next(s, a);
    JobTouched(s, a);
    if a.MarkProcessed? {
      FiresAtLeast(s.jobs, a.j);
    }
    forall e | e in s'.rows && s'.rows[e].status == Processed ensures FiresOf(s'.jobs, e) >= 1 {
      ProcessedComesFrom(s, a, e);
      UpdateCounts(s.jobs, a.j, s'.jobs[a.j], e);
    }
  }

  lemma FireUntouched(s: State, a: Action)
    requires FireInv(s) && Enabled(s, a) && !TouchesJob(a)
    ensures FireInv(Next(s, a))
  {
  }

  lemma FireStep(s: State, a: Action)
    requires FireInv(s) && Enabled(s, a)
    ensures FireInv(Next(s, a))
  {
    hide *;
    if TouchesJob(a) {
      FireTouched(s, a);
    } else {
      FireUntouched(s, a);
    }
  }

  lemma InvStep(s: State, a: Action)
    requires Inv(s) && Enabled(s, a)
    ensures Inv(Next(s, a))
  {
    LockStep(s, a);
    RowStep(s, a);
    ClaimStep(s, a);
    JobStep(s, a);
    FireStep(s, a);
  }

  // ---------------------------------------------------------------- runs

  predicate Legal(s: State, run: seq<Action>)
    decreases |run|
  {
    run != [] ==> Enabled(s, run[0]) && Legal(Next(s, run[0]), run[1..])
  }

  function Exec(s: State, run: seq<Action>): State
    requires Legal(s, run)
    decreases |run|
  {
    if run == [] then s else Exec(Next(s, run[0]), run[1..])
  }

  ghost predicate Reachable(s: State) {
    exists s0, run :: Initial(s0) && Legal(s0, run) && Exec(s0, run) == s
  }

  lemma {:induction false} InvRun(s: State, run: seq<Action>)
    requires Inv(s) && Legal(s, run)
    ensures Inv(Exec(s, run))
    decreases |run|
  {
    if run != [] {
      InvStep(s, run[0]);
      InvRun(Next(s, run[0]), run[1..]);
    }
  }

  lemma ReachableInv(s: State)
    requires Reachable(s)
    ensures Inv(s)
  {
    var s0, run :| Initial(s0) && Legal(s0, run) && Exec(s0, run) == s;
    InvRun(s0, run);
  }

  /** Concurrent pollers never hold the same row. */
  lemma ClaimsAreExclusive(s: State, p: nat, q: nat)
    requires Reachable(s) && p in s.open && q in s.open && p != q
    ensures s.open[p].batch !! s.open[q].batch
  {
    ReachableInv(s);
    forall e | e in s.open[p].batch ensures e !in s.open[q].batch {
      assert s.rows[e].tenant in s.open[p].tenants;
    }
  }

  /** An emitted event is in the table until it expires, and processed only after its triggers
      were fired at least once. */
  lemma EventsAreKept(s: State, e: EventId)
    requires Reachable(s) && e in s.ledger
    ensures s.ledger[e].expires >= s.now ==> e in s.rows
    ensures e in s.rows && s.rows[e].status == Processed ==> FiresOf(s.jobs, e) >= 1
  {
    ReachableInv(s);
  }

  /** Claims, jobs and fires are bounded by the resets, the crons' and the handler's together. */
  lemma CountingBound(s: State, e: EventId)
    requires Reachable(s) && e in s.ledger
    ensures JobsOf(s.jobs, e) <= s.ledger[e].claims <= 1 + s.ledger[e].resets
    ensures FiresOf(s.jobs, e) <= 3 * (1 + s.ledger[e].resets)
  {
    ReachableInv(s);
    FiresBounded(s.jobs, e);
    assert ATTEMPTS * JobsOf(s.jobs, e) <= ATTEMPTS * (1 + s.ledger[e].resets);
  }

  // ---------------------------------------------------------------- the life of a row

  /** The step puts a row back into the queue's reach: the cron, when the row has been queued for more
      than fifteen minutes, or the handler of an exhausted job. */
  predicate PutsBack(s: State, a: Action, e: EventId) {
    || (&& a.CronReset? && e in s.rows && s.rows[e].status == Queued
        && s.rows[e].queuedAt.Some? && s.rows[e].queuedAt.value < s.now - 15.0)
    || (a.OnFailed? && a.j < |s.jobs| && s.jobs[a.j].event == e)
  }

  predicate Claims(s: State, a: Action, e: EventId) {
    a.Commit? && a.p in s.open && e in s.open[a.p].batch
  }

  predicate Marks(s: State, a: Action, e: EventId) {
    a.MarkProcessed? && a.j < |s.jobs| && s.jobs[a.j].event == e
  }

  /** A row appears when its event is emitted, pending and for seven days, and disappears when the purge
      finds it expired. */
  lemma RowComesAndGoes(s: State, a: Action, e: EventId)
    requires RowInv(s) && Enabled(s, a)
    ensures Next(s, a).now == if a.Tick? then a.to else s.now
    ensures e in s.rows && e !in Next(s, a).rows <==> a.CronPurge? && e in s.rows && s.rows[e].expires < s.now
    ensures e !in s.rows && e in Next(s, a).rows <==> a.Emit? && a.e == e
    ensures a.Emit? && a.e == e ==> Next(s, a).rows[e] == EventRow(a.tenant, Pending, None, s.now + 7.0 * 24.0 * 60.0)
  {
  }

  /** In between only a claim, a worker's mark and a reset change it. */
  lemma RowChanges(s: State, a: Action, e: EventId)
    requires RowInv(s) && Enabled(s, a) && e in s.rows && e in Next(s, a).rows
    ensures Next(s, a).rows[e] ==
              if Claims(s, a, e) then s.rows[e].(status := Queued, queuedAt := Some(s.open[a.p].started))
              else if Marks(s, a, e) then s.rows[e].(status := Processed)
              else if PutsBack(s, a, e) then s.rows[e].(status := Pending, queuedAt := None)
              else s.rows[e]
  {
  }

  /** A job is made by an enqueue call, for its row and with all its attempts to come... */
  lemma JobAppears(s: State, a: Action)
    requires Enabled(s, a)
    ensures (if a.Enqueue? then Next(s, a).jobs == s.jobs + [Job(a.e, 0, 0, Waiting)]
             else |Next(s, a).jobs| == |s.jobs|)
  {
  }

  /** ...and changes only by the steps of its own worker and handler, in their order; a failed attempt
      counts, and the third is the last. */
  lemma JobChanges(s: State, a: Action, j: nat)
    requires Enabled(s, a) && j < |s.jobs|
    ensures var job, job' := s.jobs[j], Next(s, a).jobs[j];
            && job'.event == job.event
            && job'.made == job.made + (if a == FailAttempt(j) then 1 else 0)
            && job'.fires == job.fires + (if a == Fire(j) then 1 else 0)
            && job'.phase ==
                 (if a == Start(j) then Running(false, false)
                  else if a == Fire(j) then Running(true, false)
                  else if a == MarkProcessed(j) then Running(true, true)
                  else if a == Finish(j) then Done
                  else if a == FailAttempt(j) then if job.made < 2 then Waiting else Failed(false)
                  else if a == OnFailed(j) then Failed(true)
                  else job.phase)
  {
  }

  /** Calls to come: one for each row of a commit, until it is made or lost. */
  lemma CallsChange(s: State, a: Action, e: EventId)
    requires Enabled(s, a)
    ensures (Next(s, a).adds[e] as int ==
             s.adds[e] + (if Claims(s, a, e) then 1 else 0) - (if a == Enqueue(e) || a == LoseAdd(e) then 1 else 0))
  {
  }

  /** The history counts the claims and the resets, and no others. */
  lemma LedgerStarts(s: State, a: Action, e: EventId)
    requires Enabled(s, a) && e !in s.ledger
    ensures e in Next(s, a).ledger <==> a.Emit? && a.e == e
    ensures a.Emit? && a.e == e ==> Next(s, a).ledger[e] == Ledger(0, 0, s.now + 7.0 * 24.0 * 60.0)
  {
  }

  lemma LedgerCounts(s: State, a: Action, e: EventId)
    requires Enabled(s, a) && e in s.ledger
    ensures e in Next(s, a).ledger && Next(s, a).ledger[e].expires == s.ledger[e].expires
    ensures Next(s, a).ledger[e].claims == s.ledger[e].claims + if Claims(s, a, e) then 1 else 0
    ensures Next(s, a).ledger[e].resets == s.ledger[e].resets + if PutsBack(s, a, e) then 1 else 0
  {
  }

  /** The handler puts the event back somewhere in the run. */
  predicate HandlerActs(s: State, run: seq<Action>, e: EventId)
    requires Legal(s, run)
    decreases |run|
  {
    run != [] && ((run[0].OnFailed? && s.jobs[run[0].j].event == e) || HandlerActs(Next(s, run[0]), run[1..], e))
  }

  /** Since the claim that started at t: the row is as that claim left it, or fifteen minutes are over
      for whatever happened to it since. */
  ghost predicate Spaced(s: State, e: EventId, t: real) {
    && e in s.ledger
    && (e in s.rows && s.rows[e].status == Pending ==> s.now > t + 15.0)
    && (e in s.rows && s.rows[e].status == Queued ==>
          s.rows[e].queuedAt.Some? && (s.rows[e].queuedAt.value == t || s.rows[e].queuedAt.value > t + 15.0))
    && (forall p :: p in s.open && e in s.open[p].batch ==> s.open[p].started > t + 15.0)
  }

  lemma SpacedStep(s: State, a: Action, e: EventId, t: real)
    requires LockInv(s) && RowInv(s) && Spaced(s, e, t) && Enabled(s, a)
    requires !(a.OnFailed? && s.jobs[a.j].event == e)
    ensures Spaced(Next(s, a), e, t)
  {
    hide JobInv, ClaimInv, FireInv, JobsOf, FiresOf;
    LedgerCounts(s, a, e);
    RowComesAndGoes(s, a, e);
    if e in s.rows && e in Next(s, a).rows {
      RowChanges(s, a, e);
    }
    OpenChanges(s, a);
  }

  /** A transaction opens with a selection, at the time it is made, and then stays as it is. */
  lemma OpenChanges(s: State, a: Action)
    requires Enabled(s, a)
    ensures forall p :: p in Next(s, a).open ==>
              if a.Select? && a.p == p then Next(s, a).open[p].batch == a.batch && Next(s, a).open[p].started == s.now
              else p in s.open && Next(s, a).open[p] == s.open[p]
    ensures forall p :: p in s.open && p !in Next(s, a).open ==> (a.Commit? || a.Abort?) && a.p == p
  {
  }

  lemma {:induction false} StaysSpaced(s: State, run: seq<Action>, e: EventId, t: real)
    requires Inv(s) && Legal(s, run) && Spaced(s, e, t) && !HandlerActs(s, run, e)
    ensures Spaced(Exec(s, run), e, t)
    decreases |run|
  {
    if run != [] {
      SpacedStep(s, run[0], e, t);
      InvStep(s, run[0]);
      StaysSpaced(Next(s, run[0]), run[1..], e, t);
    }
  }

  /** Two claims of an event, with no failure handler putting it back in between, start more than
      fifteen minutes apart. */
  lemma ClaimsAreSpaced(s: State, p: nat, e: EventId, run: seq<Action>, q: nat)
    requires Reachable(s) && p in s.open && e in s.open[p].batch
    requires Legal(Next(s, Commit(p)), run) && !HandlerActs(Next(s, Commit(p)), run, e)
    requires q in Exec(Next(s, Commit(p)), run).open && e in Exec(Next(s, Commit(p)), run).open[q].batch
    ensures Exec(Next(s, Commit(p)), run).open[q].started > s.open[p].started + 15.0
  {
    ReachableInv(s);
    var t, s1 := s.open[p].started, Next(s, Commit(p));
    InvStep(s, Commit(p));
    assert s1.rows[e].status == Queued && s1.rows[e].queuedAt == Some(t);
    assert Spaced(s1, e, t) by {
      forall r | r in s1.open ensures e !in s1.open[r].batch {
        assert r in s.open && r != p;
        assert s.open[p].tenants !! s.open[r].tenants && s.rows[e].tenant in s.open[p].tenants;
      }
    }
    StaysSpaced(s1, run, e, t);
  }

  // ---------------------------------------------------------------- delivery stays possible

  lemma {:induction false} Then(s: State, a: seq<Action>, b: seq<Action>)
    requires Legal(s, a) && Legal(Exec(s, a), b)
    ensures Legal(s, a + b) && Exec(s, a + b) == Exec(Exec(s, a), b)
    decreases |a|
  {
    if a == [] {
      assert a + b == b;
    } else {
      Then(Next(s, a[0]), a[1..], b);
      assert (a + b)[1..] == a[1..] + b;
    }
  }

  lemma One(s: State, a: Action)
    requires Enabled(s, a)
    ensures Legal(s, [a]) && Exec(s, [a]) == Next(s, a)
  {
  }

  ghost predicate Delivered(s: State, e: EventId) {
    e in s.rows && s.rows[e].status == Processed
  }

  ghost function Bound(xs: set<nat>): (b: nat)
    ensures forall x :: x in xs ==> x < b
  {
    if xs == {} then 0
    else
      var x :| x in xs;
      var rest := Bound(xs - {x});
      assert forall y :: y in xs ==> y == x || y in xs - {x};
      if rest <= x then x + 1 else rest
  }

  /** From every reachable state, an undelivered event with more than fifteen minutes to live can
      still be driven to processed. */
  lemma CanStillBeDelivered(s: State, e: EventId) returns (run: seq<Action>)
    requires Reachable(s)
    requires e in s.rows && s.rows[e].status != Processed && s.rows[e].expires > s.now + 15.0
    ensures Legal(s, run) && Delivered(Exec(s, run), e)
  {
    ReachableInv(s);
    var a := MakePending(s, e);
    var s1 := Exec(s, a);
    InvRun(s, a);
    var b := MakeSelectable(s1, e);
    Then(s, a, b);
    var s2 := Exec(s1, b);
    InvRun(s1, b);
    var c := Deliver(s2, e);
    Then(s, a + b, c);
    run := a + b + c;
  }

  lemma MakePending(s: State, e: EventId) returns (run: seq<Action>)
    requires Inv(s) && e in s.rows && s.rows[e].status != Processed
    requires s.rows[e].expires > s.now + STUCK_AFTER
    ensures Legal(s, run)
    ensures var s' := Exec(s, run); e in s'.rows && s'.rows[e].status == Pending && s'.rows[e].expires > s'.now
  {
    if s.rows[e].status == Pending {
      run := [];
    } else {
      var t := (s.now + STUCK_AFTER + s.rows[e].expires) / 2.0;
      One(s, Tick(t));
      var s1 := Next(s, Tick(t));
      assert Stuck(s1, e);
      One(s1, CronReset);
      Then(s, [Tick(t)], [CronReset]);
      run := [Tick(t)] + [CronReset];
    }
  }

  lemma MakeSelectable(s: State, e: EventId) returns (run: seq<Action>)
    requires Inv(s) && e in s.rows && s.rows[e].status == Pending && s.rows[e].expires > s.now
    ensures Legal(s, run) && Selectable(Exec(s, run), e)
  {
    var t := s.rows[e].tenant;
    if TenantLocked(s, t) {
      var p :| p in s.open && t in s.open[p].tenants;
      One(s, Abort(p));
      run := [Abort(p)];
      var s' := Next(s, Abort(p));
      forall q | q in s'.open ensures t !in s'.open[q].tenants && e !in s'.open[q].batch {
        assert s.open[p].tenants !! s.open[q].tenants;
      }
    } else {
      run := [];
      assert !Locked(s, e) by {
        forall q | q in s.open ensures e !in s.open[q].batch {}
      }
    }
  }

  lemma BatchWith(s: State, e: EventId) returns (batch: set<EventId>)
    requires Selectable(s, e)
    ensures e in batch && LegalBatch(s, batch)
  {
    var eligible := set x | x in s.rows && Selectable(s, x);
    batch := Grow({e}, eligible);
  }

  lemma {:induction false} Grow(batch: set<EventId>, eligible: set<EventId>) returns (full: set<EventId>)
    requires batch <= eligible && |batch| <= BATCH_SIZE
    ensures batch <= full <= eligible && |full| <= BATCH_SIZE
    ensures |full| < BATCH_SIZE ==> full == eligible
    decreases BATCH_SIZE - |batch|
  {
    if eligible <= batch {
      assert batch == eligible;
      full := batch;
    } else if |batch| == BATCH_SIZE {
      full := batch;
    } else {
      var x :| x in eligible && x !in batch;
      full := Grow(batch + {x}, eligible);
    }
  }

  lemma Deliver(s: State, e: EventId) returns (run: seq<Action>)
    requires Inv(s) && Selectable(s, e)
    ensures Legal(s, run) && Delivered(Exec(s, run), e)
  {
    var p := Bound(s.open.Keys);
    var batch := BatchWith(s, e);
    var claim := [Select(p, batch)] + [Commit(p)];
    One(s, Select(p, batch));
    var s1 := Next(s, Select(p, batch));
    One(s1, Commit(p));
    Then(s, [Select(p, batch)], [Commit(p)]);
    var s2 := Next(s1, Commit(p));
    InvStep(s, Select(p, batch));
    InvStep(s1, Commit(p));
    assert e in s2.rows && s2.rows[e].status == Queued && e in s2.adds;
    var work := WorkOff(s2, e);
    Then(s, claim, work);
    run := claim + work;
  }

  lemma WorkOff(s: State, e: EventId) returns (run: seq<Action>)
    requires Inv(s) && e in s.rows && s.rows[e].status == Queued && e in s.adds
    ensures Legal(s, run) && Delivered(Exec(s, run), e)
  {
    var s' := Next(s, Enqueue(e));
    assert !Locked(s', e);
    run := WorkOffJob(s', |s.jobs|, e);
    run := Prepend(s, Enqueue(e), run);
  }

  /** Steps of the worker still to come until the row is marked. */
  function StepsLeft(phase: Phase): nat {
    match phase
    case Waiting => 3
    case Running(fired, _) => if fired then 1 else 2
    case _ => 0
  }

  lemma {:induction false} WorkOffJob(s: State, j: nat, e: EventId) returns (run: seq<Action>)
    requires j < |s.jobs| && s.jobs[j].event == e && e in s.rows && !Locked(s, e)
    requires s.jobs[j].phase == Waiting || (s.jobs[j].phase.Running? && !s.jobs[j].phase.marked)
    ensures Legal(s, run) && Delivered(Exec(s, run), e)
    decreases StepsLeft(s.jobs[j].phase)
  {
    var phase := s.jobs[j].phase;
    var a := if phase == Waiting then Start(j) else if phase.fired then MarkProcessed(j) else Fire(j);
    var s' := Next(s, a);
    if a.MarkProcessed? {
      run := [];
    } else {
      assert s'.open == s.open;
      run := WorkOffJob(s', j, e);
    }
    run := Prepend(s, a, run);
  }

  lemma Prepend(s: State, a: Action, rest: seq<Action>) returns (run: seq<Action>)
    requires Enabled(s, a) && Legal(Next(s, a), rest)
    ensures Legal(s, run) && Exec(s, run) == Exec(Next(s, a), rest)
  {
    run := [a] + rest;
    assert run[1..] == rest;
  }
}
