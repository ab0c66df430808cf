/** The second stage of the outbox: action rows inserted pending, pollers that claim the oldest ones
    and enqueue after commit, and a processor that calls the handler.  No cron resets these rows.

    Any number of pollers and workers interleave; an action is one atomic step of one of them. */
module ActionRows {

  type RowId = nat

  const BATCH_SIZE: nat := 50
  const ATTEMPTS: nat := 3

  datatype Status = Pending | Queued | Processing | Completed | Failed

  datatype Row = Row(status: Status, attempts: nat, scheduledAt: int)

  /** How far an attempt got: nothing yet, marked processing, handler returned, row marked with its outcome. */
  datatype Stage = Fresh | Begun | Returned | Recorded

  datatype Phase = Waiting | Active(stage: Stage) | Ended | Exhausted

  /** made: failed attempts; begins: times the row was marked processing; handled: handler calls that
      returned; notices: failed attempts whose failure handler has not run. */
  datatype Job = Job(row: RowId, made: nat, begins: nat, handled: nat, notices: nat, phase: Phase)

  /** open: rows locked by poll transactions; adds: claimed rows whose enqueue call has neither
      succeeded nor been lost yet. */
  datatype State = State(rows: map<RowId, Row>, open: map<nat, set<RowId>>, adds: multiset<RowId>, jobs: seq<Job>)

  datatype Action =
    | Insert(e: RowId, scheduledAt: int)
    | Select(p: nat, batch: set<RowId>)
    | Commit(p: nat)
    | Abort(p: nat)
    | Enqueue(e: RowId)
    | LoseAdd(e: RowId)
    | Start(j: nat)
    | Begin(j: nat)
    | TenantMissing(j: nat)
    | Return(j: nat)
    | Complete(j: nat)
    | Finish(j: nat)
    | FailAttempt(j: nat)
    | Notify(j: nat)

  predicate Locked(s: State, e: RowId) {
    exists p :: p in s.open && e in s.open[p]
  }

  predicate Selectable(s: State, e: RowId) {
    e in s.rows && s.rows[e].status == Pending && !Locked(s, e)
  }

  predicate NotAfter(s: State, x: RowId, y: RowId)
    requires x in s.rows && y in s.rows
  {
    s.rows[x].scheduledAt <= s.rows[y].scheduledAt
  }

  /** The fifty oldest selectable rows, or all of them. */
  predicate LegalBatch(s: State, batch: set<RowId>) {
    && batch != {} && |batch| <= BATCH_SIZE
    && (forall e :: e in batch ==> Selectable(s, e))
    && (forall x, y :: x in batch && y in s.rows && Selectable(s, y) && y !in batch ==> NotAfter(s, x, y))
    && (|batch| < BATCH_SIZE ==> forall e :: e in s.rows && Selectable(s, e) ==> e in batch)
  }

  predicate At(s: State, j: nat, stage: Stage) {
    j < |s.jobs| && s.jobs[j].phase == Active(stage)
  }

  predicate Enabled(s: State, a: Action) {
    match a
    case Insert(e, _) => e !in s.rows
    case Select(p, batch) => p !in s.open && LegalBatch(s, batch)
    case Commit(p) => p in s.open
    case Abort(p) => p in s.open
    case Enqueue(e) => e in s.adds
    case LoseAdd(e) => e in s.adds
    case Start(j) => j < |s.jobs| && s.jobs[j].phase == Waiting
    case Begin(j) => At(s, j, Fresh)
    case TenantMissing(j) => At(s, j, Begun)
    case Return(j) => At(s, j, Begun)
    case Complete(j) => At(s, j, Returned)
    case Finish(j) => At(s, j, Recorded)
    case FailAttempt(j) => j < |s.jobs| && s.jobs[j].phase.Active?
    case Notify(j) => j < |s.jobs| && s.jobs[j].notices > 0
  }

  function WithStatus(rows: map<RowId, Row>, e: RowId, status: Status): map<RowId, Row> {
    if e in rows then rows[e := rows[e].(status := status)] else rows
  }

  function Attempted(rows: map<RowId, Row>, e: RowId): map<RowId, Row> {
    if e in rows then rows[e := rows[e].(status := Processing, attempts := rows[e].attempts + 1)] else rows
  }

  function WithJob(s: State, j: nat, job: Job): State
    requires j < |s.jobs|
  {
    s.(jobs := s.jobs[j := job])
  }

  function Next(s: State, a: Action): State
    requires Enabled(s, a)
  {
    match a
    case Insert(e, at) => s.(rows := s.rows[e := Row(Pending, 0, at)])
    case Select(p, batch) => s.(open := s.open[p := batch])
    case Commit(p) =>
      s.(rows := map e | e in s.rows :: if e in s.open[p] then s.rows[e].(status := Queued) else s.rows[e],
         open := s.open - {p},
         adds := s.adds + multiset(s.open[p]))
    case Abort(p) => s.(open := s.open - {p})
    case Enqueue(e) => s.(adds := s.adds - multiset{e}, jobs := s.jobs + [Job(e, 0, 0, 0, 0, Waiting)])
    case LoseAdd(e) => s.(adds := s.adds - multiset{e})
    case _ => WithJob(s, a.j, Worked(s.jobs[a.j], a)).(rows := Marked(s.rows, s.jobs[a.j].row, a))
  }

  predicate ByWorker(a: Action) {
    !a.Insert? && !a.Select? && !a.Commit? && !a.Abort? && !a.Enqueue? && !a.LoseAdd?
  }

  /** The job after a step of its worker... */
  function Worked(job: Job, a: Action): Job
    requires ByWorker(a) && (a.Notify? ==> job.notices > 0)
  {
    match a
    case Start(_) => job.(phase := Active(Fresh))
    case Begin(_) => job.(phase := Active(Begun), begins := job.begins + 1)
    case TenantMissing(_) => job.(phase := Active(Recorded))
    case Return(_) => job.(phase := Active(Returned), handled := job.handled + 1)
    case Complete(_) => job.(phase := Active(Recorded))
    case Finish(_) => job.(phase := Ended)
    case FailAttempt(_) =>
      job.(made := job.made + 1, notices := job.notices + 1,
           phase := if job.made + 1 < ATTEMPTS then Waiting else Exhausted)
    case Notify(_) => job.(notices := job.notices - 1)
  }

  /** ...and the table. */
  function Marked(rows: map<RowId, Row>, e: RowId, a: Action): map<RowId, Row> {
    match a
    case Begin(_) => Attempted(rows, e)
    case TenantMissing(_) => WithStatus(rows, e, Failed)
    case Complete(_) => WithStatus(rows, e, Completed)
    case Notify(_) => WithStatus(rows, e, Failed)
    case _ => rows
  }

  predicate Initial(s: State) {
    s.rows == map[] && s.open == map[] && s.adds == multiset{} && s.jobs == []
  }

  // ---------------------------------------------------------------- the invariant

  ghost predicate LockInv(s: State) {
    && (forall p, e :: p in s.open && e in s.open[p] ==> e in s.rows && s.rows[e].status == Pending)
    && (forall p, q, e :: p in s.open && q in s.open && e in s.open[p] && e in s.open[q] ==> p == q)
  }

  ghost predicate HasJob(s: State, e: RowId) {
    exists j :: 0 <= j < |s.jobs| && s.jobs[j].row == e
  }

  /** A row has one place: pending, or in the list of some poller once, or with one job, or lost. */
  ghost predicate PlaceInv(s: State) {
    && (forall e :: e in s.adds ==> s.adds[e] == 1 && e in s.rows && s.rows[e].status == Queued && !HasJob(s, e))
    && (forall j :: 0 <= j < |s.jobs| ==> s.jobs[j].row in s.rows && s.rows[s.jobs[j].row].status != Pending)
    && (forall i, j :: 0 <= i < |s.jobs| && 0 <= j < |s.jobs| && s.jobs[i].row == s.jobs[j].row ==> i == j)
  }

  /** Attempts begun but not failed. */
  function Current(job: Job): nat {
    if job.phase == Waiting || job.phase == Exhausted || job.phase == Active(Fresh) then 0 else 1
  }

  predicate GoodJob(job: Job) {
    && job.made <= ATTEMPTS
    && (job.phase != Exhausted ==> job.made < ATTEMPTS)
    && job.begins <= job.made + Current(job)
    && (job.phase == Active(Returned) ==> job.handled > 0)
  }

  ghost predicate JobRecords(s: State) {
    && (forall j :: 0 <= j < |s.jobs| ==> GoodJob(s.jobs[j]))
    && (forall j :: 0 <= j < |s.jobs| && s.jobs[j].row in s.rows ==>
          && s.rows[s.jobs[j].row].attempts == s.jobs[j].begins
          && (s.rows[s.jobs[j].row].status == Completed ==> s.jobs[j].handled > 0))
  }

  ghost predicate IdleRecords(s: State) {
    forall e :: e in s.rows && !HasJob(s, e) ==>
      s.rows[e].attempts == 0 && (s.rows[e].status == Pending || s.rows[e].status == Queued)
  }

  ghost predicate RecordInv(s: State) {
    JobRecords(s) && IdleRecords(s)
  }

  ghost predicate Inv(s: State) {
    LockInv(s) && PlaceInv(s) && RecordInv(s)
  }

  lemma LockSelect(s: State, p: nat, batch: set<RowId>)
    requires LockInv(s) && Enabled(s, Select(p, batch))
    ensures LockInv(Next(s, Select(p, batch)))
  {
  }

  lemma LockWork(s: State, a: Action)
    requires LockInv(s) && PlaceInv(s) && Enabled(s, a) && ByWorker(a)
    ensures LockInv(Next(s, a))
  {
  }

  lemma LockStep(s: State, a: Action)
    requires LockInv(s) && PlaceInv(s) && Enabled(s, a)
    ensures LockInv(Next(s, a))
  {
    if a.Select? {
      LockSelect(s, a.p, a.batch);
    } else if ByWorker(a) {
      LockWork(s, a);
    }
  }

  lemma PlaceCommit(s: State, p: nat)
    requires LockInv(s) && PlaceInv(s) && Enabled(s, Commit(p))
    ensures PlaceInv(Next(s, Commit(p)))
  {
  }

  lemma JobAppended(s: State, e: RowId, x: RowId)
    requires Enabled(s, Enqueue(e))
    ensures HasJob(Next(s, Enqueue(e)), x) <==> x == e || HasJob(s, x)
  {
    var s' := Next(s, Enqueue(e));
    assert s'.jobs[|s.jobs|].row == e;
    if j :| 0 <= j < |s.jobs| && s.jobs[j].row == x {
      assert s'.jobs[j].row == x;
    }
  }

  lemma PlaceEnqueue(s: State, a: Action)
    requires PlaceInv(s) && Enabled(s, a) && (a.Enqueue? || a.LoseAdd?)
    ensures PlaceInv(Next(s, a))
  {
  }

  lemma PlaceWork(s: State, a: Action)
    requires PlaceInv(s) && Enabled(s, a) && ByWorker(a)
    ensures PlaceInv(Next(s, a))
  {
    var s' := Next(s, a);
    JobRows(s, a);
    assert HasJob(s, s.jobs[a.j].row);
  }

  lemma JobRows(s: State, a: Action)
    requires Enabled(s, a) && ByWorker(a)
    ensures var s' := Next(s, a);
            && |s'.jobs| == |s.jobs|
            && (forall j :: 0 <= j < |s.jobs| ==>
                  s'.jobs[j].row == s.jobs[j].row && (j != a.j ==> s'.jobs[j] == s.jobs[j]))
            && forall e :: HasJob(s', e) <==> HasJob(s, e)
  {
  }

  lemma PlaceStep(s: State, a: Action)
    requires LockInv(s) && PlaceInv(s) && Enabled(s, a)
    ensures PlaceInv(Next(s, a))
  {
    if a.Commit? {
      PlaceCommit(s, a.p);
    } else if a.Enqueue? || a.LoseAdd? {
      PlaceEnqueue(s, a);
    } else if ByWorker(a) {
      PlaceWork(s, a);
    }
  }

  lemma RecordWork(s: State, a: Action)
    requires PlaceInv(s) && JobRecords(s) && Enabled(s, a) && ByWorker(a)
    ensures JobRecords(Next(s, a))
  {
  }

  lemma IdleWork(s: State, a: Action)
    requires PlaceInv(s) && IdleRecords(s) && Enabled(s, a) && ByWorker(a)
    ensures IdleRecords(Next(s, a))
  {
    JobRows(s, a);
    assert HasJob(s, s.jobs[a.j].row);
  }

  lemma RecordStep(s: State, a: Action)
    requires LockInv(s) && PlaceInv(s) && RecordInv(s) && Enabled(s, a)
    ensures RecordInv(Next(s, a))
  {
    if ByWorker(a) {
      RecordWork(s, a);
      IdleWork(s, a);
    } else if a.Enqueue? {
      RecordEnqueue(s, a.e);
    } else {
      RecordKept(s, a);
    }
  }

  lemma RecordEnqueue(s: State, e: RowId)
    requires PlaceInv(s) && RecordInv(s) && Enabled(s, Enqueue(e))
    ensures RecordInv(Next(s, Enqueue(e)))
  {
    forall x | !HasJob(Next(s, Enqueue(e)), x) ensures !HasJob(s, x) {
      JobAppended(s, e, x);
    }
  }

  lemma RecordKept(s: State, a: Action)
    requires LockInv(s) && PlaceInv(s) && RecordInv(s) && Enabled(s, a)
    requires a.Insert? || a.Select? || a.Commit? || a.Abort? || a.LoseAdd?
    ensures RecordInv(Next(s, a))
  {
  }

  lemma InvStep(s: State, a: Action)
    requires Inv(s) && Enabled(s, a)
    ensures Inv(Next(s, a))
  {
    LockStep(s, a);
    PlaceStep(s, a);
    RecordStep(s, a);
  }

  // ---------------------------------------------------------------- runs

  predicate Legal(s: State, run: seq<Action>)
    decreases |run|
  {
    run != [] ==> Enabled(s, run[0]) && Legal(Next(s, run[0]), run[1..])
  }

  function Exec(s: State, run: seq<Action>): State
    requires Legal(s, run)
    decreases |run|
  {
    if run == [] then s else Exec(Next(s, run[0]), run[1..])
  }

  ghost predicate Reachable(s: State) {
    exists s0, run :: Initial(s0) && Legal(s0, run) && Exec(s0, run) == s
  }

  lemma {:induction false} InvRun(s: State, run: seq<Action>)
    requires Inv(s) && Legal(s, run)
    ensures Inv(Exec(s, run))
    decreases |run|
  {
    if run != [] {
      InvStep(s, run[0]);
      InvRun(Next(s, run[0]), run[1..]);
    }
  }

  lemma ReachableInv(s: State)
    requires Reachable(s)
    ensures Inv(s)
  {
    var s0, run :| Initial(s0) && Legal(s0, run) && Exec(s0, run) == s;
    InvRun(s0, run);
  }

  /** Each row yields at most one job; it is attempted at most three times; and it is completed only
      when its handler returned. */
  lemma OneJobPerRow(s: State, i: nat, j: nat)
    requires Reachable(s) && i < |s.jobs| && j < |s.jobs| && s.jobs[i].row == s.jobs[j].row
    ensures i == j && s.adds[s.jobs[i].row] == 0
  {
    ReachableInv(s);
    assert HasJob(s, s.jobs[i].row);
  }

  lemma AttemptsBounded(s: State, e: RowId)
    requires Reachable(s) && e in s.rows
    ensures s.rows[e].attempts <= 3
    ensures (s.rows[e].status == Completed ==>
               exists j :: 0 <= j < |s.jobs| && s.jobs[j].row == e && s.jobs[j].handled > 0)
  {
    ReachableInv(s);
    if j :| 0 <= j < |s.jobs| && s.jobs[j].row == e {
      assert GoodJob(s.jobs[j]);
    } else {
      assert !HasJob(s, e);
    }
  }

  // ---------------------------------------------------------------- the life of a row

  predicate OnRow(s: State, a: Action, e: RowId) {
    ByWorker(a) && a.j < |s.jobs| && s.jobs[a.j].row == e
  }

  /** A row appears pending and unattempted, and stays. */
  lemma RowAppears(s: State, a: Action, e: RowId)
    requires Enabled(s, a)
    ensures e in Next(s, a).rows <==> e in s.rows || (a.Insert? && a.e == e)
    ensures a.Insert? && a.e == e ==> Next(s, a).rows[e] == Row(Pending, 0, a.scheduledAt)
  {
  }

  /** A commit queues it; an attempt counts as it begins; the outcome and every failed attempt's handler
      mark it; nothing else changes it. */
  lemma RowChanges(s: State, a: Action, e: RowId)
    requires Enabled(s, a) && e in s.rows
    ensures e in Next(s, a).rows
    ensures var row := s.rows[e];
            Next(s, a).rows[e] ==
              if a.Commit? && e in s.open[a.p] then row.(status := Queued)
              else if OnRow(s, a, e) && a.Begin? then row.(status := Processing, attempts := row.attempts + 1)
              else if OnRow(s, a, e) && a.Complete? then row.(status := Completed)
              else if OnRow(s, a, e) && (a.TenantMissing? || a.Notify?) then row.(status := Failed)
              else row
  {
  }

  /** A job is made by an enqueue call, for its row and with all its attempts to come. */
  lemma JobAppears(s: State, a: Action)
    requires Enabled(s, a)
    ensures (if a.Enqueue? then Next(s, a).jobs == s.jobs + [Job(a.e, 0, 0, 0, 0, Waiting)]
             else |Next(s, a).jobs| == |s.jobs|)
  {
  }

  /** It changes only by the steps of its own worker and handler, in their order; the third failed attempt
      is the last, and each owes a notice. */
  lemma JobChanges(s: State, a: Action, j: nat)
    requires Enabled(s, a) && j < |s.jobs|
    ensures var job, job' := s.jobs[j], Next(s, a).jobs[j];
            && job'.row == job.row
            && job'.made == job.made + (if a == FailAttempt(j) then 1 else 0)
            && job'.begins == job.begins + (if a == Begin(j) then 1 else 0)
            && job'.handled == job.handled + (if a == Return(j) then 1 else 0)
            && job'.notices == job.notices + (if a == FailAttempt(j) then 1 else if a == Notify(j) then -1 else 0)
            && job'.phase ==
                 (if a == Start(j) then Active(Fresh)
                  else if a == Begin(j) then Active(Begun)
                  else if a == Return(j) then Active(Returned)
                  else if a == TenantMissing(j) || a == Complete(j) then Active(Recorded)
                  else if a == Finish(j) then Ended
                  else if a == FailAttempt(j) then if job.made < 2 then Waiting else Exhausted
                  else job.phase)
  {
  }

  /** Locks and calls to come. */
  lemma ClaimsChange(s: State, a: Action)
    requires Enabled(s, a)
    ensures (Next(s, a).open ==
             if a.Select? then s.open[a.p := a.batch] else if a.Commit? || a.Abort? then s.open - {a.p} else s.open)
    ensures (Next(s, a).adds ==
             if a.Commit? then s.adds + multiset(s.open[a.p])
             else if a.Enqueue? || a.LoseAdd? then s.adds - multiset{a.e} else s.adds)
  {
  }

  // ---------------------------------------------------------------- what can still complete

  predicate CanRun(job: Job) {
    match job.phase
    case Waiting => true
    case Active(stage) => stage != Recorded || job.made + 1 < ATTEMPTS
    case _ => false
  }

  ghost predicate HasLiveJob(s: State, e: RowId) {
    exists j :: 0 <= j < |s.jobs| && s.jobs[j].row == e && CanRun(s.jobs[j])
  }

  /** Something is still going to happen to the row: a poller, an enqueue call or a job has it. */
  ghost predicate Live(s: State, e: RowId) {
    e in s.rows && (s.rows[e].status == Pending || e in s.adds || HasLiveJob(s, e))
  }

  ghost predicate IsCompleted(s: State, e: RowId) {
    e in s.rows && s.rows[e].status == Completed
  }

  /** e is at most declared failed. */
  ghost predicate AtMostFailed(s: State, s': State, e: RowId)
    requires e in s.rows
  {
    && e in s'.rows && s'.rows[e].attempts == s.rows[e].attempts
    && (s'.rows[e].status == s.rows[e].status || s'.rows[e].status == Failed)
  }

  lemma DeadWork(s: State, a: Action, e: RowId)
    requires PlaceInv(s) && Enabled(s, a) && ByWorker(a) && e in s.rows && !Live(s, e)
    ensures AtMostFailed(s, Next(s, a), e) && !Live(Next(s, a), e)
  {
  }

  lemma DeadStep(s: State, a: Action, e: RowId)
    requires LockInv(s) && PlaceInv(s) && Enabled(s, a) && e in s.rows && !Live(s, e)
    ensures AtMostFailed(s, Next(s, a), e) && !Live(Next(s, a), e)
  {
    var s' := Next(s, a);
    if ByWorker(a) {
      DeadWork(s, a, e);
    } else if a.Enqueue? {
      assert forall j :: 0 <= j < |s.jobs| ==> s'.jobs[j] == s.jobs[j];
    } else {
      assert s'.jobs == s.jobs;
      assert HasLiveJob(s', e) <==> HasLiveJob(s, e);
    }
  }

  /** A claimed row whose enqueue call was lost, or whose job is over, is never attempted again. */
  lemma {:induction false} DeadStaysDead(s: State, run: seq<Action>, e: RowId)
    requires Inv(s) && Legal(s, run) && e in s.rows && !Live(s, e)
    ensures AtMostFailed(s, Exec(s, run), e)
    decreases |run|
  {
    if run != [] {
      DeadStep(s, run[0], e);
      InvStep(s, run[0]);
      DeadStaysDead(Next(s, run[0]), run[1..], e);
    }
  }

  lemma Prepend(s: State, a: Action, run: seq<Action>)
    requires Enabled(s, a) && Legal(Next(s, a), run)
    ensures Legal(s, [a] + run) && Exec(s, [a] + run) == Exec(Next(s, a), run)
  {
  }

  /** The step that brings a job closer to completion, when its handler returns. */
  function Onward(job: Job, j: nat): Action
    requires CanRun(job)
  {
    match job.phase
    case Waiting => Start(j)
    case Active(Fresh) => Begin(j)
    case Active(Begun) => Return(j)
    case Active(Returned) => Complete(j)
    case _ => FailAttempt(j)
  }

  function Distance(job: Job): nat {
    match job.phase
    case Active(Returned) => 1
    case Active(Begun) => 2
    case Active(Fresh) => 3
    case Waiting => 4
    case _ => 5
  }

  lemma {:induction false} CompleteJob(s: State, j: nat) returns (run: seq<Action>)
    requires Inv(s) && j < |s.jobs| && CanRun(s.jobs[j])
    ensures Legal(s, run) && IsCompleted(Exec(s, run), s.jobs[j].row)
    decreases Distance(s.jobs[j])
  {
    var a := Onward(s.jobs[j], j);
    var s' := Next(s, a);
    InvStep(s, a);
    if a.Complete? {
      run := [];
    } else {
      run := CompleteJob(s', j);
    }
    Prepend(s, a, run);
    run := [a] + run;
  }

  lemma CompleteAdd(s: State, e: RowId) returns (run: seq<Action>)
    requires Inv(s) && e in s.adds
    ensures Legal(s, run) && IsCompleted(Exec(s, run), e)
  {
    var s' := Next(s, Enqueue(e));
    InvStep(s, Enqueue(e));
    run := CompleteJob(s', |s.jobs|);
    Prepend(s, Enqueue(e), run);
    run := [Enqueue(e)] + run;
  }

  lemma {:induction false} Oldest(s: State, eligible: set<RowId>) returns (x: RowId)
    requires eligible != {} && forall e :: e in eligible ==> e in s.rows
    ensures x in eligible && forall y :: y in eligible ==> NotAfter(s, x, y)
    decreases eligible
  {
    x :| x in eligible;
    var others := eligible - {x};
    assert forall y :: y in eligible ==> y == x || y in others;
    if others != {} {
      var y := Oldest(s, others);
      if NotAfter(s, y, x) {
        x := y;
      }
    }
  }

  lemma {:induction false} TakeOldest(s: State, eligible: set<RowId>, n: nat) returns (batch: set<RowId>)
    requires forall e :: e in eligible ==> e in s.rows
    ensures batch <= eligible && |batch| <= n && (|batch| < n ==> batch == eligible)
    ensures forall x, y :: x in batch && y in eligible && y !in batch ==> NotAfter(s, x, y)
    ensures n > 0 && eligible != {} ==> batch != {}
    decreases n
  {
    if n == 0 || eligible == {} {
      batch := {};
    } else {
      var x := Oldest(s, eligible);
      var rest := TakeOldest(s, eligible - {x}, n - 1);
      batch := rest + {x};
      assert x !in rest;
    }
  }

  function SelectableSet(s: State): (r: set<RowId>)
    ensures forall e :: e in r <==> Selectable(s, e)
  {
    set e | e in s.rows && Selectable(s, e)
  }

  ghost function Above(xs: set<nat>): (b: nat)
    ensures forall x :: x in xs ==> x < b
  {
    if xs == {} then 0
    else
      var x :| x in xs;
      var rest := Above(xs - {x});
      assert forall y :: y in xs ==> y == x || y in xs - {x};
      if rest <= x then x + 1 else rest
  }

  lemma CommitLocked(s: State, p: nat, e: RowId) returns (run: seq<Action>)
    requires Inv(s) && p in s.open && e in s.open[p]
    ensures Legal(s, run) && IsCompleted(Exec(s, run), e)
  {
    var s' := Next(s, Commit(p));
    InvStep(s, Commit(p));
    run := CompleteAdd(s', e);
    Prepend(s, Commit(p), run);
    run := [Commit(p)] + run;
  }

  /** Older rows go first; each poll takes at least one of them out of the way. */
  lemma {:induction false} CompletePending(s: State, e: RowId) returns (run: seq<Action>)
    requires Inv(s) && e in s.rows && s.rows[e].status == Pending
    ensures Legal(s, run) && IsCompleted(Exec(s, run), e)
    decreases |SelectableSet(s)|
  {
    if Locked(s, e) {
      var p :| p in s.open && e in s.open[p];
      run := CommitLocked(s, p, e);
    } else {
      var eligible := SelectableSet(s);
      var batch := TakeOldest(s, eligible, BATCH_SIZE);
      var p := Above(s.open.Keys);
      assert e in eligible;
      assert LegalBatch(s, batch);
      var a := Select(p, batch);
      var s' := Next(s, a);
      InvStep(s, a);
      FewerSelectable(s, p, batch);
      run := CompletePending(s', e);
      Prepend(s, a, run);
      run := [a] + run;
    }
  }

  lemma FewerSelectable(s: State, p: nat, batch: set<RowId>)
    requires Enabled(s, Select(p, batch))
    ensures |SelectableSet(Next(s, Select(p, batch)))| < |SelectableSet(s)|
  {
    var s' := Next(s, Select(p, batch));
    var x :| x in batch;
    assert Selectable(s, x);
    assert p in s'.open && x in s'.open[p];
    assert forall q :: q in s.open ==> q in s'.open && s'.open[q] == s.open[q];
    assert forall e :: Selectable(s', e) ==> Selectable(s, e);
    SmallerSet(SelectableSet(s'), SelectableSet(s), x);
  }

  lemma {:induction false} SmallerSet(a: set<RowId>, b: set<RowId>, x: RowId)
    requires a <= b && x in b && x !in a
    ensures |a| < |b|
    decreases a
  {
    if a != {} {
      var y :| y in a;
      SmallerSet(a - {y}, b - {y}, x);
    }
  }

  lemma LiveCompletes(s: State, e: RowId) returns (run: seq<Action>)
    requires Inv(s) && Live(s, e)
    ensures Legal(s, run) && IsCompleted(Exec(s, run), e)
  {
    if s.rows[e].status == Pending {
      run := CompletePending(s, e);
    } else if e in s.adds {
      run := CompleteAdd(s, e);
    } else {
      var j :| 0 <= j < |s.jobs| && s.jobs[j].row == e && CanRun(s.jobs[j]);
      run := CompleteJob(s, j);
    }
  }

  ghost predicate LeadsToCompletion(s: State, run: seq<Action>, e: RowId) {
    Legal(s, run) && IsCompleted(Exec(s, run), e)
  }

  /** Exactly the live rows can still be completed. */
  lemma CompletableIffLive(s: State, e: RowId)
    requires Reachable(s) && e in s.rows && s.rows[e].status != Completed
    ensures Live(s, e) <==> exists run :: LeadsToCompletion(s, run, e)
  {
    ReachableInv(s);
    if Live(s, e) {
      var run := LiveCompletes(s, e);
      assert LeadsToCompletion(s, run, e);
    } else {
      forall run | Legal(s, run) ensures !LeadsToCompletion(s, run, e) {
        DeadStaysDead(s, run, e);
      }
    }
  }

  lemma {:induction false} Append(s: State, run: seq<Action>, a: Action)
    requires Legal(s, run) && Enabled(Exec(s, run), a)
    ensures Legal(s, run + [a]) && Exec(s, run + [a]) == Next(Exec(s, run), a)
    decreases |run|
  {
    if run == [] {
      Prepend(s, a, []);
      assert [] + [a] == [a] + [];
    } else {
      Append(Next(s, run[0]), run[1..], a);
      assert (run + [a])[1..] == run[1..] + [a];
    }
  }

  lemma ReachNext(s: State, a: Action)
    requires Reachable(s) && Enabled(s, a)
    ensures Reachable(Next(s, a))
  {
    var s0, run :| Initial(s0) && Legal(s0, run) && Exec(s0, run) == s;
    Append(s0, run, a);
    assert Initial(s0) && Legal(s0, run + [a]) && Exec(s0, run + [a]) == Next(s, a);
  }

  /** One lost enqueue call is enough: the row stays queued, with no attempt made, for good. */
  lemma LostAddStrandsRow() returns (s: State, e: RowId)
    ensures Reachable(s) && e in s.rows && s.rows[e] == Row(Queued, 0, 0) && !Live(s, e)
  {
    e := 0;
    var s0 := State(map[], map[], multiset{}, []);
    assert Legal(s0, []) && Exec(s0, []) == s0;
    var s1 := Next(s0, Insert(e, 0));
    ReachNext(s0, Insert(e, 0));
    assert LegalBatch(s1, {e});
    var s2 := Next(s1, Select(0, {e}));
    ReachNext(s1, Select(0, {e}));
    var s3 := Next(s2, Commit(0));
    ReachNext(s2, Commit(0));
    s := Next(s3, LoseAdd(e));
    ReachNext(s3, LoseAdd(e));
  }
}
