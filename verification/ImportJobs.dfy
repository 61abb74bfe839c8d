/** The life of import jobs as steps: the web tier inserts and enqueues them, any number of workers
    receive deliveries and run the body, and users, the timeout job and crashes interfere between any
    two committed database sessions. */
module ImportJobs {
  import opened Prelude
  import opened JobTables
  import B = ImportBatches

  type TaskId = nat

  /** Where a worker task stands, named after what it does next. The try block of import_job spans
      Prepare to Report; Handler is its except clause and Leave its finally clause. */
  datatype Pc =
    | Claim | Fetch | MarkRunning | Enter
    | Prepare | WriteEmpty | WriteTotal | Folders | LoopHead | Importing | WriteProgress
    | FinalCheck | WriteCompleted | Report
    | Handler | Leave | Escaped

  predicate InTry(pc: Pc) {
    pc in {Prepare, WriteEmpty, WriteTotal, Folders, LoopHead, Importing, WriteProgress, FinalCheck,
           WriteCompleted, Report}
  }

  datatype Task = Task(
    arq: ArqId, job: JobId, pc: Pc, total: nat, next: nat, completed: nat, failed: nat)

  datatype Start = Start(arq: ArqId, job: JobId)

  /** `waiting` holds the rows add_job committed and has not enqueued yet. `starts`, `raised` and `handed`
      record the past: every start of the wrapped body, the ids whose body raised out of it, and for each
      job the positions of the keys its batches handed to the importer, in order. */
  datatype State = State(
    rows: Rows, nextJob: JobId, waiting: set<JobId>, queue: map<ArqId, JobId>,
    claims: map<ArqId, Mark>, tasks: map<TaskId, Task>, starts: seq<Start>, raised: set<ArqId>,
    handed: map<JobId, seq<nat>>)

  const INITIAL := State(map[], 0, {}, map[], map[], map[], [], {}, map[])

  datatype Action =
    // the web tier: the two halves of add_job, and the user's requests
    | InsertRow(owner: Owner)
    | Enqueue(job: JobId, arq: ArqId)
    | CancelJob(job: JobId, owner: Owner)
    | DeleteJob(job: JobId, owner: Owner)
    | ClearCompleted(owner: Owner)
    // the timeout job, free to pick any running rows
    | TimeoutStale(stale: set<JobId>)
    // a worker: any enqueued id may be delivered again at any time, to any task
    | Deliver(id: TaskId, arq: ArqId)
    | Advance(id: TaskId)
    | Scanned(id: TaskId, total: nat)
    | Answered(id: TaskId, replies: seq<B.Reply>)
    | Raise(id: TaskId)
    | Crash(id: TaskId)

  function Goto(s: State, id: TaskId, pc: Pc): State
    requires id in s.tasks
  {
    s.(tasks := s.tasks[id := s.tasks[id].(pc := pc)])
  }

  function Drop(s: State, id: TaskId): State {
    s.(tasks := s.tasks - {id})
  }

  predicate ReadsCancelled(rows: Rows, job: JobId) {
    job in rows && rows[job].status == Cancelled
  }

  function SetStatus(status: Status): Change { Change(status, None, None, None) }

  /** The size of the next batch of a task. */
  function BatchSize(t: Task): nat {
    if t.total < t.next then 0 else B.Min(25, t.total - t.next)
  }

  /** The positions of the `n` keys from `start` on. */
  function Batch(start: nat, n: nat): (r: seq<nat>)
    ensures |r| == n && forall i :: 0 <= i < n ==> r[i] == start + i
  {
    seq(n, i => start + i)
  }

  function HandedTo(s: State, job: JobId): seq<nat> {
    if job in s.handed then s.handed[job] else []
  }

  function HandedOver(handed: map<JobId, seq<nat>>, job: JobId, start: nat, n: nat): map<JobId, seq<nat>> {
    if n == 0 then handed
    else handed[job := (if job in handed then handed[job] else []) + Batch(start, n)]
  }

  /** The stops at which a task does nothing but read. */
  predicate Reads(pc: Pc) {
    pc in {Fetch, Enter, Folders, LoopHead, FinalCheck, Report}
  }

  /** Where a read takes a task, given what it reads. */
  function AfterRead(t: Task, gone: bool, cancelled: bool): Pc
    requires Reads(t.pc)
  {
    match t.pc
    case Fetch => if gone then Leave else MarkRunning
    case Enter => Prepare
    case Folders => if cancelled then Leave else LoopHead
    case LoopHead => if t.next >= t.total || cancelled then FinalCheck else Importing
    case FinalCheck => if cancelled then Leave else WriteCompleted
    case Report => Leave
  }

  /** A read moves the task, and the one that starts a batch hands its keys over. */
  function ReadStep(s: State, id: TaskId): State
    requires id in s.tasks && Reads(s.tasks[id].pc)
  {
    var t := s.tasks[id];
    var pc := AfterRead(t, t.job !in s.rows, ReadsCancelled(s.rows, t.job));
    s.(tasks := s.tasks[id := t.(pc := pc)],
       handed := if pc == Importing then HandedOver(s.handed, t.job, t.next, BatchSize(t)) else s.handed)
  }

  /** The stops at which a task writes its row. */
  predicate Writes(pc: Pc) {
    pc in {MarkRunning, WriteEmpty, WriteTotal, WriteProgress, WriteCompleted, Handler}
  }

  function WhatIsWritten(t: Task): Change
    requires Writes(t.pc)
  {
    match t.pc
    case MarkRunning => SetStatus(Running)
    case WriteEmpty => Change(Completed, Some(0), None, None)
    case WriteTotal => Change(Running, Some(t.total), None, None)
    case WriteProgress => Change(Running, None, Some(t.completed), Some(t.failed))
    case WriteCompleted => SetStatus(Completed)
    case Handler => SetStatus(Failed)
  }

  function AfterWrite(pc: Pc): Pc
    requires Writes(pc)
  {
    match pc
    case MarkRunning => Enter
    case WriteEmpty => Report
    case WriteTotal => Folders
    case WriteProgress => LoopHead
    case WriteCompleted => Report
    case Handler => Leave
  }

  function WriteStep(s: State, id: TaskId): State
    requires id in s.tasks && Writes(s.tasks[id].pc)
  {
    var t := s.tasks[id];
    s.(tasks := s.tasks[id := t.(pc := AfterWrite(t.pc))], rows := Updated(s.rows, t.job, WhatIsWritten(t)))
  }

  /** The first claim of an id records it and starts its body. */
  function ClaimStep(s: State, id: TaskId): State
    requires id in s.tasks
  {
    var t := s.tasks[id];
    s.(tasks := s.tasks[id := t.(pc := Fetch)], claims := WithClaim(s.claims, t.arq),
       starts := s.starts + [Start(t.arq, t.job)])
  }

  /** The wrapper records that the body raised. */
  function EscapeStep(s: State, id: TaskId): State
    requires id in s.tasks
  {
    s.(tasks := s.tasks - {id}, claims := WithFailure(s.claims, s.tasks[id].arq))
  }

  /** One committed step of a worker task whose outcome the code determines. */
  function Advanced(s: State, id: TaskId): State
    requires id in s.tasks
  {
    var t := s.tasks[id];
    match t.pc
    case Claim => if t.arq in s.claims then Drop(s, id) else ClaimStep(s, id)
    case Fetch | Enter | Folders | LoopHead | FinalCheck | Report => ReadStep(s, id)
    case MarkRunning | WriteEmpty | WriteTotal | WriteProgress | WriteCompleted | Handler => WriteStep(s, id)
    case Prepare | Importing => s
    case Leave => Drop(s, id)
    case Escaped => EscapeStep(s, id)
  }

  function Absorb(t: Task, replies: seq<B.Reply>): Task {
    if exists i :: 0 <= i < |replies| && replies[i].Aborted? then t.(pc := Handler)
    else
      var tally := B.TallyOf(replies);
      t.(pc := WriteProgress, next := t.next + |replies|,
         completed := t.completed + tally.added + tally.skipped, failed := t.failed + tally.failed)
  }

  /** An exception inside the try block reaches its handler; anywhere else it leaves the body and
      reaches the wrapper, which records it. */
  function Thrown(s: State, id: TaskId): State
    requires id in s.tasks
  {
    var t := s.tasks[id];
    if t.pc == Claim then Drop(s, id)
    else if InTry(t.pc) then Goto(s, id, Handler)
    else Goto(s, id, Escaped).(raised := s.raised + {t.arq})
  }

  function Step(s: State, a: Action): State {
    match a
    case InsertRow(owner) =>
      s.(rows := s.rows[s.nextJob := Row(Pending, owner, None, 0, 0, 0)], nextJob := s.nextJob + 1,
         waiting := s.waiting + {s.nextJob})
    case Enqueue(job, arq) =>
      if job in s.waiting && arq !in s.queue
      then s.(queue := s.queue[arq := job], waiting := s.waiting - {job}) else s
    case CancelJob(job, owner) => s.(rows := WithCancelled(s.rows, job, owner))
    case DeleteJob(job, owner) => s.(rows := Deleted(s.rows, job, owner))
    case ClearCompleted(owner) => s.(rows := Cleared(s.rows, owner))
    case TimeoutStale(stale) => s.(rows := TimedOut(s.rows, stale))
    case Deliver(id, arq) =>
      if id !in s.tasks && arq in s.queue
      then s.(tasks := s.tasks[id := Task(arq, s.queue[arq], Claim, 0, 0, 0, 0)]) else s
    case Advance(id) => if id in s.tasks then Advanced(s, id) else s
    case Scanned(id, total) =>
      if id in s.tasks && s.tasks[id].pc == Prepare
      then s.(tasks := s.tasks[id := s.tasks[id].(pc := if total == 0 then WriteEmpty else WriteTotal,
                                                  total := total)]) else s
    case Answered(id, replies) =>
      if id in s.tasks && s.tasks[id].pc == Importing && |replies| == BatchSize(s.tasks[id])
      then s.(tasks := s.tasks[id := Absorb(s.tasks[id], replies)]) else s
    case Raise(id) => if id in s.tasks then Thrown(s, id) else s
    case Crash(id) => Drop(s, id)
  }

  function Run(s: State, actions: seq<Action>): State
    decreases |actions|
  {
    if actions == [] then s else Run(Step(s, actions[0]), actions[1..])
  }

  // ----- the invariant -----

  ghost predicate QueueOk(s: State) {
    && (forall j :: j in s.waiting ==> j < s.nextJob)
    && (forall a :: a in s.queue ==> s.queue[a] < s.nextJob && s.queue[a] !in s.waiting)
    && (forall a, b :: a in s.queue && b in s.queue && s.queue[a] == s.queue[b] ==> a == b)
  }

  ghost predicate Started(starts: seq<Start>, a: ArqId) {
    exists i :: 0 <= i < |starts| && starts[i].arq == a
  }

  ghost predicate HistoryOk(s: State) {
    && (forall i :: 0 <= i < |s.starts| ==>
          && s.starts[i].arq in s.claims
          && s.starts[i].arq in s.queue && s.queue[s.starts[i].arq] == s.starts[i].job)
    && (forall i, j :: 0 <= i < j < |s.starts| ==> s.starts[i].arq != s.starts[j].arq)
    && (forall a :: a in s.claims ==> a in s.queue && Started(s.starts, a))
    && (forall a :: a in s.claims && s.claims[a] == MarkedFailed ==> a in s.raised)
    && s.raised <= s.claims.Keys
  }

  ghost predicate TaskOk(s: State, t: Task) {
    && t.arq in s.queue && s.queue[t.arq] == t.job
    && (t.pc != Claim ==> t.arq in s.claims)
    && (t.pc == Escaped ==> t.arq in s.raised)
  }

  ghost predicate TasksOk(s: State) {
    && (forall id :: id in s.tasks ==> TaskOk(s, s.tasks[id]))
    && (forall i, j :: (i in s.tasks && j in s.tasks && s.tasks[i].arq == s.tasks[j].arq
                        && s.tasks[i].pc != Claim && s.tasks[j].pc != Claim) ==> i == j)
  }

  predicate Untouched(r: Row) {
    r.status != Completed && r.total == r.completed == r.failed == 0
  }

  /** The row shows exactly what the task has counted. */
  predicate InStep(t: Task, r: Row) {
    && r.status != Completed
    && r.total == t.total && r.completed == t.completed && r.failed == t.failed
    && t.completed + t.failed == t.next <= t.total
  }

  /** What the row of a working task looks like at each of its stops. */
  predicate RowFits(t: Task, r: Row) {
    match t.pc
    case Claim => t.next == t.completed == t.failed == 0
    case Fetch | MarkRunning | Enter | Prepare | WriteEmpty | WriteTotal =>
      Untouched(r) && t.next == t.completed == t.failed == 0
    case Folders | LoopHead | Importing => InStep(t, r)
    case WriteProgress =>
      r.status != Completed && r.total == t.total && t.completed + t.failed == t.next <= t.total
    case FinalCheck => InStep(t, r) && (t.next == t.total || r.status == Cancelled)
    case WriteCompleted => InStep(t, r) && t.next == t.total
    case Report | Handler | Leave | Escaped => true
  }

  ghost predicate RowsOk(s: State) {
    && (forall j :: j in s.rows ==> j < s.nextJob)
    && (forall j :: j in s.rows && s.rows[j].status == Completed ==> s.rows[j].Balanced())
    && (forall j :: j in s.waiting && j in s.rows ==> Untouched(s.rows[j]))
    && (forall a :: a in s.queue && a !in s.claims && s.queue[a] in s.rows ==>
          Untouched(s.rows[s.queue[a]]))
    && (forall id :: id in s.tasks && s.tasks[id].job in s.rows ==>
          RowFits(s.tasks[id], s.rows[s.tasks[id].job]))
  }

  ghost predicate Inv(s: State) {
    QueueOk(s) && HistoryOk(s) && TasksOk(s) && RowsOk(s)
  }

  // ----- three ways a step can change the state -----

  /** A working task moves on and touches no row but its own. */
  ghost predicate IsMove(s: State, id: TaskId, t: Task, rows: Rows) {
    && id in s.tasks && s.tasks[id].pc != Claim && t.pc != Claim
    && t.arq == s.tasks[id].arq && t.job == s.tasks[id].job
    && (t.pc == Escaped ==> t.arq in s.raised)
    && rows.Keys == s.rows.Keys
    && (forall j :: j in rows && j != t.job ==> rows[j] == s.rows[j])
    && (t.job in rows ==> Fits(t, rows[t.job]))
  }

  predicate Fits(t: Task, r: Row) {
    RowFits(t, r) && (r.status == Completed ==> r.Balanced())
  }

  lemma MoveKeepsOthers(s: State, id: TaskId, t: Task, rows: Rows, i: TaskId)
    requires QueueOk(s) && TasksOk(s) && RowsOk(s) && IsMove(s, id, t, rows)
    requires i in s.tasks && i != id && s.tasks[i].job in rows
    ensures RowFits(s.tasks[i], rows[s.tasks[i].job])
  {
    if s.tasks[i].pc != Claim {
      assert s.tasks[i].arq != t.arq;
      assert s.tasks[i].job != t.job;
    }
  }

  lemma MoveKeepsTasks(s: State, id: TaskId, t: Task, rows: Rows)
    requires Inv(s) && IsMove(s, id, t, rows)
    ensures TasksOk(s.(tasks := s.tasks[id := t], rows := rows))
  {
    assert TaskOk(s, s.tasks[id]);
  }

  /** The row of a working task is neither waiting nor unclaimed. */
  lemma WorkedOn(s: State, id: TaskId)
    requires QueueOk(s) && TasksOk(s) && id in s.tasks && s.tasks[id].pc != Claim
    ensures s.tasks[id].job !in s.waiting
    ensures forall a :: a in s.queue && a !in s.claims ==> s.queue[a] != s.tasks[id].job
  {
    assert TaskOk(s, s.tasks[id]);
  }

  lemma MoveKeepsRows(s: State, id: TaskId, t: Task, rows: Rows)
    requires Inv(s) && IsMove(s, id, t, rows)
    ensures RowsOk(s.(tasks := s.tasks[id := t], rows := rows))
  {
    var s' := s.(tasks := s.tasks[id := t], rows := rows);
    forall i | i in s'.tasks && s'.tasks[i].job in s'.rows
      ensures RowFits(s'.tasks[i], s'.rows[s'.tasks[i].job])
    {
      if i != id {
        MoveKeepsOthers(s, id, t, rows, i);
      }
    }
    WorkedOn(s, id);
  }

  lemma MoveKeeps(s: State, id: TaskId, t: Task, rows: Rows)
    requires Inv(s) && IsMove(s, id, t, rows)
    ensures Inv(s.(tasks := s.tasks[id := t], rows := rows))
  {
    var s' := s.(tasks := s.tasks[id := t], rows := rows);
    PastKeeps(s, s');
    MoveKeepsTasks(s, id, t, rows);
    MoveKeepsRows(s, id, t, rows);
  }

  lemma PastKeeps(s: State, s': State)
    requires QueueOk(s) && HistoryOk(s)
    requires s'.waiting == s.waiting && s'.queue == s.queue && s'.nextJob == s.nextJob
    requires s'.starts == s.starts && s'.claims == s.claims && s'.raised == s.raised
    ensures QueueOk(s') && HistoryOk(s')
  {
  }

  /** The invariant does not look at the keys handed over. */
  lemma HandedAside(s: State, handed: map<JobId, seq<nat>>)
    requires Inv(s)
    ensures Inv(s.(handed := handed))
  {
  }

  lemma DropKeeps(s: State, id: TaskId)
    requires Inv(s)
    ensures Inv(Drop(s, id))
  {
  }

  /** What users and the timeout job may do to a row: change its status to something that is neither
      "completed" nor an escape from "cancelled". */
  predicate Harmless(r: Row, r': Row) {
    r' == r || (r' == r.(status := r'.status) && r'.status != Completed
                && (r.status == Cancelled ==> r'.status == Cancelled))
  }

  lemma HarmlessFits(t: Task, r: Row, r': Row)
    requires RowFits(t, r) && Harmless(r, r')
    ensures RowFits(t, r')
  {
  }

  lemma InterferenceKeepsRows(s: State, rows: Rows)
    requires RowsOk(s) && rows.Keys <= s.rows.Keys
    requires forall j :: j in rows ==> Harmless(s.rows[j], rows[j])
    ensures RowsOk(s.(rows := rows))
  {
    forall id | id in s.tasks && s.tasks[id].job in rows
      ensures RowFits(s.tasks[id], rows[s.tasks[id].job])
    {
      HarmlessFits(s.tasks[id], s.rows[s.tasks[id].job], rows[s.tasks[id].job]);
    }
  }

  lemma InterferenceKeeps(s: State, rows: Rows)
    requires Inv(s)
    requires rows.Keys <= s.rows.Keys
    requires forall j :: j in rows ==> Harmless(s.rows[j], rows[j])
    ensures Inv(s.(rows := rows))
  {
    InterferenceKeepsRows(s, rows);
  }

  // ----- every step keeps the invariant -----

  lemma InsertKeepsRows(s: State, owner: Owner)
    requires Inv(s)
    ensures RowsOk(Step(s, InsertRow(owner)))
  {
    forall id | id in s.tasks ensures s.tasks[id].job != s.nextJob {
      assert TaskOk(s, s.tasks[id]);
    }
  }

  lemma InsertKeeps(s: State, owner: Owner)
    requires Inv(s)
    ensures Inv(Step(s, InsertRow(owner)))
  {
    InsertKeepsRows(s, owner);
    assert TasksOk(Step(s, InsertRow(owner)));
  }

  lemma EnqueueKeepsRows(s: State, job: JobId, arq: ArqId)
    requires QueueOk(s) && RowsOk(s) && job in s.waiting && arq !in s.queue
    ensures RowsOk(Step(s, Enqueue(job, arq)))
  {
  }

  lemma EnqueueKeeps(s: State, job: JobId, arq: ArqId)
    requires Inv(s) && job in s.waiting && arq !in s.queue
    ensures Inv(Step(s, Enqueue(job, arq)))
  {
    EnqueueKeepsPast(s, job, arq);
    EnqueueKeepsTasks(s, job, arq);
    EnqueueKeepsRows(s, job, arq);
  }

  lemma EnqueueKeepsPast(s: State, job: JobId, arq: ArqId)
    requires QueueOk(s) && HistoryOk(s) && job in s.waiting && arq !in s.queue
    ensures QueueOk(Step(s, Enqueue(job, arq))) && HistoryOk(Step(s, Enqueue(job, arq)))
  {
  }

  lemma EnqueueKeepsTasks(s: State, job: JobId, arq: ArqId)
    requires TasksOk(s) && job in s.waiting && arq !in s.queue
    ensures TasksOk(Step(s, Enqueue(job, arq)))
  {
    var s' := Step(s, Enqueue(job, arq));
    forall i | i in s.tasks ensures TaskOk(s', s.tasks[i]) {
      assert TaskOk(s, s.tasks[i]);
    }
  }

  lemma DeliverKeeps(s: State, id: TaskId, arq: ArqId)
    requires Inv(s)
    ensures Inv(Step(s, Deliver(id, arq)))
  {
    if id !in s.tasks && arq in s.queue {
      DeliverKeepsTasks(s, id, arq);
      DeliverKeepsRows(s, id, arq);
    }
  }

  lemma DeliverKeepsTasks(s: State, id: TaskId, arq: ArqId)
    requires TasksOk(s) && id !in s.tasks && arq in s.queue
    ensures TasksOk(Step(s, Deliver(id, arq)))
  {
    var s' := Step(s, Deliver(id, arq));
    forall i | i in s'.tasks ensures TaskOk(s', s'.tasks[i]) {
      assert i in s.tasks ==> TaskOk(s, s.tasks[i]);
    }
  }

  lemma DeliverKeepsRows(s: State, id: TaskId, arq: ArqId)
    requires RowsOk(s) && id !in s.tasks && arq in s.queue
    ensures RowsOk(Step(s, Deliver(id, arq)))
  {
  }

  /** The claim is what makes a body the only one of its row: the id was unclaimed, so the row is
      untouched and no other task works on it. */
  lemma ClaimKeeps(s: State, id: TaskId)
    requires Inv(s) && id in s.tasks && s.tasks[id].pc == Claim && s.tasks[id].arq !in s.claims
    ensures Inv(ClaimStep(s, id))
  {
    assert TaskOk(s, s.tasks[id]);
    ClaimExtends(s, ClaimStep(s, id), s.tasks[id]);
    ClaimKeepsTasks(s, id);
    ClaimKeepsRows(s, id);
  }

  lemma ClaimKeepsTasks(s: State, id: TaskId)
    requires TasksOk(s) && id in s.tasks && s.tasks[id].pc == Claim && s.tasks[id].arq !in s.claims
    ensures TasksOk(ClaimStep(s, id))
  {
    var s' := ClaimStep(s, id);
    forall i | i in s'.tasks ensures TaskOk(s', s'.tasks[i]) {
      assert TaskOk(s, s.tasks[i]);
    }
    forall i | i in s.tasks && s.tasks[i].arq == s.tasks[id].arq ensures s.tasks[i].pc == Claim {
      assert TaskOk(s, s.tasks[i]);
    }
  }

  lemma AppendStarted(starts: seq<Start>, x: Start, a: ArqId)
    requires Started(starts, a) || x.arq == a
    ensures Started(starts + [x], a)
  {
    var starts' := starts + [x];
    assert starts'[|starts|] == x;
    if x.arq != a {
      var i :| 0 <= i < |starts| && starts[i].arq == a;
      assert starts'[i].arq == a;
    }
  }

  /** A start of an unclaimed, enqueued id extends the past. */
  lemma ClaimExtends(s: State, s': State, t: Task)
    requires HistoryOk(s) && t.arq !in s.claims && t.arq in s.queue && s.queue[t.arq] == t.job
    requires s'.starts == s.starts + [Start(t.arq, t.job)] && s'.claims == s.claims[t.arq := Unmarked]
    requires s'.queue == s.queue && s'.raised == s.raised
    ensures HistoryOk(s')
  {
    forall a | a in s'.claims ensures Started(s'.starts, a) {
      AppendStarted(s.starts, Start(t.arq, t.job), a);
    }
  }

  lemma ClaimKeepsRows(s: State, id: TaskId)
    requires RowsOk(s) && id in s.tasks && s.tasks[id].pc == Claim && s.tasks[id].arq !in s.claims
    requires s.tasks[id].arq in s.queue && s.queue[s.tasks[id].arq] == s.tasks[id].job
    ensures RowsOk(ClaimStep(s, id))
  {
    var s' := ClaimStep(s, id);
    forall i | i in s'.tasks && s'.tasks[i].job in s'.rows
      ensures RowFits(s'.tasks[i], s'.rows[s'.tasks[i].job])
    {
      assert RowFits(s.tasks[i], s.rows[s.tasks[i].job]);
    }
  }

  lemma MarkKeepsHistory(s: State, arq: ArqId)
    requires HistoryOk(s) && arq in s.claims && arq in s.raised
    ensures HistoryOk(s.(claims := s.claims[arq := MarkedFailed]))
  {
    assert s.claims[arq := MarkedFailed].Keys == s.claims.Keys;
  }

  lemma MarkKeepsTasks(s: State, arq: ArqId)
    requires TasksOk(s)
    ensures TasksOk(s.(claims := s.claims[arq := MarkedFailed]))
  {
    var s' := s.(claims := s.claims[arq := MarkedFailed]);
    forall i | i in s.tasks ensures TaskOk(s', s.tasks[i]) {
      assert TaskOk(s, s.tasks[i]);
    }
  }

  lemma MarkKeepsRows(s: State, arq: ArqId)
    requires RowsOk(s) && arq in s.claims
    ensures RowsOk(s.(claims := s.claims[arq := MarkedFailed]))
  {
  }

  /** Marking an id that raised. */
  lemma MarkKeeps(s: State, arq: ArqId)
    requires Inv(s) && arq in s.claims && arq in s.raised
    ensures Inv(s.(claims := s.claims[arq := MarkedFailed]))
  {
    MarkKeepsHistory(s, arq);
    MarkKeepsTasks(s, arq);
    MarkKeepsRows(s, arq);
  }

  lemma EscapedIsRaised(s: State, id: TaskId)
    requires TasksOk(s) && id in s.tasks && s.tasks[id].pc == Escaped
    ensures s.tasks[id].arq in s.claims && s.tasks[id].arq in s.raised
  {
    assert TaskOk(s, s.tasks[id]);
  }

  lemma EscapedKeeps(s: State, id: TaskId)
    requires Inv(s) && id in s.tasks && s.tasks[id].pc == Escaped
    ensures Inv(EscapeStep(s, id))
  {
    var arq := s.tasks[id].arq;
    EscapedIsRaised(s, id);
    MarkKeeps(s, arq);
    DropKeeps(s.(claims := s.claims[arq := MarkedFailed]), id);
  }

  lemma ReadFits(t: Task, r: Row)
    requires Reads(t.pc) && Fits(t, r)
    ensures Fits(t.(pc := AfterRead(t, false, r.status == Cancelled)), r)
  {
  }

  /** The steps of a task that only read. */
  lemma ReadKeeps(s: State, id: TaskId)
    requires Inv(s) && id in s.tasks && Reads(s.tasks[id].pc)
    ensures Inv(ReadStep(s, id))
  {
    var t := s.tasks[id];
    if t.job in s.rows {
      ReadFits(t, s.rows[t.job]);
    }
    var t' := ReadStep(s, id).tasks[id];
    MoveKeeps(s, id, t', s.rows);
    HandedAside(s.(tasks := s.tasks[id := t']), ReadStep(s, id).handed);
  }

  lemma WriteFits(t: Task, r: Row)
    requires Writes(t.pc) && Fits(t, r)
    ensures Fits(t.(pc := AfterWrite(t.pc)), Changed(r, WhatIsWritten(t)))
  {
  }

  /** The steps of a task that write its row. */
  lemma WriteKeeps(s: State, id: TaskId)
    requires Inv(s) && id in s.tasks && Writes(s.tasks[id].pc)
    ensures Inv(WriteStep(s, id))
  {
    var t := s.tasks[id];
    if t.job in s.rows {
      WriteFits(t, s.rows[t.job]);
    }
    MoveKeeps(s, id, t.(pc := AfterWrite(t.pc)), WriteStep(s, id).rows);
  }

  lemma AdvanceReads(s: State, id: TaskId)
    requires id in s.tasks && Reads(s.tasks[id].pc)
    ensures Step(s, Advance(id)) == Advanced(s, id) == ReadStep(s, id)
  {
  }

  lemma AdvanceWrites(s: State, id: TaskId)
    requires id in s.tasks && Writes(s.tasks[id].pc)
    ensures Step(s, Advance(id)) == Advanced(s, id) == WriteStep(s, id)
  {
  }

  lemma WorkKeeps(s: State, id: TaskId)
    requires Inv(s) && id in s.tasks && (Reads(s.tasks[id].pc) || Writes(s.tasks[id].pc))
    ensures Inv(Advanced(s, id))
  {
    if Reads(s.tasks[id].pc) {
      AdvanceReads(s, id);
      ReadKeeps(s, id);
    } else {
      AdvanceWrites(s, id);
      WriteKeeps(s, id);
    }
  }

  lemma AdvanceEnds(s: State, id: TaskId)
    requires id in s.tasks && !Reads(s.tasks[id].pc) && !Writes(s.tasks[id].pc)
    ensures var t := s.tasks[id];
            Advanced(s, id) ==
            if t.pc == Claim && t.arq !in s.claims then ClaimStep(s, id)
            else if t.pc == Escaped then EscapeStep(s, id)
            else if t.pc == Claim || t.pc == Leave then Drop(s, id)
            else s
  {
  }

  lemma AdvanceKeeps(s: State, id: TaskId)
    requires Inv(s) && id in s.tasks
    ensures Inv(Advanced(s, id))
  {
    if Reads(s.tasks[id].pc) || Writes(s.tasks[id].pc) {
      WorkKeeps(s, id);
    } else {
      match s.tasks[id].pc
      case Claim =>
        if s.tasks[id].arq in s.claims {
          DropKeeps(s, id);
        } else {
          ClaimKeeps(s, id);
        }
      case Escaped => EscapedKeeps(s, id);
      case Leave => DropKeeps(s, id);
      case _ =>
    }
  }

  lemma AbsorbFits(t: Task, r: Row, replies: seq<B.Reply>)
    requires t.pc == Importing && InStep(t, r) && |replies| == BatchSize(t)
    ensures RowFits(Absorb(t, replies), r)
  {
    if forall i :: 0 <= i < |replies| ==> !replies[i].Aborted? {
      B.TallyCovers(replies);
    }
  }

  lemma AnswersKeep(s: State, id: TaskId, replies: seq<B.Reply>)
    requires Inv(s) && id in s.tasks && s.tasks[id].pc == Importing
    requires |replies| == BatchSize(s.tasks[id])
    ensures Inv(s.(tasks := s.tasks[id := Absorb(s.tasks[id], replies)]))
  {
    var t := s.tasks[id];
    if t.job in s.rows {
      AbsorbFits(t, s.rows[t.job], replies);
    }
    MoveKeeps(s, id, Absorb(t, replies), s.rows);
  }

  lemma RaiseKeeps(s: State, id: TaskId)
    requires Inv(s) && id in s.tasks
    ensures Inv(Thrown(s, id))
  {
    var t := s.tasks[id];
    if t.pc == Claim {
      DropKeeps(s, id);
    } else if InTry(t.pc) {
      MoveKeeps(s, id, t.(pc := Handler), s.rows);
    } else {
      assert TaskOk(s, t);
      RaisedKeeps(s, t.arq);
      MoveKeeps(s.(raised := s.raised + {t.arq}), id, t.(pc := Escaped), s.rows);
    }
  }

  lemma RaisedKeeps(s: State, arq: ArqId)
    requires Inv(s) && arq in s.claims
    ensures Inv(s.(raised := s.raised + {arq}))
  {
    RaisedKeepsTasks(s, arq);
    RaisedKeepsRows(s, arq);
  }

  lemma RaisedKeepsTasks(s: State, arq: ArqId)
    requires TasksOk(s)
    ensures TasksOk(s.(raised := s.raised + {arq}))
  {
    var s' := s.(raised := s.raised + {arq});
    forall i | i in s.tasks ensures TaskOk(s', s.tasks[i]) {
      assert TaskOk(s, s.tasks[i]);
    }
  }

  lemma RaisedKeepsRows(s: State, arq: ArqId)
    requires RowsOk(s)
    ensures RowsOk(s.(raised := s.raised + {arq}))
  {
  }

  predicate ByWorker(a: Action) {
    a.Deliver? || a.Advance? || a.Scanned? || a.Answered? || a.Raise? || a.Crash?
  }

  lemma AdvanceStepKeeps(s: State, id: TaskId)
    requires Inv(s)
    ensures Inv(Step(s, Advance(id)))
  {
    if id in s.tasks {
      AdvanceKeeps(s, id);
      assert Step(s, Advance(id)) == Advanced(s, id);
    } else {
      assert Step(s, Advance(id)) == s;
    }
  }

  lemma ScannedStepKeeps(s: State, id: TaskId, total: nat)
    requires Inv(s)
    ensures Inv(Step(s, Scanned(id, total)))
  {
    if id in s.tasks && s.tasks[id].pc == Prepare {
      var t := s.tasks[id].(pc := if total == 0 then WriteEmpty else WriteTotal, total := total);
      MoveKeeps(s, id, t, s.rows);
      assert Step(s, Scanned(id, total)) == s.(tasks := s.tasks[id := t], rows := s.rows);
    } else {
      assert Step(s, Scanned(id, total)) == s;
    }
  }

  lemma AnswersAreAbsorbed(s: State, id: TaskId, replies: seq<B.Reply>)
    requires id in s.tasks && s.tasks[id].pc == Importing && |replies| == BatchSize(s.tasks[id])
    ensures Step(s, Answered(id, replies)) == s.(tasks := s.tasks[id := Absorb(s.tasks[id], replies)])
  {
  }

  lemma AnsweredStepKeeps(s: State, id: TaskId, replies: seq<B.Reply>)
    requires Inv(s)
    ensures Inv(Step(s, Answered(id, replies)))
  {
    if id in s.tasks && s.tasks[id].pc == Importing && |replies| == BatchSize(s.tasks[id]) {
      AnswersKeep(s, id, replies);
      AnswersAreAbsorbed(s, id, replies);
    } else {
      assert Step(s, Answered(id, replies)) == s;
    }
  }

  lemma RaiseStepKeeps(s: State, id: TaskId)
    requires Inv(s)
    ensures Inv(Step(s, Raise(id)))
  {
    if id in s.tasks {
      RaiseKeeps(s, id);
      assert Step(s, Raise(id)) == Thrown(s, id);
    } else {
      assert Step(s, Raise(id)) == s;
    }
  }

  lemma CrashStepKeeps(s: State, id: TaskId)
    requires Inv(s)
    ensures Inv(Step(s, Crash(id)))
  {
    DropKeeps(s, id);
    assert Step(s, Crash(id)) == Drop(s, id);
  }

  lemma WorkerStepKeeps(s: State, a: Action)
    requires Inv(s) && ByWorker(a)
    ensures Inv(Step(s, a))
  {
    match a
    case Deliver(id, arq) => DeliverKeeps(s, id, arq);
    case Advance(id) => AdvanceStepKeeps(s, id);
    case Scanned(id, total) => ScannedStepKeeps(s, id, total);
    case Answered(id, replies) => AnsweredStepKeeps(s, id, replies);
    case Raise(id) => RaiseStepKeeps(s, id);
    case Crash(id) => CrashStepKeeps(s, id);
  }

  lemma StepKeeps(s: State, a: Action)
    requires Inv(s)
    ensures Inv(Step(s, a))
  {
    match a
    case InsertRow(owner) => InsertKeeps(s, owner);
    case Enqueue(job, arq) =>
      if job in s.waiting && arq !in s.queue {
        EnqueueKeeps(s, job, arq);
      }
    case CancelJob(job, owner) => InterferenceKeeps(s, WithCancelled(s.rows, job, owner));
    case DeleteJob(job, owner) => InterferenceKeeps(s, Deleted(s.rows, job, owner));
    case ClearCompleted(owner) => InterferenceKeeps(s, Cleared(s.rows, owner));
    case TimeoutStale(stale) => InterferenceKeeps(s, TimedOut(s.rows, stale));
    case _ => WorkerStepKeeps(s, a);
  }

  lemma {:induction false} RunKeeps(s: State, actions: seq<Action>)
    requires Inv(s)
    ensures Inv(Run(s, actions))
    decreases |actions|
  {
    if actions != [] {
      StepKeeps(s, actions[0]);
      RunKeeps(Step(s, actions[0]), actions[1..]);
    }
  }

  // ----- what every run guarantees -----

  /** In every interleaving a row that says "completed" accounts for all of its files. */
  lemma CompletedRowsBalance(actions: seq<Action>, job: JobId)
    ensures var rows := Run(INITIAL, actions).rows;
            job in rows && rows[job].status == Completed ==>
              rows[job].completed + rows[job].failed == rows[job].total
  {
    RunKeeps(INITIAL, actions);
  }

  /** The body starts at most once for an ARQ id and at most once for a row, over the whole run. */
  lemma BodiesStartOnce(actions: seq<Action>, i: nat, j: nat)
    requires var starts := Run(INITIAL, actions).starts; i < j < |starts|
    ensures var starts := Run(INITIAL, actions).starts;
            starts[i].arq != starts[j].arq && starts[i].job != starts[j].job
  {
    RunKeeps(INITIAL, actions);
  }

  /** "failed" is recorded only for an id whose body started and raised. */
  lemma FailedMarksAreEarned(actions: seq<Action>, arq: ArqId)
    ensures var s := Run(INITIAL, actions);
            arq in s.claims && s.claims[arq] == MarkedFailed ==> arq in s.raised && Started(s.starts, arq)
  {
    RunKeeps(INITIAL, actions);
  }

  /** A delivery of an id that has been claimed before leaves no trace. */
  lemma RedeliveryIsSkipped(s: State, id: TaskId, arq: ArqId)
    requires id !in s.tasks && arq in s.claims
    ensures Run(s, [Deliver(id, arq), Advance(id)]) == s
  {
    var s1 := Step(s, Deliver(id, arq));
    var s2 := Step(s1, Advance(id));
    if arq in s.queue {
      assert s1.tasks - {id} == s.tasks;
    }
    assert [Deliver(id, arq), Advance(id)][1..] == [Advance(id)];
    assert Run(s1, [Advance(id)]) == Run(s2, []);
  }

  // ----- what an undisturbed run achieves -----

  lemma {:induction false} RunAppend(s: State, a: seq<Action>, b: seq<Action>)
    ensures Run(s, a + b) == Run(Run(s, a), b)
    decreases |a|
  {
    if a == [] {
      assert a + b == b;
    } else {
      assert (a + b)[1..] == a[1..] + b;
      RunAppend(Step(s, a[0]), a[1..], b);
    }
  }

  lemma RunOne(s: State, a: Action)
    ensures Run(s, [a]) == Step(s, a)
  {
    assert [a][1..] == [];
  }

  lemma RunPush(s: State, a: Action, rest: seq<Action>)
    ensures Run(s, [a] + rest) == Run(Step(s, a), rest)
  {
    assert ([a] + rest)[1..] == rest;
  }

  /** The steps of the batch loop when the importer answers `replies` and nobody interferes. */
  function LoopScript(id: TaskId, replies: seq<B.Reply>): seq<Action>
    decreases |replies|
  {
    if replies == [] then [Advance(id)]
    else
      var n := B.Min(25, |replies|);
      [Advance(id)] + ([Answered(id, replies[..n])] + ([Advance(id)] + LoopScript(id, replies[n..])))
  }

  ghost predicate AtLoopHead(s: State, id: TaskId, left: nat) {
    && id in s.tasks && s.tasks[id].pc == LoopHead && s.tasks[id].job in s.rows
    && s.rows[s.tasks[id].job].status == Running
    && InStep(s.tasks[id], s.rows[s.tasks[id].job])
    && s.tasks[id].total - s.tasks[id].next == left
  }

  /** The state with `n` more keys of the task handled and written to its row. */
  function AfterBatches(s: State, id: TaskId, pc: Pc, n: nat, tally: B.Tally): State
    requires id in s.tasks && s.tasks[id].job in s.rows
  {
    var t := s.tasks[id];
    var c, f := t.completed + tally.added + tally.skipped, t.failed + tally.failed;
    s.(tasks := s.tasks[id := t.(pc := pc, next := t.next + n, completed := c, failed := f)],
       rows := s.rows[t.job := s.rows[t.job].(completed := c, failed := f)],
       handed := HandedOver(s.handed, t.job, t.next, n))
  }

  lemma AfterMoreBatches(s: State, id: TaskId, pc: Pc, n: nat, m: nat, a: B.Tally, b: B.Tally)
    requires id in s.tasks && s.tasks[id].job in s.rows
    ensures AfterBatches(AfterBatches(s, id, LoopHead, n, a), id, pc, m, b) ==
            AfterBatches(s, id, pc, n + m,
                         B.Tally(a.added + b.added, a.skipped + b.skipped, a.failed + b.failed))
  {
    var s1 := AfterBatches(s, id, LoopHead, n, a);
    var s2 := AfterBatches(s1, id, pc, m, b);
    assert s2.tasks == s.tasks[id := s2.tasks[id]];
    assert s2.rows == s.rows[s.tasks[id].job := s2.rows[s.tasks[id].job]];
    BatchesConcat(s.handed, s.tasks[id].job, s.tasks[id].next, n, m);
  }

  lemma BatchesConcat(handed: map<JobId, seq<nat>>, job: JobId, start: nat, n: nat, m: nat)
    ensures HandedOver(HandedOver(handed, job, start, n), job, start + n, m) ==
            HandedOver(handed, job, start, n + m)
  {
    var h := if job in handed then handed[job] else [];
    assert h + [] == h;
    assert Batch(start, n) + Batch(start + n, m) == Batch(start, n + m);
    Associative(h, Batch(start, n), Batch(start + n, m));
  }

  lemma BatchAnswered(s: State, id: TaskId, replies: seq<B.Reply>, n: nat)
    requires AtLoopHead(s, id, |replies|) && B.NoneInterrupted(replies) && replies != []
    requires n == B.Min(25, |replies|)
    ensures var t, tally := s.tasks[id], B.TallyOf(replies[..n]);
            var s' := AfterBatches(s, id, LoopHead, n, tally);
            Step(Step(s, Advance(id)), Answered(id, replies[..n])) ==
            s.(tasks := s'.tasks[id := s'.tasks[id].(pc := WriteProgress)], handed := s'.handed)
  {
    AdvanceReads(s, id);
    var s1 := ReadStep(s, id);
    var s2 := Step(s1, Answered(id, replies[..n]));
    assert s2.tasks == s.tasks[id := s2.tasks[id]];
    var s' := AfterBatches(s, id, LoopHead, n, B.TallyOf(replies[..n]));
    assert s'.tasks[id := s2.tasks[id]] == s.tasks[id := s2.tasks[id]];
  }

  /** One batch of the loop. */
  lemma BatchRuns(s: State, id: TaskId, replies: seq<B.Reply>)
    requires AtLoopHead(s, id, |replies|) && B.NoneInterrupted(replies) && replies != []
    ensures var n := B.Min(25, |replies|);
            var s' := AfterBatches(s, id, LoopHead, n, B.TallyOf(replies[..n]));
            && Step(Step(Step(s, Advance(id)), Answered(id, replies[..n])), Advance(id)) == s'
            && AtLoopHead(s', id, |replies| - n)
  {
    var n := B.Min(25, |replies|);
    B.TallyCovers(replies[..n]);
    BatchAnswered(s, id, replies, n);
    BatchWritten(s, id, n, B.TallyOf(replies[..n]), |replies|);
  }

  lemma BatchWritten(s: State, id: TaskId, n: nat, tally: B.Tally, left: nat)
    requires AtLoopHead(s, id, left) && n <= left && tally.Handled() == n
    ensures var s' := AfterBatches(s, id, LoopHead, n, tally);
            && Step(s.(tasks := s'.tasks[id := s'.tasks[id].(pc := WriteProgress)], handed := s'.handed),
                    Advance(id)) == s'
            && AtLoopHead(s', id, left - n)
  {
    ProgressWritten(s, id, n, tally);
  }

  lemma ProgressWritten(s: State, id: TaskId, n: nat, tally: B.Tally)
    requires id in s.tasks && s.tasks[id].job in s.rows && s.rows[s.tasks[id].job].status == Running
    requires var t, r := s.tasks[id], s.rows[s.tasks[id].job];
             r.completed == t.completed && r.failed == t.failed
    ensures var s' := AfterBatches(s, id, LoopHead, n, tally);
            WriteStep(s.(tasks := s'.tasks[id := s'.tasks[id].(pc := WriteProgress)], handed := s'.handed), id) == s'
  {
    var s' := AfterBatches(s, id, LoopHead, n, tally);
    var t' := s'.tasks[id];
    assert s'.tasks[id := t'.(pc := WriteProgress)][id := t'] == s'.tasks;
    var job := s.tasks[id].job;
    var c := WhatIsWritten(t'.(pc := WriteProgress));
    assert Changed(s.rows[job], c) == s'.rows[job];
  }

  lemma BatchScriptRuns(s: State, id: TaskId, batch: seq<B.Reply>, tail: seq<Action>)
    ensures Run(s, [Advance(id)] + ([Answered(id, batch)] + ([Advance(id)] + tail))) ==
            Run(Step(Step(Step(s, Advance(id)), Answered(id, batch)), Advance(id)), tail)
  {
    RunPush(s, Advance(id), [Answered(id, batch)] + ([Advance(id)] + tail));
    RunPush(Step(s, Advance(id)), Answered(id, batch), [Advance(id)] + tail);
    RunPush(Step(Step(s, Advance(id)), Answered(id, batch)), Advance(id), tail);
  }

  lemma LoopUnfolds(s: State, id: TaskId, replies: seq<B.Reply>)
    requires AtLoopHead(s, id, |replies|) && B.NoneInterrupted(replies) && replies != []
    ensures var n := B.Min(25, |replies|);
            var s' := AfterBatches(s, id, LoopHead, n, B.TallyOf(replies[..n]));
            && Run(s, LoopScript(id, replies)) == Run(s', LoopScript(id, replies[n..]))
            && AtLoopHead(s', id, |replies[n..]|)
  {
    var n := B.Min(25, |replies|);
    BatchRuns(s, id, replies);
    BatchScriptRuns(s, id, replies[..n], LoopScript(id, replies[n..]));
  }

  lemma LoopEnds(s: State, id: TaskId)
    requires AtLoopHead(s, id, 0)
    ensures Run(s, LoopScript(id, [])) == AfterBatches(s, id, FinalCheck, 0, B.TallyOf([]))
  {
    RunOne(s, Advance(id));
    assert AfterBatches(s, id, FinalCheck, 0, B.TallyOf([])).rows == s.rows;
  }

  lemma {:induction false} LoopRuns(s: State, id: TaskId, replies: seq<B.Reply>)
    requires AtLoopHead(s, id, |replies|) && B.NoneInterrupted(replies)
    ensures Run(s, LoopScript(id, replies)) ==
            AfterBatches(s, id, FinalCheck, |replies|, B.TallyOf(replies))
    decreases |replies|
  {
    if replies == [] {
      LoopEnds(s, id);
    } else {
      LoopUnfolds(s, id, replies);
      var n := B.Min(25, |replies|);
      var s' := AfterBatches(s, id, LoopHead, n, B.TallyOf(replies[..n]));
      LoopRuns(s', id, replies[n..]);
      BatchesJoin(s, id, n, replies);
    }
  }

  lemma BatchesJoin(s: State, id: TaskId, n: nat, replies: seq<B.Reply>)
    requires id in s.tasks && s.tasks[id].job in s.rows && n <= |replies|
    ensures AfterBatches(AfterBatches(s, id, LoopHead, n, B.TallyOf(replies[..n])),
                         id, FinalCheck, |replies[n..]|, B.TallyOf(replies[n..])) ==
            AfterBatches(s, id, FinalCheck, |replies|, B.TallyOf(replies))
  {
    var rest := replies[n..];
    B.TallyConcat(replies[..n], rest);
    assert replies[..n] + rest == replies;
    AfterMoreBatches(s, id, FinalCheck, n, |rest|, B.TallyOf(replies[..n]), B.TallyOf(rest));
  }

  lemma ThreeSteps(s: State, a: Action, b: Action, c: Action)
    ensures Run(s, [a, b, c]) == Step(Step(Step(s, a), b), c)
  {
    assert [a, b, c] == [a] + ([b] + [c]);
    RunPush(s, a, [b] + [c]);
    RunPush(Step(s, a), b, [c]);
    RunOne(Step(Step(s, a), b), c);
  }

  lemma FourSteps(s: State, a: Action, b: Action, c: Action, d: Action)
    ensures Run(s, [a, b, c, d]) == Step(Step(Step(Step(s, a), b), c), d)
  {
    assert [a, b, c, d] == [a] + ([b] + ([c] + [d]));
    RunPush(s, a, [b] + ([c] + [d]));
    RunPush(Step(s, a), b, [c] + [d]);
    RunPush(Step(Step(s, a), b), c, [d]);
    RunOne(Step(Step(Step(s, a), b), c), d);
  }

  /** Adding, delivering and preparing a job, up to the batch loop. */
  function StartScript(owner: Owner, job: JobId, arq: ArqId, id: TaskId, total: nat): seq<Action> {
    [InsertRow(owner), Enqueue(job, arq), Deliver(id, arq), Advance(id), Advance(id), Advance(id),
     Advance(id), Scanned(id, total), Advance(id), Advance(id)]
  }

  function FinishScript(id: TaskId): seq<Action> {
    [Advance(id), Advance(id), Advance(id), Advance(id)]
  }

  /** `s` with a new job claimed by task `id`, whose row and task are as given. */
  function WithJob(s: State, r: Row, t: Task): State {
    s.(rows := s.rows[s.nextJob := r], nextJob := s.nextJob + 1, queue := s.queue[t.arq := s.nextJob],
       claims := s.claims[t.arq := Unmarked], starts := s.starts + [Start(t.arq, s.nextJob)])
  }

  lemma DeliveryRuns(s: State, owner: Owner, arq: ArqId, id: TaskId)
    requires s.nextJob !in s.waiting && arq !in s.queue && arq !in s.claims && id !in s.tasks
    ensures var t := Task(arq, s.nextJob, Fetch, 0, 0, 0, 0);
            Run(s, [InsertRow(owner), Enqueue(s.nextJob, arq), Deliver(id, arq), Advance(id)]) ==
            WithJob(s, Row(Pending, owner, None, 0, 0, 0), t).(tasks := s.tasks[id := t])
  {
    var s1 := Step(s, InsertRow(owner));
    var s2 := Step(s1, Enqueue(s.nextJob, arq));
    assert s2.waiting == s.waiting;
    var s3 := Step(s2, Deliver(id, arq));
    assert s3.tasks[id].arq == arq && s3.tasks[id].pc == Claim;
    var s4 := Step(s3, Advance(id));
    var t := Task(arq, s.nextJob, Fetch, 0, 0, 0, 0);
    assert s4.tasks == s.tasks[id := t];
    assert s4 == WithJob(s, Row(Pending, owner, None, 0, 0, 0), t).(tasks := s.tasks[id := t]);
    FourSteps(s, InsertRow(owner), Enqueue(s.nextJob, arq), Deliver(id, arq), Advance(id));
  }

  lemma OpeningRuns(s: State, id: TaskId)
    requires id in s.tasks && s.tasks[id].pc == Fetch && s.tasks[id].job in s.rows
    ensures var t := s.tasks[id];
            Run(s, [Advance(id), Advance(id), Advance(id)]) ==
            s.(tasks := s.tasks[id := t.(pc := Prepare)],
               rows := s.rows[t.job := s.rows[t.job].(status := Running)])
  {
    var t := s.tasks[id];
    var rows := s.rows[t.job := s.rows[t.job].(status := Running)];
    ThreeSteps(s, Advance(id), Advance(id), Advance(id));
    assert Step(s, Advance(id)) == s.(tasks := s.tasks[id := t.(pc := MarkRunning)]);
    var s2 := s.(tasks := s.tasks[id := t.(pc := Enter)], rows := rows);
    assert Step(Step(s, Advance(id)), Advance(id)) == s2 by {
      assert s.tasks[id := t.(pc := MarkRunning)][id := t.(pc := Enter)] == s2.tasks;
    }
    assert s2.tasks[id := t.(pc := Prepare)] == s.tasks[id := t.(pc := Prepare)];
  }

  lemma ScanRuns(s: State, id: TaskId, total: nat)
    requires id in s.tasks && s.tasks[id].pc == Prepare && s.tasks[id].job in s.rows
    requires s.rows[s.tasks[id].job].status == Running
    ensures var t := s.tasks[id];
            Run(s, [Scanned(id, total), Advance(id), Advance(id)]) ==
            s.(tasks := s.tasks[id := t.(pc := if total == 0 then Leave else LoopHead, total := total)],
               rows := s.rows[t.job := s.rows[t.job].(
                 status := if total == 0 then Completed else Running, total := total)])
  {
    ThreeSteps(s, Scanned(id, total), Advance(id), Advance(id));
    ScanSteps(s, id, total);
  }

  lemma ScanSteps(s: State, id: TaskId, total: nat)
    requires id in s.tasks && s.tasks[id].pc == Prepare && s.tasks[id].job in s.rows
    requires s.rows[s.tasks[id].job].status == Running
    ensures var t := s.tasks[id];
            Step(Step(Step(s, Scanned(id, total)), Advance(id)), Advance(id)) ==
            s.(tasks := s.tasks[id := t.(pc := if total == 0 then Leave else LoopHead, total := total)],
               rows := s.rows[t.job := s.rows[t.job].(
                 status := if total == 0 then Completed else Running, total := total)])
  {
    var t := s.tasks[id].(total := total, pc := if total == 0 then WriteEmpty else WriteTotal);
    var s1 := s.(tasks := s.tasks[id := t]);
    assert Step(s, Scanned(id, total)) == s1;
    AdvanceWrites(s1, id);
    TotalWritten(s, id, t);
    TotalThenRead(s, id, t, WriteStep(s1, id).rows);
    AdvanceReads(WriteStep(s1, id), id);
  }

  lemma TotalThenRead(s: State, id: TaskId, t: Task, rows: Rows)
    requires t.job in rows && rows[t.job].status == if t.total == 0 then Completed else Running
    ensures var s' := s.(tasks := s.tasks[id := t.(pc := if t.total == 0 then Report else Folders)], rows := rows);
            ReadStep(s', id) ==
            s.(tasks := s.tasks[id := t.(pc := if t.total == 0 then Leave else LoopHead)], rows := rows)
  {
    var t1, t2 := t.(pc := if t.total == 0 then Report else Folders),
                  t.(pc := if t.total == 0 then Leave else LoopHead);
    assert s.tasks[id := t1][id := t2] == s.tasks[id := t2];
  }

  lemma TotalWritten(s: State, id: TaskId, t: Task)
    requires id in s.tasks && t.job in s.rows && t.job == s.tasks[id].job && s.rows[t.job].status == Running
    requires t.pc == if t.total == 0 then WriteEmpty else WriteTotal
    ensures WriteStep(s.(tasks := s.tasks[id := t]), id) ==
            s.(tasks := s.tasks[id := t.(pc := if t.total == 0 then Report else Folders)],
               rows := s.rows[t.job := s.rows[t.job].(
                 status := if t.total == 0 then Completed else Running, total := t.total)])
  {
    assert s.tasks[id := t][id := t.(pc := AfterWrite(t.pc))] == s.tasks[id := t.(pc := AfterWrite(t.pc))];
  }

  lemma PreparationRuns(s: State, id: TaskId, total: nat)
    requires id in s.tasks && s.tasks[id].pc == Fetch && s.tasks[id].job in s.rows
    ensures var t := s.tasks[id];
            Run(s, [Advance(id), Advance(id), Advance(id)] + [Scanned(id, total), Advance(id), Advance(id)]) ==
            s.(tasks := s.tasks[id := t.(pc := if total == 0 then Leave else LoopHead, total := total)],
               rows := s.rows[t.job := s.rows[t.job].(
                 status := if total == 0 then Completed else Running, total := total)])
  {
    var a := [Advance(id), Advance(id), Advance(id)];
    RunAppend(s, a, [Scanned(id, total), Advance(id), Advance(id)]);
    OpeningRuns(s, id);
    var t, s1 := s.tasks[id], Run(s, a);
    ScanRuns(s1, id, total);
    var t' := t.(pc := if total == 0 then Leave else LoopHead, total := total);
    assert s1.tasks[id := t'] == s.tasks[id := t'];
    var r' := s.rows[t.job].(status := if total == 0 then Completed else Running, total := total);
    assert s1.rows[t.job := r'] == s.rows[t.job := r'];
  }

  lemma StartRuns(s: State, owner: Owner, arq: ArqId, id: TaskId, total: nat)
    requires Inv(s) && arq !in s.queue && id !in s.tasks
    ensures var t := Task(arq, s.nextJob, if total == 0 then Leave else LoopHead, total, 0, 0, 0);
            var r := Row(if total == 0 then Completed else Running, owner, None, total, 0, 0);
            Run(s, StartScript(owner, s.nextJob, arq, id, total)) ==
            WithJob(s, r, t).(tasks := s.tasks[id := t])
  {
    var a := [InsertRow(owner), Enqueue(s.nextJob, arq), Deliver(id, arq), Advance(id)];
    var b := [Advance(id), Advance(id), Advance(id)] + [Scanned(id, total), Advance(id), Advance(id)];
    assert StartScript(owner, s.nextJob, arq, id, total) == a + b;
    RunAppend(s, a, b);
    DeliveryRuns(s, owner, arq, id);
    PreparationRuns(Run(s, a), id, total);
    var t0 := Task(arq, s.nextJob, Fetch, 0, 0, 0, 0);
    JobReplaced(s, Row(Pending, owner, None, 0, 0, 0), t0, id,
                Row(if total == 0 then Completed else Running, owner, None, total, 0, 0),
                t0.(pc := if total == 0 then Leave else LoopHead, total := total));
  }

  lemma JobReplaced(s: State, r: Row, t: Task, id: TaskId, r': Row, t': Task)
    requires t'.arq == t.arq
    ensures var s1 := WithJob(s, r, t).(tasks := s.tasks[id := t]);
            s1.(tasks := s1.tasks[id := t'], rows := s1.rows[s.nextJob := r']) ==
            WithJob(s, r', t').(tasks := s.tasks[id := t'])
  {
    assert s.tasks[id := t][id := t'] == s.tasks[id := t'];
    assert s.rows[s.nextJob := r][s.nextJob := r'] == s.rows[s.nextJob := r'];
  }

  lemma FinishRuns(s: State, id: TaskId)
    requires id in s.tasks && s.tasks[id].pc == FinalCheck && s.tasks[id].job in s.rows
    requires s.rows[s.tasks[id].job].status == Running
    ensures var job := s.tasks[id].job;
            Run(s, FinishScript(id)) ==
            Drop(s, id).(rows := s.rows[job := s.rows[job].(status := Completed)])
  {
    FourSteps(s, Advance(id), Advance(id), Advance(id), Advance(id));
    FinishSteps(s, id);
  }

  lemma FinishSteps(s: State, id: TaskId)
    requires id in s.tasks && s.tasks[id].pc == FinalCheck && s.tasks[id].job in s.rows
    requires s.rows[s.tasks[id].job].status == Running
    ensures var job := s.tasks[id].job;
            Step(Step(Step(Step(s, Advance(id)), Advance(id)), Advance(id)), Advance(id)) ==
            Drop(s, id).(rows := s.rows[job := s.rows[job].(status := Completed)])
  {
    var t := s.tasks[id];
    var rows := s.rows[t.job := s.rows[t.job].(status := Completed)];
    CompletedIsWritten(s, id);
    TaskLeaves(s.(tasks := s.tasks[id := t.(pc := Report)], rows := rows), id);
    assert s.tasks[id := t.(pc := Report)] - {id} == s.tasks - {id};
  }

  lemma CompletedIsWritten(s: State, id: TaskId)
    requires id in s.tasks && s.tasks[id].pc == FinalCheck && s.tasks[id].job in s.rows
    requires s.rows[s.tasks[id].job].status == Running
    ensures var t := s.tasks[id];
            Step(Step(s, Advance(id)), Advance(id)) ==
            s.(tasks := s.tasks[id := t.(pc := Report)],
               rows := s.rows[t.job := s.rows[t.job].(status := Completed)])
  {
    var t := s.tasks[id];
    var s1 := s.(tasks := s.tasks[id := t.(pc := WriteCompleted)]);
    AdvanceReads(s, id);
    AdvanceWrites(s1, id);
    assert s1.tasks[id := t.(pc := Report)] == s.tasks[id := t.(pc := Report)];
  }

  lemma TaskLeaves(s: State, id: TaskId)
    requires id in s.tasks && s.tasks[id].pc == Report
    ensures Step(Step(s, Advance(id)), Advance(id)) == Drop(s, id)
  {
    var s1 := s.(tasks := s.tasks[id := s.tasks[id].(pc := Leave)]);
    AdvanceReads(s, id);
    assert s1.tasks - {id} == s.tasks - {id};
  }

  /** `s` without the task, whose row is "completed" with the tally of the last `n` keys added. */
  function Settled(s: State, id: TaskId, n: nat, tally: B.Tally): State
    requires id in s.tasks && s.tasks[id].job in s.rows
  {
    var r := s.rows[s.tasks[id].job];
    Drop(s, id).(rows := s.rows[s.tasks[id].job := r.(
      status := Completed, completed := r.completed + tally.added + tally.skipped,
      failed := r.failed + tally.failed)],
      handed := HandedOver(s.handed, s.tasks[id].job, s.tasks[id].next, n))
  }

  lemma FinishSettles(s: State, id: TaskId, n: nat, tally: B.Tally)
    requires AtLoopHead(s, id, n)
    ensures Run(AfterBatches(s, id, FinalCheck, n, tally), FinishScript(id)) == Settled(s, id, n, tally)
  {
    var s' := AfterBatches(s, id, FinalCheck, n, tally);
    FinishRuns(s', id);
    LastWriteSettles(s, id, n, tally);
  }

  lemma LastWriteSettles(s: State, id: TaskId, n: nat, tally: B.Tally)
    requires AtLoopHead(s, id, n)
    ensures var s', job := AfterBatches(s, id, FinalCheck, n, tally), s.tasks[id].job;
            Drop(s', id).(rows := s'.rows[job := s'.rows[job].(status := Completed)]) == Settled(s, id, n, tally)
  {
    var s' := AfterBatches(s, id, FinalCheck, n, tally);
    assert s'.tasks - {id} == s.tasks - {id};
    var rows := Settled(s, id, n, tally).rows;
    assert rows == s'.rows[s.tasks[id].job := rows[s.tasks[id].job]];
  }

  lemma CountingRuns(s: State, id: TaskId, replies: seq<B.Reply>)
    requires AtLoopHead(s, id, |replies|) && B.NoneInterrupted(replies)
    ensures Run(s, LoopScript(id, replies) + FinishScript(id)) ==
            Settled(s, id, |replies|, B.TallyOf(replies))
  {
    RunAppend(s, LoopScript(id, replies), FinishScript(id));
    LoopRuns(s, id, replies);
    FinishSettles(s, id, |replies|, B.TallyOf(replies));
  }

  /** The state a job added, delivered and left alone must end in. */
  function JobDone(s: State, owner: Owner, arq: ArqId, total: nat, tally: B.Tally): State {
    var r := Row(Completed, owner, None, total, tally.added + tally.skipped, tally.failed);
    WithJob(s, r, Task(arq, s.nextJob, Claim, 0, 0, 0, 0))
    .(handed := HandedOver(s.handed, s.nextJob, 0, total))
  }

  /** The state once the batch loop of a new job is reached. */
  function JobLooping(s: State, owner: Owner, arq: ArqId, id: TaskId, total: nat): State {
    var t := Task(arq, s.nextJob, LoopHead, total, 0, 0, 0);
    WithJob(s, Row(Running, owner, None, total, 0, 0), t).(tasks := s.tasks[id := t])
  }

  lemma SettledIsDone(s: State, owner: Owner, arq: ArqId, id: TaskId, total: nat, tally: B.Tally)
    requires id !in s.tasks
    ensures AtLoopHead(JobLooping(s, owner, arq, id, total), id, total)
    ensures Settled(JobLooping(s, owner, arq, id, total), id, total, tally) == JobDone(s, owner, arq, total, tally)
  {
    var s1 := JobLooping(s, owner, arq, id, total);
    var s2, s3 := Settled(s1, id, total, tally), JobDone(s, owner, arq, total, tally);
    assert s1.tasks - {id} == s.tasks;
    assert s2.rows == s3.rows;
  }

  lemma DroppedIsDone(s: State, owner: Owner, arq: ArqId, id: TaskId)
    requires id !in s.tasks
    ensures var t := Task(arq, s.nextJob, Leave, 0, 0, 0, 0);
            Step(WithJob(s, Row(Completed, owner, None, 0, 0, 0), t).(tasks := s.tasks[id := t]), Advance(id))
            == JobDone(s, owner, arq, 0, B.Tally(0, 0, 0))
  {
    var t := Task(arq, s.nextJob, Leave, 0, 0, 0, 0);
    assert s.tasks[id := t] - {id} == s.tasks;
  }

  /** A job added, delivered and left alone ends "completed" with exactly the importer's counts; an
      empty listing ends "completed" with zeros. Every key was handed over once, in order. Nothing else
      is different: the worker task is gone, and the ARQ id is claimed and unmarked. */
  lemma UndisturbedJobCompletes(s: State, owner: Owner, arq: ArqId, id: TaskId, replies: seq<B.Reply>)
    requires Inv(s) && arq !in s.queue && id !in s.tasks && B.NoneInterrupted(replies)
    ensures var start := StartScript(owner, s.nextJob, arq, id, |replies|);
            var rest := if replies == [] then [Advance(id)] else LoopScript(id, replies) + FinishScript(id);
            Run(s, start + rest) == JobDone(s, owner, arq, |replies|, B.TallyOf(replies))
  {
    var start := StartScript(owner, s.nextJob, arq, id, |replies|);
    StartRuns(s, owner, arq, id, |replies|);
    if replies == [] {
      RunAppend(s, start, [Advance(id)]);
      RunOne(Run(s, start), Advance(id));
      DroppedIsDone(s, owner, arq, id);
    } else {
      RunAppend(s, start, LoopScript(id, replies) + FinishScript(id));
      SettledIsDone(s, owner, arq, id, |replies|, B.TallyOf(replies));
      CountingRuns(JobLooping(s, owner, arq, id, |replies|), id, replies);
    }
  }
}
