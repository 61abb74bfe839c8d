/** Which keys of a job reach the importer, over any run: the batches of the one body of a job, its
    crash or abort at any point, and the row that says "completed". */
module HandedKeys {
  import opened JobTables
  import opened ImportJobs
  import B = ImportBatches

  /** The keys handed over are the first ones, in order and once each. */
  predicate InOrder(handed: seq<nat>) {
    forall i :: 0 <= i < |handed| ==> handed[i] == i
  }

  /** How many keys a task at each of its stops has handed over; the batch in flight is among them. */
  predicate TaskHanded(t: Task, n: nat) {
    match t.pc
    case Claim => t.next == 0
    case Fetch | MarkRunning | Enter | Prepare | WriteEmpty | WriteTotal => t.next == n == 0
    case Folders | LoopHead | WriteProgress | FinalCheck | WriteCompleted => n == t.next
    case Importing => n == t.next + BatchSize(t)
    case Report | Handler | Leave | Escaped => true
  }

  ghost predicate CompletedHanded(s: State, rows: Rows) {
    forall j :: j in rows && rows[j].status == Completed ==> |HandedTo(s, j)| == rows[j].total
  }

  ghost predicate HandedOk(s: State) {
    && (forall j :: j in s.handed ==> j < s.nextJob && InOrder(s.handed[j]))
    && (forall j :: j in s.waiting ==> HandedTo(s, j) == [])
    && (forall a :: a in s.queue && a !in s.claims ==> HandedTo(s, s.queue[a]) == [])
    && (forall id :: id in s.tasks ==> TaskHanded(s.tasks[id], |HandedTo(s, s.tasks[id].job)|))
    && CompletedHanded(s, s.rows)
  }

  // ----- every step keeps it -----

  /** A step of one task that hands over nothing. */
  ghost predicate OnlyTask(s: State, s': State, id: TaskId) {
    && s'.handed == s.handed && s'.nextJob == s.nextJob && s'.waiting == s.waiting && s'.queue == s.queue
    && s.claims.Keys <= s'.claims.Keys
    && (forall i :: i in s'.tasks && i != id ==> i in s.tasks && s'.tasks[i] == s.tasks[i])
  }

  lemma TaskKeeps(s: State, s': State, id: TaskId)
    requires HandedOk(s) && OnlyTask(s, s', id) && CompletedHanded(s, s'.rows)
    requires id in s'.tasks ==> TaskHanded(s'.tasks[id], |HandedTo(s, s'.tasks[id].job)|)
    ensures HandedOk(s')
  {
  }

  /** Changes of rows that complete nothing. */
  lemma RowsKeep(s: State, rows: Rows)
    requires HandedOk(s) && rows.Keys <= s.rows.Keys
    requires forall j :: j in rows ==> Harmless(s.rows[j], rows[j])
    ensures HandedOk(s.(rows := rows))
  {
  }

  /** Nothing of a new row was handed over. */
  lemma InsertKeepsHanded(s: State, owner: Owner)
    requires HandedOk(s)
    ensures HandedOk(Step(s, InsertRow(owner)))
  {
    var s' := Step(s, InsertRow(owner));
    assert HandedTo(s', s.nextJob) == [];
    assert CompletedHanded(s', s'.rows);
  }

  /** The claimed id was unclaimed, so nothing of its row was handed over. */
  lemma ClaimKeepsHanded(s: State, id: TaskId)
    requires Inv(s) && HandedOk(s) && id in s.tasks && s.tasks[id].pc == Claim
    requires s.tasks[id].arq !in s.claims
    ensures HandedOk(ClaimStep(s, id))
  {
    assert TaskOk(s, s.tasks[id]);
    TaskKeeps(s, ClaimStep(s, id), id);
  }

  /** The task at `id` is about to hand over the next batch of its job, alone. */
  ghost predicate Alone(s: State, id: TaskId) {
    && id in s.tasks
    && var job := s.tasks[id].job;
       && job < s.nextJob && job !in s.waiting
       && (forall a :: a in s.queue && a !in s.claims ==> s.queue[a] != job)
       && (forall i :: i in s.tasks && i != id ==> s.tasks[i].pc == Claim || s.tasks[i].job != job)
  }

  lemma WorkersAreAlone(s: State, id: TaskId)
    requires Inv(s) && id in s.tasks && s.tasks[id].pc != Claim
    ensures Alone(s, id)
  {
    assert TaskOk(s, s.tasks[id]);
    forall i | i in s.tasks && i != id ensures s.tasks[i].pc == Claim || s.tasks[i].job != s.tasks[id].job {
      assert TaskOk(s, s.tasks[i]);
    }
  }

  lemma BatchInOrder(handed: seq<nat>, start: nat, n: nat)
    requires InOrder(handed) && |handed| == start
    ensures InOrder(handed + Batch(start, n))
  {
  }

  /** A new batch begins where the last one ended, and no other body is in the way. */
  lemma BatchKeepsHanded(s: State, id: TaskId)
    requires Inv(s) && HandedOk(s) && id in s.tasks && s.tasks[id].pc == LoopHead
    requires ReadStep(s, id).tasks[id].pc == Importing
    ensures HandedOk(ReadStep(s, id))
  {
    var t := s.tasks[id];
    WorkersAreAlone(s, id);
    if t.job in s.rows {
      assert RowFits(t, s.rows[t.job]);
    }
    BatchExtends(s, id, HandedOver(s.handed, t.job, t.next, BatchSize(t)));
  }

  lemma OthersHanded(s: State, s': State, job: JobId, start: nat, n: nat)
    requires s'.handed == HandedOver(s.handed, job, start, n)
    ensures HandedTo(s', job) == HandedTo(s, job) + Batch(start, n)
    ensures forall j :: j != job ==> HandedTo(s', j) == HandedTo(s, j)
  {
    assert HandedTo(s, job) + [] == HandedTo(s, job);
  }

  lemma BatchExtends(s: State, id: TaskId, handed: map<JobId, seq<nat>>)
    requires HandedOk(s) && Alone(s, id) && s.tasks[id].pc == LoopHead
    requires var t := s.tasks[id];
             && handed == HandedOver(s.handed, t.job, t.next, BatchSize(t))
             && (t.job in s.rows ==> s.rows[t.job].status != Completed)
    ensures HandedOk(s.(tasks := s.tasks[id := s.tasks[id].(pc := Importing)], handed := handed))
  {
    var t := s.tasks[id];
    var s' := s.(tasks := s.tasks[id := t.(pc := Importing)], handed := handed);
    assert TaskHanded(t, |HandedTo(s, t.job)|);
    BatchInOrder(HandedTo(s, t.job), t.next, BatchSize(t));
    OthersHanded(s, s', t.job, t.next, BatchSize(t));
    BatchesStayApart(s, s', id);
  }

  lemma BatchesStayApart(s: State, s': State, id: TaskId)
    requires HandedOk(s) && Alone(s, id) && s'.tasks == s.tasks[id := s.tasks[id].(pc := Importing)]
    requires forall j :: j != s.tasks[id].job ==> HandedTo(s', j) == HandedTo(s, j)
    requires |HandedTo(s', s.tasks[id].job)| == s.tasks[id].next + BatchSize(s.tasks[id])
    ensures forall i :: i in s'.tasks ==> TaskHanded(s'.tasks[i], |HandedTo(s', s'.tasks[i].job)|)
  {
    forall i | i in s'.tasks ensures TaskHanded(s'.tasks[i], |HandedTo(s', s'.tasks[i].job)|) {
      assert TaskHanded(s.tasks[i], |HandedTo(s, s.tasks[i].job)|);
    }
  }

  /** The other reads hand over nothing. */
  lemma ReadKeepsHanded(s: State, id: TaskId)
    requires HandedOk(s) && id in s.tasks && Reads(s.tasks[id].pc)
    requires ReadStep(s, id).tasks[id].pc != Importing
    ensures HandedOk(ReadStep(s, id))
  {
    TaskKeeps(s, ReadStep(s, id), id);
  }

  /** Only two writes complete a row, and both write what was handed over. */
  lemma WriteCompletes(t: Task, r: Row, n: nat)
    requires Writes(t.pc) && Fits(t, r) && TaskHanded(t, n)
    ensures Changed(r, WhatIsWritten(t)).status == Completed ==> n == Changed(r, WhatIsWritten(t)).total
  {
  }

  lemma WriteHandsNothing(t: Task, n: nat)
    requires Writes(t.pc) && TaskHanded(t, n)
    ensures TaskHanded(t.(pc := AfterWrite(t.pc)), n)
  {
  }

  lemma WriteKeepsHanded(s: State, id: TaskId)
    requires Inv(s) && HandedOk(s) && id in s.tasks && Writes(s.tasks[id].pc)
    ensures HandedOk(WriteStep(s, id))
  {
    WriteKeepsCompleted(s, id);
    WriteHandsNothing(s.tasks[id], |HandedTo(s, s.tasks[id].job)|);
    TaskKeeps(s, WriteStep(s, id), id);
  }

  lemma WriteKeepsCompleted(s: State, id: TaskId)
    requires Inv(s) && HandedOk(s) && id in s.tasks && Writes(s.tasks[id].pc)
    ensures CompletedHanded(s, WriteStep(s, id).rows)
  {
    var t := s.tasks[id];
    if t.job in s.rows {
      WriteCompletes(t, s.rows[t.job], |HandedTo(s, t.job)|);
    }
  }

  lemma WorkKeepsHanded(s: State, id: TaskId)
    requires Inv(s) && HandedOk(s) && id in s.tasks && (Reads(s.tasks[id].pc) || Writes(s.tasks[id].pc))
    ensures HandedOk(Advanced(s, id))
  {
    if Writes(s.tasks[id].pc) {
      AdvanceWrites(s, id);
      WriteKeepsHanded(s, id);
    } else {
      AdvanceReads(s, id);
      AnyReadKeepsHanded(s, id);
    }
  }

  lemma AnyReadKeepsHanded(s: State, id: TaskId)
    requires Inv(s) && HandedOk(s) && id in s.tasks && Reads(s.tasks[id].pc)
    ensures HandedOk(ReadStep(s, id))
  {
    if ReadStep(s, id).tasks[id].pc == Importing {
      BatchKeepsHanded(s, id);
    } else {
      ReadKeepsHanded(s, id);
    }
  }

  lemma AdvanceKeepsHanded(s: State, id: TaskId)
    requires Inv(s) && HandedOk(s) && id in s.tasks
    ensures HandedOk(Advanced(s, id))
  {
    if Reads(s.tasks[id].pc) || Writes(s.tasks[id].pc) {
      WorkKeepsHanded(s, id);
    } else {
      EndKeepsHanded(s, id);
    }
  }

  lemma EndKeepsHanded(s: State, id: TaskId)
    requires Inv(s) && HandedOk(s) && id in s.tasks && !Reads(s.tasks[id].pc) && !Writes(s.tasks[id].pc)
    ensures HandedOk(Advanced(s, id))
  {
    var t := s.tasks[id];
    AdvanceEnds(s, id);
    if t.pc == Claim && t.arq !in s.claims {
      ClaimKeepsHanded(s, id);
    } else if t.pc == Escaped {
      EscapeKeepsHanded(s, id);
    } else if t.pc == Claim || t.pc == Leave {
      CrashKeepsHanded(s, id);
    }
  }

  lemma EscapeKeepsHanded(s: State, id: TaskId)
    requires HandedOk(s) && id in s.tasks
    ensures HandedOk(EscapeStep(s, id))
  {
    TaskKeeps(s, EscapeStep(s, id), id);
  }

  lemma EnqueueKeepsHanded(s: State, job: JobId, arq: ArqId)
    requires HandedOk(s) && job in s.waiting && arq !in s.queue
    ensures HandedOk(Step(s, Enqueue(job, arq)))
  {
  }

  lemma DeliverKeepsHanded(s: State, id: TaskId, arq: ArqId)
    requires HandedOk(s) && id !in s.tasks
    ensures HandedOk(Step(s, Deliver(id, arq)))
  {
    TaskKeeps(s, Step(s, Deliver(id, arq)), id);
  }

  lemma ScanKeepsHanded(s: State, id: TaskId, total: nat)
    requires HandedOk(s) && id in s.tasks && s.tasks[id].pc == Prepare
    ensures HandedOk(Step(s, Scanned(id, total)))
  {
    TaskKeeps(s, Step(s, Scanned(id, total)), id);
  }

  /** The answers are those of the keys handed over, so the counter catches up. */
  lemma AnswersKeepHanded(s: State, id: TaskId, replies: seq<B.Reply>)
    requires HandedOk(s) && id in s.tasks && s.tasks[id].pc == Importing
    requires |replies| == BatchSize(s.tasks[id])
    ensures HandedOk(Step(s, Answered(id, replies)))
  {
    TaskKeeps(s, Step(s, Answered(id, replies)), id);
  }

  lemma RaiseKeepsHanded(s: State, id: TaskId)
    requires HandedOk(s) && id in s.tasks
    ensures HandedOk(Thrown(s, id))
  {
    RaiseHandsNothing(s, id);
    TaskKeeps(s, Thrown(s, id), id);
  }

  lemma RaiseHandsNothing(s: State, id: TaskId)
    requires id in s.tasks
    ensures OnlyTask(s, Thrown(s, id), id) && Thrown(s, id).rows == s.rows
    ensures id in Thrown(s, id).tasks ==> Thrown(s, id).tasks[id].pc in {Handler, Escaped}
  {
  }

  lemma CrashKeepsHanded(s: State, id: TaskId)
    requires HandedOk(s)
    ensures HandedOk(Drop(s, id))
  {
    TaskKeeps(s, Drop(s, id), id);
  }

  lemma DeliverStepKeepsHanded(s: State, id: TaskId, arq: ArqId)
    requires HandedOk(s)
    ensures HandedOk(Step(s, Deliver(id, arq)))
  {
    if id !in s.tasks {
      DeliverKeepsHanded(s, id, arq);
    } else {
      assert Step(s, Deliver(id, arq)) == s;
    }
  }

  lemma AdvanceStepKeepsHanded(s: State, id: TaskId)
    requires Inv(s) && HandedOk(s)
    ensures HandedOk(Step(s, Advance(id)))
  {
    if id in s.tasks {
      AdvanceKeepsHanded(s, id);
      assert Step(s, Advance(id)) == Advanced(s, id);
    } else {
      assert Step(s, Advance(id)) == s;
    }
  }

  lemma ScannedStepKeepsHanded(s: State, id: TaskId, total: nat)
    requires HandedOk(s)
    ensures HandedOk(Step(s, Scanned(id, total)))
  {
    if id in s.tasks && s.tasks[id].pc == Prepare {
      ScanKeepsHanded(s, id, total);
    } else {
      assert Step(s, Scanned(id, total)) == s;
    }
  }

  lemma AnsweredStepKeepsHanded(s: State, id: TaskId, replies: seq<B.Reply>)
    requires HandedOk(s)
    ensures HandedOk(Step(s, Answered(id, replies)))
  {
    if id in s.tasks && s.tasks[id].pc == Importing && |replies| == BatchSize(s.tasks[id]) {
      AnswersKeepHanded(s, id, replies);
    } else {
      assert Step(s, Answered(id, replies)) == s;
    }
  }

  lemma RaiseStepKeepsHanded(s: State, id: TaskId)
    requires HandedOk(s)
    ensures HandedOk(Step(s, Raise(id)))
  {
    if id in s.tasks {
      RaiseKeepsHanded(s, id);
      assert Step(s, Raise(id)) == Thrown(s, id);
    } else {
      assert Step(s, Raise(id)) == s;
    }
  }

  lemma WorkerStepKeepsHanded(s: State, a: Action)
    requires Inv(s) && HandedOk(s) && ByWorker(a)
    ensures HandedOk(Step(s, a))
  {
    match a
    case Deliver(id, arq) => DeliverStepKeepsHanded(s, id, arq);
    case Advance(id) => AdvanceStepKeepsHanded(s, id);
    case Scanned(id, total) => ScannedStepKeepsHanded(s, id, total);
    case Answered(id, replies) => AnsweredStepKeepsHanded(s, id, replies);
    case Raise(id) => RaiseStepKeepsHanded(s, id);
    case Crash(id) =>
      CrashKeepsHanded(s, id);
      assert Step(s, a) == Drop(s, id);
  }

  lemma StepKeepsHanded(s: State, a: Action)
    requires Inv(s) && HandedOk(s)
    ensures HandedOk(Step(s, a))
  {
    match a
    case InsertRow(owner) => InsertKeepsHanded(s, owner);
    case Enqueue(job, arq) =>
      if job in s.waiting && arq !in s.queue {
        EnqueueKeepsHanded(s, job, arq);
      }
    case CancelJob(job, owner) => RowsKeep(s, WithCancelled(s.rows, job, owner));
    case DeleteJob(job, owner) => RowsKeep(s, Deleted(s.rows, job, owner));
    case ClearCompleted(owner) => RowsKeep(s, Cleared(s.rows, owner));
    case TimeoutStale(stale) => RowsKeep(s, TimedOut(s.rows, stale));
    case _ => WorkerStepKeepsHanded(s, a);
  }

  lemma {:induction false} RunKeepsHanded(s: State, actions: seq<Action>)
    requires Inv(s) && HandedOk(s)
    ensures HandedOk(Run(s, actions))
    decreases |actions|
  {
    if actions != [] {
      StepKeeps(s, actions[0]);
      StepKeepsHanded(s, actions[0]);
      RunKeepsHanded(Step(s, actions[0]), actions[1..]);
    }
  }

  // ----- what every run guarantees -----

  /** Over any run the importer is handed the keys of a job in order, none of them twice and none left
      out in between, however often the job is delivered and wherever its worker crashes. */
  lemma NoKeyTwice(actions: seq<Action>, job: JobId, i: nat)
    requires i < |HandedTo(Run(INITIAL, actions), job)|
    ensures HandedTo(Run(INITIAL, actions), job)[i] == i
  {
    RunKeepsHanded(INITIAL, actions);
  }

  /** A job whose row says "completed" had all of its keys handed over, each exactly once. */
  lemma CompletedMeansAllHanded(actions: seq<Action>, job: JobId)
    requires var rows := Run(INITIAL, actions).rows; job in rows && rows[job].status == Completed
    ensures var s := Run(INITIAL, actions);
            HandedTo(s, job) == Batch(0, s.rows[job].total)
  {
    RunKeepsHanded(INITIAL, actions);
    var s := Run(INITIAL, actions);
    assert InOrder(HandedTo(s, job));
  }
}
