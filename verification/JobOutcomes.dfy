/** How an import job ends: what a user's cancel and deletion achieve, where an exception leads, and what
    a crash leaves behind. */
module JobOutcomes {
  import opened Prelude
  import opened JobTables
  import opened ImportJobs
  import opened HandedKeys
  import B = ImportBatches

  // ----- when keys are handed over -----

  /** Keys are handed over by one step only: the check before a batch, when keys are left and the check
      does not read "cancelled". A batch is the next keys, twenty-five of them or what is left. */
  lemma OnlyABatchHandsOver(s: State, a: Action, job: JobId)
    requires HandedTo(Step(s, a), job) != HandedTo(s, job)
    ensures a.Advance? && a.id in s.tasks && s.tasks[a.id].job == job && s.tasks[a.id].pc == LoopHead
    ensures var t, more := s.tasks[a.id], HandedTo(Step(s, a), job)[|HandedTo(s, job)|..];
            && t.next < t.total && !(job in s.rows && s.rows[job].status == Cancelled)
            && HandedTo(s, job) <= HandedTo(Step(s, a), job)
            && |more| == (if t.total - t.next < 25 then t.total - t.next else 25)
            && forall i :: 0 <= i < |more| ==> more[i] == t.next + i
  {
    StepsThatHandNothing(s, a, job);
    var t := s.tasks[a.id];
    assert HandedTo(Step(s, a), job) == HandedTo(s, job) + Batch(t.next, BatchSize(t));
  }

  lemma StepsThatHandNothing(s: State, a: Action, job: JobId)
    ensures HandedTo(Step(s, a), job) == HandedTo(s, job)
            || (a.Advance? && a.id in s.tasks && s.tasks[a.id].job == job && s.tasks[a.id].pc == LoopHead)
  {
    if a.Advance? && a.id in s.tasks && Reads(s.tasks[a.id].pc) {
      AdvanceReads(s, a.id);
    }
  }

  /** And that check does hand over a batch exactly then; a job whose row was deleted goes on. */
  lemma CheckDecides(s: State, id: TaskId)
    requires id in s.tasks && s.tasks[id].pc == LoopHead
    ensures var t := s.tasks[id];
            HandedTo(Step(s, Advance(id)), t.job) != HandedTo(s, t.job) <==>
            t.next < t.total && !(t.job in s.rows && s.rows[t.job].status == Cancelled)
  {
    var t := s.tasks[id];
    AdvanceReads(s, id);
    assert |HandedTo(s, t.job) + Batch(t.next, BatchSize(t))| == |HandedTo(s, t.job)| + BatchSize(t);
  }

  /** Over any run no key of a job is handed over while its row says "cancelled". */
  lemma NoKeyWhileCancelled(actions: seq<Action>, n: nat, job: JobId)
    requires n < |actions|
    requires var rows := Run(INITIAL, actions[..n]).rows; job in rows && rows[job].status == Cancelled
    ensures HandedTo(Run(INITIAL, actions[..n + 1]), job) == HandedTo(Run(INITIAL, actions[..n]), job)
  {
    var s := Run(INITIAL, actions[..n]);
    assert actions[..n + 1] == actions[..n] + [actions[n]];
    RunAppend(INITIAL, actions[..n], [actions[n]]);
    RunOne(s, actions[n]);
    if HandedTo(Step(s, actions[n]), job) != HandedTo(s, job) {
      OnlyABatchHandsOver(s, actions[n], job);
    }
  }

  // ----- what a cancel achieves -----

  /** A task that checks and reads "cancelled" leaves: row, keys handed over and all else stay. */
  lemma CancelledTaskLeaves(s: State, id: TaskId)
    requires id in s.tasks && ReadsCancelled(s.rows, s.tasks[id].job)
    ensures s.tasks[id].pc in {Folders, FinalCheck} ==> Run(s, [Advance(id), Advance(id)]) == Drop(s, id)
    ensures s.tasks[id].pc == LoopHead ==> Run(s, [Advance(id), Advance(id), Advance(id)]) == Drop(s, id)
  {
    var t := s.tasks[id];
    if t.pc in {Folders, FinalCheck} {
      CheckThenLeave(s, id);
      TwoSteps(s, Advance(id), Advance(id));
    } else if t.pc == LoopHead {
      var s1 := s.(tasks := s.tasks[id := t.(pc := FinalCheck)]);
      AdvanceReads(s, id);
      assert Step(s, Advance(id)) == s1;
      CheckThenLeave(s1, id);
      assert s1.tasks - {id} == s.tasks - {id};
      ThreeSteps(s, Advance(id), Advance(id), Advance(id));
    }
  }

  lemma CheckThenLeave(s: State, id: TaskId)
    requires id in s.tasks && s.tasks[id].pc in {Folders, FinalCheck} && ReadsCancelled(s.rows, s.tasks[id].job)
    ensures Step(Step(s, Advance(id)), Advance(id)) == Drop(s, id)
  {
    var s1 := s.(tasks := s.tasks[id := s.tasks[id].(pc := Leave)]);
    AdvanceReads(s, id);
    assert Step(s, Advance(id)) == s1;
    assert s1.tasks - {id} == s.tasks - {id};
  }

  lemma TwoSteps(s: State, a: Action, b: Action)
    ensures Run(s, [a, b]) == Step(Step(s, a), b)
  {
    assert [a, b] == [a] + [b];
    RunPush(s, a, [b]);
    RunOne(Step(s, a), b);
  }

  /** The task goes about its work undisturbed: nothing raises, nobody else acts. */
  predicate OwnWork(a: Action, id: TaskId) {
    (a.Advance? && a.id == id) || (a.Scanned? && a.id == id)
    || (a.Answered? && a.id == id && forall i :: 0 <= i < |a.replies| ==> !a.replies[i].Aborted?)
  }

  predicate OwnWorks(actions: seq<Action>, id: TaskId) {
    forall i :: 0 <= i < |actions| ==> OwnWork(actions[i], id)
  }

  /** The task checks its row before it writes it again, or will not write it again. */
  predicate ChecksFirst(s: State, id: TaskId)
    requires id in s.tasks
  {
    s.tasks[id].pc in {Folders, LoopHead, FinalCheck, Report, Leave, Escaped}
    || (s.tasks[id].pc == Claim && s.tasks[id].arq in s.claims)
  }

  /** What stays of a state whose job was cancelled in time. */
  ghost predicate StaysCancelled(s: State, id: TaskId, job: JobId) {
    ReadsCancelled(s.rows, job) && (id in s.tasks ==> s.tasks[id].job == job && ChecksFirst(s, id))
  }

  lemma WorkStaysCancelled(s: State, a: Action, id: TaskId, job: JobId)
    requires StaysCancelled(s, id, job) && OwnWork(a, id)
    ensures StaysCancelled(Step(s, a), id, job) && Step(s, a).rows == s.rows && Step(s, a).handed == s.handed
  {
    if a.Advance? && id in s.tasks && Reads(s.tasks[id].pc) {
      AdvanceReads(s, id);
    }
  }

  lemma {:induction false} WorkRunStaysCancelled(s: State, actions: seq<Action>, id: TaskId, job: JobId)
    requires StaysCancelled(s, id, job) && OwnWorks(actions, id)
    ensures Run(s, actions).rows == s.rows && Run(s, actions).handed == s.handed
    decreases |actions|
  {
    if actions != [] {
      assert OwnWork(actions[0], id);
      WorkStaysCancelled(s, actions[0], id, job);
      WorkRunStaysCancelled(Step(s, actions[0]), actions[1..], id, job);
    }
  }


  /** The next write of a task at one of its write stops ends the cancel. */
  lemma WriteEndsCancel(s: State, id: TaskId)
    requires id in s.tasks && s.tasks[id].job in s.rows && Writes(s.tasks[id].pc)
    ensures !ReadsCancelled(Step(s, Advance(id)).rows, s.tasks[id].job)
  {
    AdvanceWrites(s, id);
  }

  /** A task that does not check first gets to a write by its own work. */
  lemma WriteIsReached(s: State, id: TaskId) returns (actions: seq<Action>)
    requires id in s.tasks && s.tasks[id].job in s.rows && !ChecksFirst(s, id)
    ensures OwnWorks(actions, id) && !ReadsCancelled(Run(s, actions).rows, s.tasks[id].job)
    decreases match s.tasks[id].pc case Claim => 2 case Fetch => 1 case Enter => 1 case _ => 0
  {
    var t := s.tasks[id];
    if Writes(t.pc) {
      actions := [Advance(id)];
      WriteEndsCancel(s, id);
      RunOne(s, Advance(id));
    } else if t.pc == Prepare || t.pc == Importing {
      var a := if t.pc == Prepare then Scanned(id, 0) else Answered(id, seq(BatchSize(t), _ => B.Raised));
      actions := [a, Advance(id)];
      var s1 := Step(s, a);
      assert Writes(s1.tasks[id].pc) && s1.tasks[id].job == t.job && s1.rows == s.rows;
      WriteEndsCancel(s1, id);
      TwoSteps(s, a, Advance(id));
    } else {
      var s1 := Step(s, Advance(id));
      if t.pc != Claim {
        AdvanceReads(s, id);
      }
      assert s1.tasks[id].job == t.job && s1.rows == s.rows;
      var rest := WriteIsReached(s1, id);
      actions := [Advance(id)] + rest;
      RunPush(s, Advance(id), rest);
    }
  }

  /** A cancel holds, with the worker left to itself, exactly when it comes while the worker's next look
      at the row is a check, or it will not write the row again. Any other time its next write,
      "running" at the earliest, takes the cancel back. */
  lemma CancelHoldsExactly(s: State, id: TaskId)
    requires id in s.tasks && ReadsCancelled(s.rows, s.tasks[id].job)
    ensures ChecksFirst(s, id) <==>
            forall actions: seq<Action> :: OwnWorks(actions, id) ==>
              ReadsCancelled(Run(s, actions).rows, s.tasks[id].job)
  {
    var job := s.tasks[id].job;
    if ChecksFirst(s, id) {
      forall actions: seq<Action> | OwnWorks(actions, id) ensures ReadsCancelled(Run(s, actions).rows, job) {
        WorkRunStaysCancelled(s, actions, id, job);
      }
    } else {
      var actions := WriteIsReached(s, id);
      assert OwnWorks(actions, id) && !ReadsCancelled(Run(s, actions).rows, job);
    }
  }

  /** A new job is pending, with nothing counted, and waits to be enqueued. */
  lemma NewJobIsPending(s: State, owner: Owner)
    requires s.nextJob !in s.rows
    ensures var s' := Step(s, InsertRow(owner));
            && s'.rows == s.rows[s.nextJob := Row(Pending, owner, None, 0, 0, 0)] && s'.nextJob == s.nextJob + 1
            && s'.waiting == s.waiting + {s.nextJob} && s'.queue == s.queue && s'.tasks == s.tasks
  {
  }

  /** A row is cancelled or deleted by its owner, cleared by its owner when it is done, and timed out when
      it is picked while running; whatever else happens to it, nobody but its worker does. */
  lemma RequestsSay(s: State, job: JobId, owner: Owner, stale: set<JobId>, j: JobId)
    requires j in s.rows
    ensures var r, rows := s.rows[j], Step(s, CancelJob(job, owner)).rows;
            j in rows && rows[j] == if j == job && r.owner == owner then r.(status := Cancelled) else r
    ensures var r, rows := s.rows[j], Step(s, DeleteJob(job, owner)).rows;
            if j == job && r.owner == owner then j !in rows else j in rows && rows[j] == r
    ensures var r, rows := s.rows[j], Step(s, ClearCompleted(owner)).rows;
            if r.owner == owner && r.status in {Completed, Failed, Cancelled} then j !in rows
            else j in rows && rows[j] == r
    ensures var r, rows := s.rows[j], Step(s, TimeoutStale(stale)).rows;
            j in rows && rows[j] == if j in stale && r.status == Running then r.(status := Failed) else r
  {
  }

  /** What each write of a worker leaves in its row. */
  lemma WritesSay(s: State, id: TaskId)
    requires id in s.tasks && Writes(s.tasks[id].pc) && s.tasks[id].job in s.rows
    ensures var t := s.tasks[id];
            var r, r' := s.rows[t.job], Step(s, Advance(id)).rows[t.job];
            && (t.pc in {MarkRunning, WriteTotal, WriteProgress} ==> r'.status == Running)
            && (t.pc in {WriteEmpty, WriteCompleted} ==> r'.status == Completed)
            && (t.pc == Handler ==> r'.status == Failed)
            && r'.total == (if t.pc == WriteTotal then t.total else if t.pc == WriteEmpty then 0 else r.total)
            && r'.completed == (if t.pc == WriteProgress then t.completed else r.completed)
            && r'.failed == (if t.pc == WriteProgress then t.failed else r.failed)
            && r'.owner == r.owner && r'.startedAt == r.startedAt
            && forall j :: j in s.rows && j != t.job ==> Step(s, Advance(id)).rows[j] == s.rows[j]
  {
    AdvanceWrites(s, id);
  }

  // ----- a job that is gone -----

  /** A job deleted before its body fetched it is not worked on. */
  lemma DeletedJobIsNotStarted(s: State, id: TaskId)
    requires id in s.tasks && s.tasks[id].pc == Fetch && s.tasks[id].job !in s.rows
    ensures Run(s, [Advance(id), Advance(id)]) == Drop(s, id)
  {
    var s1 := s.(tasks := s.tasks[id := s.tasks[id].(pc := Leave)]);
    AdvanceReads(s, id);
    assert s1.tasks - {id} == s.tasks - {id};
    TwoSteps(s, Advance(id), Advance(id));
  }

  // ----- exceptions -----

  /** The state without the task, whose row says "failed". */
  function EndedFailed(s: State, id: TaskId): State
    requires id in s.tasks && s.tasks[id].job in s.rows
  {
    var job := s.tasks[id].job;
    s.(tasks := s.tasks - {id}, rows := s.rows[job := s.rows[job].(status := Failed)])
  }

  lemma HandlerRuns(s: State, id: TaskId)
    requires id in s.tasks && s.tasks[id].pc == Handler && s.tasks[id].job in s.rows
    ensures Step(Step(s, Advance(id)), Advance(id)) == EndedFailed(s, id)
  {
    var t := s.tasks[id];
    AdvanceWrites(s, id);
    var s1 := s.(tasks := s.tasks[id := t.(pc := Leave)],
                 rows := s.rows[t.job := s.rows[t.job].(status := Failed)]);
    assert Step(s, Advance(id)) == s1;
    assert s1.tasks - {id} == s.tasks - {id};
  }

  /** An exception anywhere between the scan and the report ends the job "failed", with nothing recorded
      for its ARQ id and the keys handed over as they were. */
  lemma RaisedJobFails(s: State, id: TaskId)
    requires id in s.tasks && s.tasks[id].job in s.rows
    requires s.tasks[id].pc in {Prepare, WriteEmpty, WriteTotal, Folders, LoopHead, Importing, WriteProgress,
                                FinalCheck, WriteCompleted, Report}
    ensures Run(s, [Raise(id), Advance(id), Advance(id)]) == EndedFailed(s, id)
  {
    var s1 := s.(tasks := s.tasks[id := s.tasks[id].(pc := Handler)]);
    assert Step(s, Raise(id)) == s1;
    HandlerRuns(s1, id);
    assert s1.tasks - {id} == s.tasks - {id};
    ThreeSteps(s, Raise(id), Advance(id), Advance(id));
  }

  /** So does a call of the batch that was aborted. */
  lemma AbortedJobFails(s: State, id: TaskId, replies: seq<B.Reply>, k: nat)
    requires id in s.tasks && s.tasks[id].job in s.rows && s.tasks[id].pc == Importing
    requires |replies| == BatchSize(s.tasks[id]) && k < |replies| && replies[k].Aborted?
    ensures Run(s, [Answered(id, replies), Advance(id), Advance(id)]) == EndedFailed(s, id)
  {
    var s1 := s.(tasks := s.tasks[id := s.tasks[id].(pc := Handler)]);
    assert Step(s, Answered(id, replies)) == s1;
    HandlerRuns(s1, id);
    assert s1.tasks - {id} == s.tasks - {id};
    ThreeSteps(s, Answered(id, replies), Advance(id), Advance(id));
  }

  /** An exception of the body elsewhere leaves the row as it is, and the wrapper records it for the ARQ
      id. */
  lemma EscapedIsMarked(s: State, id: TaskId)
    requires id in s.tasks && s.tasks[id].pc in {Fetch, MarkRunning, Enter, Handler, Leave}
    ensures Run(s, [Raise(id), Advance(id)]) ==
            s.(tasks := s.tasks - {id}, claims := s.claims[s.tasks[id].arq := MarkedFailed],
               raised := s.raised + {s.tasks[id].arq})
  {
    var t := s.tasks[id];
    var s1 := s.(tasks := s.tasks[id := t.(pc := Escaped)], raised := s.raised + {t.arq});
    RaiseEscapes(s, id);
    AdvanceEnds(s1, id);
    assert s1.tasks - {id} == s.tasks - {id};
    TwoSteps(s, Raise(id), Advance(id));
  }

  lemma RaiseEscapes(s: State, id: TaskId)
    requires id in s.tasks && s.tasks[id].pc in {Fetch, MarkRunning, Enter, Handler, Leave}
    ensures Step(s, Raise(id)) ==
            s.(tasks := s.tasks[id := s.tasks[id].(pc := Escaped)], raised := s.raised + {s.tasks[id].arq})
  {
  }

  // ----- crashes -----

  /** The job was started and nobody works on it any more. */
  ghost predicate Orphaned(s: State, job: JobId) {
    && job < s.nextJob && job !in s.waiting
    && (forall a :: a in s.queue && s.queue[a] == job ==> a in s.claims)
    && (forall id :: id in s.tasks && s.tasks[id].job == job ==> s.tasks[id].pc == Claim)
    && (forall id :: id in s.tasks ==> s.tasks[id].arq in s.queue && s.queue[s.tasks[id].arq] == s.tasks[id].job)
  }

  /** A user or the timeout job acts on the row. */
  predicate ActsOn(a: Action, job: JobId) {
    (a.CancelJob? && a.job == job) || (a.DeleteJob? && a.job == job) || a.ClearCompleted?
    || (a.TimeoutStale? && job in a.stale)
  }

  ghost predicate SameJob(s: State, s': State, job: JobId) {
    && (job in s'.rows <==> job in s.rows) && (job in s.rows ==> s'.rows[job] == s.rows[job])
    && HandedTo(s', job) == HandedTo(s, job)
  }

  /** A crash takes the task and nothing else. */
  lemma CrashOrphans(s: State, id: TaskId)
    requires Inv(s) && id in s.tasks && s.tasks[id].pc != Claim
    ensures Orphaned(Step(s, Crash(id)), s.tasks[id].job)
    ensures Step(s, Crash(id)) == s.(tasks := s.tasks - {id})
  {
    WorkersAreAlone(s, id);
    forall i | i in s.tasks ensures s.tasks[i].arq in s.queue && s.queue[s.tasks[i].arq] == s.tasks[i].job {
      assert TaskOk(s, s.tasks[i]);
    }
  }

  /** Nothing moves an orphaned job: a delivery of its ARQ id finds it claimed. */
  lemma OrphanStays(s: State, a: Action, job: JobId)
    requires Orphaned(s, job) && !ActsOn(a, job)
    ensures Orphaned(Step(s, a), job) && SameJob(s, Step(s, a), job)
  {
    if a.Advance? && a.id in s.tasks {
      OrphanSeesAdvance(s, a.id, job);
    } else if a.Raise? && a.id in s.tasks {
      OrphanSeesRaise(s, a.id, job);
    } else if a.Deliver? || a.Scanned? || a.Answered? || a.Crash? {
      OrphanSeesTasks(s, a, job);
    } else if a.TimeoutStale? {
      assert Step(s, a).rows.Keys == s.rows.Keys;
    }
  }

  lemma OrphanSeesTasks(s: State, a: Action, job: JobId)
    requires Orphaned(s, job) && (a.Deliver? || a.Scanned? || a.Answered? || a.Crash?)
    ensures Orphaned(Step(s, a), job) && SameJob(s, Step(s, a), job)
  {
  }

  lemma OrphanSeesRaise(s: State, id: TaskId, job: JobId)
    requires Orphaned(s, job) && id in s.tasks
    ensures Orphaned(Thrown(s, id), job) && SameJob(s, Thrown(s, id), job)
  {
  }

  lemma OrphanSeesAdvance(s: State, id: TaskId, job: JobId)
    requires Orphaned(s, job) && id in s.tasks
    ensures Orphaned(Advanced(s, id), job) && SameJob(s, Advanced(s, id), job)
  {
    if Reads(s.tasks[id].pc) {
      AdvanceReads(s, id);
    } else if Writes(s.tasks[id].pc) {
      AdvanceWrites(s, id);
    } else {
      AdvanceEnds(s, id);
    }
  }

  lemma {:induction false} OrphanRuns(s: State, actions: seq<Action>, job: JobId)
    requires Orphaned(s, job)
    requires forall i :: 0 <= i < |actions| ==> !ActsOn(actions[i], job)
    ensures SameJob(s, Run(s, actions), job)
    decreases |actions|
  {
    if actions != [] {
      OrphanStays(s, actions[0], job);
      OrphanRuns(Step(s, actions[0]), actions[1..], job);
    }
  }

  /** After a crash of its body a job is stuck for good: over any further run in which no user acts on it
      and the timeout job passes it over, its row and the keys handed over stay as the crash left them,
      however often it is delivered again. */
  lemma CrashedJobIsStuck(before: seq<Action>, id: TaskId, after: seq<Action>)
    requires id in Run(INITIAL, before).tasks && Run(INITIAL, before).tasks[id].pc != Claim
    requires var s := Run(INITIAL, before);
             forall i :: 0 <= i < |after| ==> !ActsOn(after[i], s.tasks[id].job)
    ensures var s := Run(INITIAL, before);
            SameJob(s, Run(Step(s, Crash(id)), after), s.tasks[id].job)
  {
    var s := Run(INITIAL, before);
    var s1, job := Step(s, Crash(id)), s.tasks[id].job;
    RunKeeps(INITIAL, before);
    CrashOrphans(s, id);
    OrphanRuns(s1, after, job);
  }
}
