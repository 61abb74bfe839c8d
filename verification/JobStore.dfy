/** The import_jobs and processed_jobs tables as values: what each repository statement does to them. */
module JobTables {
  import opened Prelude

  type JobId = nat
  type Owner = Option<nat>
  /** The id ARQ gives a job when it is enqueued. */
  type ArqId = nat

  datatype Status = Pending | Running | Completed | Failed | Cancelled

  datatype Row = Row(
    status: Status, owner: Owner, startedAt: Option<int>, total: nat, completed: nat, failed: nat)
  {
    predicate Balanced() { completed + failed == total }
  }

  type Rows = map<JobId, Row>

  /** The fields an update_status call sets; None leaves a column alone. */
  datatype Change = Change(
    status: Status, total: Option<nat>, completed: Option<nat>, failed: Option<nat>)

  function Or(o: Option<nat>, default: nat): nat {
    if o.Some? then o.value else default
  }

  function Changed(r: Row, c: Change): Row {
    r.(status := c.status, total := Or(c.total, r.total),
       completed := Or(c.completed, r.completed), failed := Or(c.failed, r.failed))
  }

  function Updated(rows: Rows, job: JobId, c: Change): Rows {
    if job in rows then rows[job := Changed(rows[job], c)] else rows
  }

  function WithCancelled(rows: Rows, job: JobId, owner: Owner): Rows {
    if job in rows && rows[job].owner == owner then rows[job := rows[job].(status := Cancelled)]
    else rows
  }

  function TimedOut(rows: Rows, stale: set<JobId>): Rows {
    map j | j in rows ::
      if j in stale && rows[j].status == Running then rows[j].(status := Failed) else rows[j]
  }

  function Deleted(rows: Rows, job: JobId, owner: Owner): Rows {
    if job in rows && rows[job].owner == owner then rows - {job} else rows
  }

  predicate IsTerminal(s: Status) {
    s == Completed || s == Failed || s == Cancelled
  }

  function Cleared(rows: Rows, owner: Owner): Rows {
    map j | j in rows && !(rows[j].owner == owner && IsTerminal(rows[j].status)) :: rows[j]
  }

  /** The result_status column of a processed job. */
  datatype Mark = Unmarked | MarkedFailed

  /** INSERT ... ON CONFLICT DO NOTHING of an id that has no record. */
  function WithClaim(marks: map<ArqId, Mark>, id: ArqId): map<ArqId, Mark> {
    marks[id := Unmarked]
  }

  /** What the wrapper records when the body raised. */
  function WithFailure(marks: map<ArqId, Mark>, id: ArqId): map<ArqId, Mark> {
    marks[id := MarkedFailed]
  }
}

/** The two tables and the queue as objects the repositories, add_job and the idempotent wrapper update
    in place. Each statement is atomic; ImportJobs interleaves them. */
module JobStore {
  import opened Prelude
  import opened JobTables

  const SECONDS_PER_HOUR := 3600

  /** The rows timeout_stale selects: running, and started before the cutoff. */
  function Stale(rows: Rows, now: int, hours: nat): set<JobId> {
    set j | j in rows && rows[j].status == Running && rows[j].startedAt.Some?
            && rows[j].startedAt.value < now - hours * SECONDS_PER_HOUR
  }

  lemma RemovalCounts(rows: Rows, gone: set<JobId>)
    requires gone <= rows.Keys
    ensures |rows - gone| + |gone| == |rows|
  {
    assert rows.Keys == (rows - gone).Keys + gone && (rows - gone).Keys !! gone;
  }

  /** import_jobs, and the rows add_job has sent to the workers, in order. */
  class JobRepository {
    var rows: Rows
    var nextId: JobId

    ghost predicate Valid()
      reads this
    {
      forall j :: j in rows ==> j < nextId
    }

    constructor ()
      ensures Valid() && rows == map[] && nextId == 0
    {
      rows, nextId := map[], 0;
    }

    method CreateJob(owner: Owner) returns (id: JobId)
      requires Valid()
      modifies this
      ensures Valid()
      ensures id !in old(rows) && rows == old(rows)[id := Row(Pending, owner, None, 0, 0, 0)]
      ensures nextId == old(nextId) + 1 == id + 1
    {
      id := nextId;
      rows := rows[id := Row(Pending, owner, None, 0, 0, 0)];
      nextId := nextId + 1;
    }

    /** A user's statement matches a row only when the owners agree, no owner meaning the column is
        null. */
    predicate Matches(job: JobId, owner: Owner)
      reads this
    {
      job in rows && match owner case None => rows[job].owner.None? case Some(_) => rows[job].owner == owner
    }

    method CancelJob(job: JobId, owner: Owner) returns (updated: bool)
      requires Valid()
      modifies this`rows
      ensures Valid()
      ensures rows == WithCancelled(old(rows), job, owner)
      ensures rows.Keys == old(rows).Keys
      ensures forall j :: j in rows ==>
                rows[j] == if j == job && old(rows)[j].owner == owner then old(rows)[j].(status := Cancelled)
                           else old(rows)[j]
      ensures updated <==> job in old(rows) && old(rows)[job].owner == owner
    {
      updated := Matches(job, owner);
      if updated {
        rows := rows[job := rows[job].(status := Cancelled)];
      }
    }

    method UpdateStatus(job: JobId, c: Change) returns (row: Option<Row>)
      requires Valid()
      modifies this`rows
      ensures Valid()
      ensures rows == Updated(old(rows), job, c)
      ensures rows.Keys == old(rows).Keys && forall j :: j in rows && j != job ==> rows[j] == old(rows)[j]
      ensures job in rows ==>
                && rows[job].status == c.status
                && rows[job].total == (if c.total.Some? then c.total.value else old(rows)[job].total)
                && rows[job].completed == (if c.completed.Some? then c.completed.value else old(rows)[job].completed)
                && rows[job].failed == (if c.failed.Some? then c.failed.value else old(rows)[job].failed)
                && rows[job].owner == old(rows)[job].owner && rows[job].startedAt == old(rows)[job].startedAt
      ensures row == if job in old(rows) then Some(rows[job]) else None
    {
      if job !in rows {
        return None;
      }
      var r := rows[job].(status := c.status);
      if c.total.Some? {
        r := r.(total := c.total.value);
      }
      if c.completed.Some? {
        r := r.(completed := c.completed.value);
      }
      if c.failed.Some? {
        r := r.(failed := c.failed.value);
      }
      rows := rows[job := r];
      row := Some(r);
    }

    method TimeoutStale(now: int, hours: nat) returns (count: nat)
      requires Valid()
      modifies this`rows
      ensures Valid()
      ensures rows == TimedOut(old(rows), Stale(old(rows), now, hours))
      ensures rows.Keys == old(rows).Keys
      ensures forall j :: j in rows ==>
                var r := old(rows)[j];
                rows[j] == if r.status == Running && r.startedAt.Some? && r.startedAt.value + hours * 3600 < now
                           then r.(status := Failed) else r
      ensures count == |Stale(old(rows), now, hours)|
      ensures Stale(rows, now, hours) == {}
    {
      var stale := Stale(rows, now, hours);
      rows := map j | j in rows :: if j in stale then rows[j].(status := Failed) else rows[j];
      count := |stale|;
    }

    method DeleteForUser(job: JobId, owner: Owner) returns (removed: bool)
      requires Valid()
      modifies this`rows
      ensures Valid()
      ensures rows == Deleted(old(rows), job, owner)
      ensures forall j :: j in rows <==> j in old(rows) && !(j == job && old(rows)[j].owner == owner)
      ensures forall j :: j in rows ==> rows[j] == old(rows)[j]
      ensures removed <==> |rows| < |old(rows)|
    {
      removed := Matches(job, owner);
      if removed {
        ghost var before := rows;
        rows := rows - {job};
        assert before == rows[job := before[job]];
      }
    }

    method ClearCompletedForUser(owner: Owner) returns (count: nat)
      requires Valid()
      modifies this`rows
      ensures Valid()
      ensures rows == Cleared(old(rows), owner)
      ensures forall j :: j in rows <==>
                j in old(rows)
                && !(old(rows)[j].owner == owner && old(rows)[j].status in {Completed, Failed, Cancelled})
      ensures forall j :: j in rows ==> rows[j] == old(rows)[j]
      ensures |rows| + count == |old(rows)|
    {
      var gone := set j | j in rows && rows[j].owner == owner
                          && rows[j].status in {Completed, Failed, Cancelled};
      RemovalCounts(rows, gone);
      assert rows - gone == Cleared(rows, owner);
      rows := rows - gone;
      count := |gone|;
    }
  }

  /** A queue that inserts a row and then sends it to the workers, if any are connected. */
  class JobQueue {
    const repo: JobRepository
    const connected: bool
    var sent: seq<JobId>

    constructor (repo: JobRepository, connected: bool)
      ensures this.repo == repo && this.connected == connected && sent == []
    {
      this.repo, this.connected, this.sent := repo, connected, [];
    }

    /** Ids are never used again, so no row is sent twice. */
    ghost predicate Valid()
      reads this, repo
    {
      && repo.Valid()
      && (forall i :: 0 <= i < |sent| ==> sent[i] < repo.nextId)
      && (forall i, j :: 0 <= i < j < |sent| ==> sent[i] != sent[j])
    }

    /** The row is committed first; when sending it raises, it stays behind as pending. */
    method AddJob(owner: Owner, sendFails: bool) returns (r: Option<JobId>)
      requires Valid()
      modifies this`sent, repo
      ensures Valid()
      ensures var id := old(repo.nextId);
              && id !in old(repo.rows) && id !in old(sent)
              && repo.rows == old(repo.rows)[id := Row(Pending, owner, None, 0, 0, 0)]
              && sent == (if connected && !sendFails then old(sent) + [id] else old(sent))
              && r == if connected && sendFails then None else Some(id)
    {
      var id := repo.CreateJob(owner);
      if connected {
        if sendFails {
          return None;
        }
        sent := sent + [id];
      }
      r := Some(id);
    }
  }

  /** processed_jobs under the wrapper that runs a task at most once per ARQ id. */
  class Idempotency {
    var marks: map<ArqId, Mark>

    constructor ()
      ensures marks == map[]
    {
      marks := map[];
    }

    method MarkProcessed(id: ArqId) returns (inserted: bool)
      modifies this
      ensures inserted <==> id !in old(marks)
      ensures marks == if inserted then WithClaim(old(marks), id) else old(marks)
    {
      inserted := id !in marks;
      if inserted {
        marks := marks[id := Unmarked];
      }
    }

    /** One invocation of a wrapped task. The claim may raise, and then the body does not run; the body
        would raise or not; and so would the write of the mark. A missing or empty id runs the body
        without any record. */
    method Invoke(id: Option<ArqId>, claimRaises: bool, bodyRaises: bool, markRaises: bool)
      returns (ran: bool, raised: bool)
      modifies this
      ensures ran <==> id.None? || (!claimRaises && id.value !in old(marks))
      ensures raised <==> (id.Some? && claimRaises) || (ran && bodyRaises)
      ensures id.None? || !ran ==> marks == old(marks)
      ensures id.Some? && ran ==>
                var claimed := WithClaim(old(marks), id.value);
                marks == if bodyRaises && !markRaises then WithFailure(claimed, id.value) else claimed
    {
      if id.None? {
        return true, bodyRaises;
      }
      if claimRaises {
        return false, true;
      }
      ran := MarkProcessed(id.value);
      raised := ran && bodyRaises;
      if raised && !markRaises {
        marks := marks[id.value := MarkedFailed];
      }
    }
  }
}
