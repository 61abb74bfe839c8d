/** The event-driven imports as steps: workers that sweep the queues under a lock with a time to live,
    messages that SQS may deliver again until their retention ends, the event table that remembers
    what was seen, its cleanup, and a clock. Times are seconds. */
module SqsSweep {
  import opened Prelude
  import opened SqsEvents

  type WorkerId = nat
  type Time = real

  const LOCK_TTL: Time := 60.0
  /** Events older than seven days are cleaned up. */
  const EVENT_AGE: Time := 604800.0

  datatype Lock = Lock(owner: WorkerId, expires: Time)

  /** A message with the object keys of its create events. */
  datatype Message = Message(sentAt: Time, retention: Time, keys: seq<Key>)

  datatype EventRow = EventRow(triple: Triple, createdAt: Time)

  datatype Delivery = Delivery(queue: QueueId, msg: MsgId)

  /** Where the processing of one event stands: the probe found nothing, or the row is committed. */
  datatype Work = Idle | Probed(triple: Triple) | Recorded(triple: Triple)

  /** `handled` are the events the sweep is done recording: a row was found, or committed. */
  datatype Sweep = Sweep(start: Time, inbox: set<Delivery>, work: Work, handled: set<Triple>)

  /** `sweeps` are the workers inside a sweep and `used` the worker ids handed out so far. Of the whole
      past, `imports` counts the import_file calls, `recorded` has the events for which a row was ever
      committed, and `deleted` the messages deleted from their queue. */
  datatype State = State(
    now: Time, lock: Option<Lock>, sweeps: map<WorkerId, Sweep>, used: set<WorkerId>,
    queues: set<QueueId>, nextQueue: QueueId, messages: map<MsgId, Message>, nextMsg: MsgId,
    events: map<nat, EventRow>, nextEvent: nat, imports: multiset<Triple>,
    recorded: set<Triple>, deleted: set<Delivery>)

  const INITIAL := State(0.0, None, map[], {}, {}, 0, map[], 0, map[], 0, multiset{}, {}, {})

  datatype Action =
    | Tick(span: Time)
    | Send(retention: Time, keys: seq<Key>)
    | AddQueue
    | RemoveQueue(queue: QueueId)
    | Cleanup
    | ClearHistory(queues: set<QueueId>)
    | Acquire(w: WorkerId)
    | Receive(w: WorkerId, d: Delivery)
    | Probe(w: WorkerId, d: Delivery, key: Key)
    | Insert(w: WorkerId)
    | ImportFile(w: WorkerId)
    | GiveUp(w: WorkerId)
    | RecordFailure(w: WorkerId, d: Delivery, key: Key)
    | Delete(w: WorkerId, d: Delivery)
    | Release(w: WorkerId)
    | Crash(w: WorkerId)

  predicate Holds(s: State, w: WorkerId) {
    s.lock.Some? && s.lock.value.owner == w && s.now < s.lock.value.expires
  }

  predicate LockFree(s: State) {
    s.lock.None? || s.lock.value.expires <= s.now
  }

  predicate HasRow(s: State, t: Triple) {
    exists e :: e in s.events && s.events[e].triple == t
  }

  function WithWork(s: State, w: WorkerId, work: Work): State
    requires w in s.sweeps
  {
    s.(sweeps := s.sweeps[w := s.sweeps[w].(work := work)])
  }

  function WithRow(s: State, t: Triple): State {
    s.(events := s.events[s.nextEvent := EventRow(t, s.now)], nextEvent := s.nextEvent + 1,
       recorded := s.recorded + {t})
  }

  /** The sweep is done recording an event. */
  function WithHandled(s: State, w: WorkerId, t: Triple): State
    requires w in s.sweeps
  {
    s.(sweeps := s.sweeps[w := s.sweeps[w].(handled := s.sweeps[w].handled + {t})])
  }

  /** The loop over the create events of a message is through. */
  predicate CanDelete(s: State, w: WorkerId, d: Delivery) {
    && w in s.sweeps && s.sweeps[w].work == Idle && d in s.sweeps[w].inbox && d.msg in s.messages
    && forall key :: key in s.messages[d.msg].keys ==> Triple(d.msg, d.queue, key) in s.sweeps[w].handled
  }

  predicate CanTake(s: State, w: WorkerId, d: Delivery, key: Key) {
    w in s.sweeps && s.sweeps[w].work == Idle && d in s.sweeps[w].inbox
    && d.msg in s.messages && key in s.messages[d.msg].keys
  }

  function Step(s: State, a: Action): State {
    match a
    case Tick(span) => if span < 0.0 then s else s.(now := s.now + span)
    case Send(retention, keys) =>
      s.(messages := s.messages[s.nextMsg := Message(s.now, retention, keys)], nextMsg := s.nextMsg + 1)
    case AddQueue => s.(queues := s.queues + {s.nextQueue}, nextQueue := s.nextQueue + 1)
    // the event rows go with their queue
    case RemoveQueue(q) =>
      s.(queues := s.queues - {q},
         events := map e | e in s.events && s.events[e].triple.queue != q :: s.events[e])
    case Cleanup =>
      s.(events := map e | e in s.events && !(s.events[e].createdAt < s.now - EVENT_AGE) :: s.events[e])
    case ClearHistory(qs) =>
      s.(events := map e | e in s.events && s.events[e].triple.queue !in qs :: s.events[e])
    // SET NX EX with an id made for this sweep
    case Acquire(w) =>
      if w in s.used then s
      else if !LockFree(s) then s.(used := s.used + {w})
      else s.(used := s.used + {w}, lock := Some(Lock(w, s.now + LOCK_TTL)),
              sweeps := s.sweeps[w := Sweep(s.now, {}, Idle, {})])
    // any retained message may arrive, whether or not it was deleted before; the queue list was read
    // at the start of the sweep, so the queue may be gone by now
    case Receive(w, d) =>
      if w in s.sweeps && d.queue < s.nextQueue && d.msg in s.messages
         && s.now < s.messages[d.msg].sentAt + s.messages[d.msg].retention
      then s.(sweeps := s.sweeps[w := s.sweeps[w].(inbox := s.sweeps[w].inbox + {d})]) else s
    case Probe(w, d, key) =>
      var t := Triple(d.msg, d.queue, key);
      if !CanTake(s, w, d, key) then s
      else if HasRow(s, t) then WithHandled(s, w, t)
      else WithWork(s, w, Probed(t))
    // the row must reference an existing queue, otherwise the insert raises
    case Insert(w) =>
      if w in s.sweeps && s.sweeps[w].work.Probed? then
        var t := s.sweeps[w].work.triple;
        if t.queue in s.queues then WithHandled(WithWork(WithRow(s, t), w, Recorded(t)), w, t)
        else WithWork(s, w, Idle)
      else s
    case ImportFile(w) =>
      if w in s.sweeps && s.sweeps[w].work.Recorded?
      then WithWork(s, w, Idle).(imports := s.imports + multiset{s.sweeps[w].work.triple}) else s
    // missing credentials, no folder, or an exception
    case GiveUp(w) => if w in s.sweeps then WithWork(s, w, Idle) else s
    // the failure handler of the caller adds a row of its own
    case RecordFailure(w, d, key) =>
      if CanTake(s, w, d, key) && d.queue in s.queues
      then WithHandled(WithRow(s, Triple(d.msg, d.queue, key)), w, Triple(d.msg, d.queue, key)) else s
    // the message may be delivered again all the same
    case Delete(w, d) => if CanDelete(s, w, d) then s.(deleted := s.deleted + {d}) else s
    // compare-and-delete; a release that fails is a crash here
    case Release(w) =>
      if w in s.sweeps
      then s.(sweeps := s.sweeps - {w}, lock := if Holds(s, w) then None else s.lock) else s
    case Crash(w) => s.(sweeps := s.sweeps - {w})
  }

  function Run(s: State, actions: seq<Action>): State
    decreases |actions|
  {
    if actions == [] then s else Run(Step(s, actions[0]), actions[1..])
  }

  /** Every sweep is younger than the limit. */
  ghost predicate Young(s: State, limit: Time) {
    forall w :: w in s.sweeps ==> s.now < s.sweeps[w].start + limit
  }

  ghost predicate YoungRun(s: State, actions: seq<Action>, limit: Time)
    decreases |actions|
  {
    Young(s, limit) && (actions != [] ==> YoungRun(Step(s, actions[0]), actions[1..], limit))
  }

  /** No user clears the event history. */
  ghost predicate Quiet(actions: seq<Action>) {
    forall i :: 0 <= i < |actions| ==> !actions[i].ClearHistory?
  }

  // ----- the lock -----

  ghost predicate LockInv(s: State) {
    && (forall w :: w in s.sweeps ==> w in s.used && s.lock == Some(Lock(w, s.sweeps[w].start + LOCK_TTL)))
    && (s.lock.Some? ==> s.lock.value.owner in s.used)
  }

  lemma LockStep(s: State, a: Action)
    requires LockInv(s) && Young(s, LOCK_TTL)
    ensures LockInv(Step(s, a))
  {
    if a.Acquire? {
      AcquireKeepsLock(s, a.w);
    } else if a.Release? || a.Crash? {
      LeavingKeepsLock(s, a);
    } else if ByOthers(a) {
      OthersLeaveWorkers(s, a);
    } else if a.Insert? || a.ImportFile? || a.GiveUp? {
      WorkLeavesLock(s, a);
    } else {
      TakingLeavesLock(s, a);
    }
  }

  lemma AcquireKeepsLock(s: State, w: WorkerId)
    requires LockInv(s) && Young(s, LOCK_TTL)
    ensures LockInv(Step(s, Acquire(w)))
  {
    if LockFree(s) {
      assert forall v :: v !in s.sweeps;
    }
  }

  lemma LeavingKeepsLock(s: State, a: Action)
    requires LockInv(s) && (a.Release? || a.Crash?)
    ensures LockInv(Step(s, a))
  {
  }

  /** What happens outside the workers. */
  predicate ByOthers(a: Action) {
    a.Tick? || a.Send? || a.AddQueue? || a.RemoveQueue? || a.Cleanup? || a.ClearHistory?
  }

  lemma OthersLeaveWorkers(s: State, a: Action)
    requires ByOthers(a)
    ensures var s' := Step(s, a);
            && s'.lock == s.lock && s'.used == s.used && s'.sweeps == s.sweeps
            && s'.imports == s.imports && s'.recorded == s.recorded && s'.deleted == s.deleted
  {
  }

  ghost predicate SameHolds(s: State, s': State) {
    && s'.lock == s.lock && s'.used == s.used && s'.sweeps.Keys == s.sweeps.Keys
    && forall w :: w in s.sweeps ==> s'.sweeps[w].start == s.sweeps[w].start
  }

  lemma TakingLeavesLock(s: State, a: Action)
    requires a.Receive? || a.Probe? || a.RecordFailure? || a.Delete?
    ensures SameHolds(s, Step(s, a))
  {
  }

  lemma WorkLeavesLock(s: State, a: Action)
    requires a.Insert? || a.ImportFile? || a.GiveUp?
    ensures SameHolds(s, Step(s, a))
  {
  }

  lemma {:induction false} LockRun(s: State, actions: seq<Action>, limit: Time)
    requires LockInv(s) && YoungRun(s, actions, limit) && limit <= LOCK_TTL
    ensures LockInv(Run(s, actions)) && Young(Run(s, actions), limit)
    decreases |actions|
  {
    if actions != [] {
      LockStep(s, actions[0]);
      LockRun(Step(s, actions[0]), actions[1..], limit);
    }
  }

  lemma OwnersAreOne(s: State, v: WorkerId, w: WorkerId)
    requires LockInv(s) && v in s.sweeps && w in s.sweeps
    ensures v == w
  {
  }

  /** As long as no sweep outlives the lock, no two workers are ever inside a sweep. */
  lemma OneSweepAtATime(actions: seq<Action>, limit: Time, v: WorkerId, w: WorkerId)
    requires YoungRun(INITIAL, actions, limit) && limit <= LOCK_TTL
    requires v in Run(INITIAL, actions).sweeps && w in Run(INITIAL, actions).sweeps
    ensures v == w
  {
    LockRun(INITIAL, actions, limit);
    OwnersAreOne(Run(INITIAL, actions), v, w);
  }

  /** Whatever the timing, only its owner's release and its expiry end a hold of the lock. */
  lemma OthersCannotRelease(s: State, a: Action, w: WorkerId)
    requires Holds(s, w)
    ensures Holds(Step(s, a), w) || a == Release(w) || (a.Tick? && s.lock.value.expires <= s.now + a.span)
  {
  }

  // ----- at most one import per event -----

  /** Some sweep has received the message of an event. */
  ghost predicate Received(s: State, t: Triple) {
    exists w :: w in s.sweeps && Delivery(t.queue, t.msg) in s.sweeps[w].inbox
  }

  /** When a sweep can next receive: now, or when the lock of a crashed worker expires. */
  function Opens(s: State): Time {
    if s.sweeps != map[] || LockFree(s) then s.now else s.lock.value.expires
  }

  /** A sweep has received the message, or can still receive it. */
  ghost predicate CanArrive(s: State, t: Triple) {
    t.msg in s.messages
    && (Received(s, t) || Opens(s) < s.messages[t.msg].sentAt + s.messages[t.msg].retention)
  }

  /** Nothing will import this event any more. */
  ghost predicate Covered(s: State, t: Triple) {
    HasRow(s, t) || t.queue !in s.queues || !CanArrive(s, t)
  }

  ghost predicate TablesOk(s: State) {
    && (forall m :: m in s.messages ==> m < s.nextMsg && s.messages[m].sentAt <= s.now)
    && (forall q :: q in s.queues ==> q < s.nextQueue)
    && (forall e :: e in s.events ==>
          && e < s.nextEvent && s.events[e].triple.msg in s.messages
          && s.messages[s.events[e].triple.msg].sentAt <= s.events[e].createdAt)
  }

  ghost predicate InHand(s: State, start: Time, d: Delivery) {
    && d.queue < s.nextQueue
    && d.msg in s.messages && start < s.messages[d.msg].sentAt + s.messages[d.msg].retention
  }

  /** An event of a known message and queue. */
  ghost predicate Known(s: State, t: Triple) {
    t.queue < s.nextQueue && t.msg in s.messages && t.key in s.messages[t.msg].keys
  }

  ghost predicate SweepOk(s: State, sweep: Sweep) {
    && sweep.start <= s.now
    && (forall d :: d in sweep.inbox ==> InHand(s, sweep.start, d))
    && (sweep.work != Idle ==>
          Known(s, sweep.work.triple) && Delivery(sweep.work.triple.queue, sweep.work.triple.msg) in sweep.inbox)
  }

  ghost predicate SweepsOk(s: State) {
    forall w :: w in s.sweeps ==> SweepOk(s, s.sweeps[w])
  }

  /** The retention that the cleanup respects when sweeps stay younger than the limit. */
  predicate Retained(s: State, t: Triple, limit: Time) {
    t.msg in s.messages && s.messages[t.msg].retention + limit <= EVENT_AGE
  }

  /** A sweep may take some time, but no longer than the lock lives. */
  predicate Within(limit: Time) {
    0.0 < limit <= LOCK_TTL
  }

  ghost predicate ImportsOk(s: State, limit: Time) {
    && (forall t :: t in s.imports ==> Known(s, t))
    && (forall t :: t in s.imports && Retained(s, t, limit) ==> s.imports[t] == 1 && Covered(s, t))
    && (forall w :: w in s.sweeps && s.sweeps[w].work.Recorded? && Retained(s, s.sweeps[w].work.triple, limit) ==>
          s.sweeps[w].work.triple !in s.imports && Covered(s, s.sweeps[w].work.triple))
    && (forall w :: w in s.sweeps && s.sweeps[w].work.Probed? && Retained(s, s.sweeps[w].work.triple, limit) ==>
          s.sweeps[w].work.triple !in s.imports || s.sweeps[w].work.triple.queue !in s.queues)
  }

  ghost predicate Inv(s: State, limit: Time) {
    LockInv(s) && TablesOk(s) && SweepsOk(s) && ImportsOk(s, limit)
  }

  /** The next moment a sweep can receive never moves back. */
  lemma OpensGrow(s: State, a: Action)
    ensures Opens(s) <= Opens(Step(s, a))
  {
  }

  lemma InboxesGrow(s: State, a: Action, w: WorkerId, d: Delivery)
    requires w in Step(s, a).sweeps && d in Step(s, a).sweeps[w].inbox
    ensures (w in s.sweeps && d in s.sweeps[w].inbox)
            || (a == Receive(w, d) && w in s.sweeps && d.msg in s.messages
                && s.now < s.messages[d.msg].sentAt + s.messages[d.msg].retention)
  {
  }

  /** A message that cannot arrive will not. */
  lemma GoneStays(s: State, a: Action, t: Triple)
    requires TablesOk(s) && t.msg in s.messages && !CanArrive(s, t)
    ensures !CanArrive(Step(s, a), t)
  {
    var s', d := Step(s, a), Delivery(t.queue, t.msg);
    TablesGrow(s, a);
    OpensGrow(s, a);
    if Received(s', t) {
      var w :| w in s'.sweeps && d in s'.sweeps[w].inbox;
      InboxesGrow(s, a, w, d);
    }
  }

  /** When the cleanup may remove its row, the message of an event is out of reach of every young
      sweep. */
  lemma OldMessageIsGone(s: State, t: Triple, created: Time, limit: Time)
    requires Within(limit) && SweepsOk(s) && Young(s, limit) && Retained(s, t, limit)
    requires s.messages[t.msg].sentAt <= created < s.now - EVENT_AGE
    ensures !CanArrive(s, t)
  {
    forall w | w in s.sweeps ensures Delivery(t.queue, t.msg) !in s.sweeps[w].inbox {
      assert SweepOk(s, s.sweeps[w]);
      assert !InHand(s, s.sweeps[w].start, Delivery(t.queue, t.msg));
    }
  }

  lemma CoveredStays(s: State, a: Action, t: Triple, limit: Time)
    requires Within(limit) && TablesOk(s) && SweepsOk(s) && Young(s, limit)
    requires !a.ClearHistory? && Retained(s, t, limit) && t.queue < s.nextQueue
    requires Covered(s, t)
    ensures Retained(Step(s, a), t, limit) && Covered(Step(s, a), t)
  {
    TablesGrow(s, a);
    if HasRow(s, t) {
      var e :| e in s.events && s.events[e].triple == t;
      RowCovers(s, a, e, limit);
    } else if t.queue in s.queues {
      GoneStays(s, a, t);
    }
  }

  /** A row goes with its queue, or when it is so old that its message cannot arrive, and else stays. */
  lemma RowCovers(s: State, a: Action, e: nat, limit: Time)
    requires Within(limit) && TablesOk(s) && SweepsOk(s) && Young(s, limit)
    requires !a.ClearHistory? && e in s.events && Retained(s, s.events[e].triple, limit)
    ensures Covered(Step(s, a), s.events[e].triple)
  {
    var s', t := Step(s, a), s.events[e].triple;
    if a.Cleanup? {
      if e !in s'.events {
        OldMessageIsGone(s, t, s.events[e].createdAt, limit);
        GoneStays(s, a, t);
      }
    } else if a.RemoveQueue? {
      assert e in s'.events || t.queue !in s'.queues;
    } else {
      RowsOnlyAdded(s, a);
    }
    assert e in s'.events ==> s'.events[e] == s.events[e];
  }

  lemma RowsOnlyAdded(s: State, a: Action)
    requires TablesOk(s) && !a.ClearHistory? && !a.Cleanup? && !a.RemoveQueue?
    ensures forall e :: e in s.events ==> e in Step(s, a).events && Step(s, a).events[e] == s.events[e]
  {
  }

  lemma TablesStep(s: State, a: Action)
    requires TablesOk(s) && SweepsOk(s)
    ensures TablesOk(Step(s, a))
  {
    match a
    case Insert(w) =>
      if w in s.sweeps && s.sweeps[w].work.Probed? {
        assert SweepOk(s, s.sweeps[w]);
        RowStep(s, s.sweeps[w].work.triple);
      }
    case RecordFailure(w, d, key) =>
      if CanTake(s, w, d, key) {
        RowStep(s, Triple(d.msg, d.queue, key));
      }
    case RemoveQueue(_) => ShrinkingStep(s, a);
    case Cleanup => ShrinkingStep(s, a);
    case ClearHistory(_) => ShrinkingStep(s, a);
    case Tick(_) => GrowingStep(s, a);
    case Send(_, _) => GrowingStep(s, a);
    case AddQueue => GrowingStep(s, a);
    case _ => WorkersKeepTables(s, a);
  }

  lemma WorkersKeepTables(s: State, a: Action)
    requires TablesOk(s) && LeavesTables(a)
    ensures TablesOk(Step(s, a))
  {
    WorkersLeaveTables(s, a);
  }

  /** What a worker does to its lock and its sweep. */
  predicate LeavesTables(a: Action) {
    a.Acquire? || a.Receive? || a.Probe? || a.ImportFile? || a.GiveUp? || a.Release? || a.Crash?
    || a.Delete?
  }

  lemma WorkersLeaveTables(s: State, a: Action)
    requires LeavesTables(a)
    ensures var s' := Step(s, a);
            && s'.now == s.now && s'.messages == s.messages && s'.nextMsg == s.nextMsg
            && s'.queues == s.queues && s'.nextQueue == s.nextQueue
            && s'.events == s.events && s'.nextEvent == s.nextEvent
  {
    if a.Acquire? || a.Release? || a.Crash? {
      ComingAndGoingLeavesTables(s, a);
    }
  }

  lemma ComingAndGoingLeavesTables(s: State, a: Action)
    requires a.Acquire? || a.Release? || a.Crash?
    ensures var s' := Step(s, a);
            s' == s.(lock := s'.lock, sweeps := s'.sweeps, used := s'.used)
  {
  }

  /** Time, messages and queue numbers only grow. */
  lemma TablesGrow(s: State, a: Action)
    requires TablesOk(s)
    ensures var s' := Step(s, a);
            && s.now <= s'.now && s.nextQueue <= s'.nextQueue
            && (forall q :: q in s'.queues ==> q in s.queues || q == s.nextQueue)
            && (forall m :: m in s.messages ==> m in s'.messages && s'.messages[m] == s.messages[m])
  {
    if LeavesTables(a) {
      WorkersLeaveTables(s, a);
    }
  }

  lemma GrowingStep(s: State, a: Action)
    requires TablesOk(s) && (a.Tick? || a.Send? || a.AddQueue?)
    ensures TablesOk(Step(s, a))
  {
  }

  lemma ShrinkingStep(s: State, a: Action)
    requires TablesOk(s) && (a.RemoveQueue? || a.Cleanup? || a.ClearHistory?)
    ensures TablesOk(Step(s, a))
  {
    var s' := Step(s, a);
    assert forall e :: e in s'.events ==> e in s.events && s'.events[e] == s.events[e];
  }

  lemma RowStep(s: State, t: Triple)
    requires TablesOk(s) && t.msg in s.messages
    ensures TablesOk(WithRow(s, t))
  {
  }

  lemma SweepOkStays(s: State, a: Action, sweep: Sweep)
    requires TablesOk(s) && SweepOk(s, sweep)
    ensures SweepOk(Step(s, a), sweep)
  {
    TablesGrow(s, a);
  }

  lemma SweepsStep(s: State, a: Action)
    requires TablesOk(s) && SweepsOk(s)
    ensures SweepsOk(Step(s, a))
  {
    forall w | w in Step(s, a).sweeps ensures SweepOk(Step(s, a), Step(s, a).sweeps[w]) {
      SweepStep(s, a, w);
    }
  }

  lemma SweepStep(s: State, a: Action, w: WorkerId)
    requires TablesOk(s) && w in Step(s, a).sweeps && (w in s.sweeps ==> SweepOk(s, s.sweeps[w]))
    ensures SweepOk(Step(s, a), Step(s, a).sweeps[w])
  {
    if w !in s.sweeps {
      NewSweepOk(s, a, w);
    } else if Step(s, a).sweeps[w] == s.sweeps[w] {
      SweepOkStays(s, a, s.sweeps[w]);
    } else {
      ChangedSweepOk(s, a, w);
    }
  }

  lemma NewSweepOk(s: State, a: Action, w: WorkerId)
    requires w !in s.sweeps && w in Step(s, a).sweeps
    ensures SweepOk(Step(s, a), Step(s, a).sweeps[w])
  {
    assert a == Acquire(w);
  }

  /** A sweep is changed by its own worker only. */
  lemma OwnStep(s: State, a: Action, w: WorkerId)
    requires w in s.sweeps && w in Step(s, a).sweeps && Step(s, a).sweeps[w] != s.sweeps[w]
    ensures a.Acquire? || a.Receive? || a.Probe? || a.Insert? || a.ImportFile? || a.GiveUp? || a.RecordFailure?
    ensures a.w == w
  {
  }

  lemma ChangedSweepOk(s: State, a: Action, w: WorkerId)
    requires TablesOk(s) && w in s.sweeps && SweepOk(s, s.sweeps[w])
    requires w in Step(s, a).sweeps && Step(s, a).sweeps[w] != s.sweeps[w]
    ensures SweepOk(Step(s, a), Step(s, a).sweeps[w])
  {
    OwnStep(s, a, w);
    if a.Receive? {
      ReceiveOk(s, w, a.d);
    } else if a.Probe? {
      ProbeOk(s, w, a.d, a.key);
    } else if a.Insert? {
      InsertOk(s, w);
    } else if a.RecordFailure? {
      FailureOk(s, w, a.d, a.key);
    } else if a.Acquire? {
      assert Step(s, a).sweeps[w] == Sweep(s.now, {}, Idle, {});
    } else {
      assert Step(s, a).sweeps[w] == s.sweeps[w].(work := Idle);
      IdleOk(s, a, w);
    }
  }

  lemma InsertOk(s: State, w: WorkerId)
    requires w in s.sweeps && SweepOk(s, s.sweeps[w])
    ensures SweepOk(Step(s, Insert(w)), Step(s, Insert(w)).sweeps[w])
  {
  }

  lemma IdleOk(s: State, a: Action, w: WorkerId)
    requires TablesOk(s) && w in s.sweeps && SweepOk(s, s.sweeps[w]) && (a.ImportFile? || a.GiveUp?)
    ensures SweepOk(Step(s, a), s.sweeps[w].(work := Idle))
  {
  }

  lemma FailureOk(s: State, w: WorkerId, d: Delivery, key: Key)
    requires w in s.sweeps && SweepOk(s, s.sweeps[w])
    ensures SweepOk(Step(s, RecordFailure(w, d, key)), Step(s, RecordFailure(w, d, key)).sweeps[w])
  {
  }

  lemma ReceiveOk(s: State, w: WorkerId, d: Delivery)
    requires w in s.sweeps && SweepOk(s, s.sweeps[w])
    ensures SweepOk(Step(s, Receive(w, d)), Step(s, Receive(w, d)).sweeps[w])
  {
  }

  lemma ProbeOk(s: State, w: WorkerId, d: Delivery, key: Key)
    requires w in s.sweeps && SweepOk(s, s.sweeps[w])
    ensures SweepOk(Step(s, Probe(w, d, key)), Step(s, Probe(w, d, key)).sweeps[w])
  {
  }

  /** Whatever was imported stays covered. */
  lemma ImportsStayCovered(s: State, a: Action, limit: Time)
    requires Within(limit) && Inv(s, limit) && Young(s, limit) && !a.ClearHistory?
    ensures forall t :: t in s.imports && Retained(Step(s, a), t, limit) ==>
              s.imports[t] == 1 && Covered(Step(s, a), t)
  {
    var s' := Step(s, a);
    TablesGrow(s, a);
    forall t | t in s.imports && Retained(s', t, limit) ensures s.imports[t] == 1 && Covered(s', t) {
      assert Known(s, t);
      CoveredStays(s, a, t, limit);
    }
  }

  lemma KnownStays(s: State, a: Action, t: Triple)
    requires TablesOk(s) && Known(s, t)
    ensures Known(Step(s, a), t)
  {
    TablesGrow(s, a);
  }

  /** The event a worker is about to import stays covered as long as it is. */
  lemma RecordedStaysCovered(s: State, a: Action, w: WorkerId, limit: Time)
    requires Within(limit) && Inv(s, limit) && Young(s, limit) && !a.ClearHistory?
    requires w in s.sweeps && s.sweeps[w].work.Recorded? && Retained(Step(s, a), s.sweeps[w].work.triple, limit)
    ensures s.sweeps[w].work.triple !in s.imports && Covered(Step(s, a), s.sweeps[w].work.triple)
  {
    TablesGrow(s, a);
    assert SweepOk(s, s.sweeps[w]);
    CoveredStays(s, a, s.sweeps[w].work.triple, limit);
  }

  /** Steps that neither import nor take up an event leave the imports covered. */
  lemma OtherStep(s: State, a: Action, limit: Time)
    requires Within(limit) && Inv(s, limit) && Young(s, limit)
    requires !a.ClearHistory? && !a.Probe? && !a.Insert? && !a.ImportFile?
    ensures ImportsOk(Step(s, a), limit)
  {
    var s' := Step(s, a);
    OtherStepWork(s, a);
    TablesGrow(s, a);
    ImportsStayCovered(s, a, limit);
    forall t | t in s'.imports ensures Known(s', t) {
      KnownStays(s, a, t);
    }
    forall w | w in s'.sweeps && s'.sweeps[w].work.Recorded? && Retained(s', s'.sweeps[w].work.triple, limit)
      ensures s'.sweeps[w].work.triple !in s'.imports && Covered(s', s'.sweeps[w].work.triple)
    {
      RecordedStaysCovered(s, a, w, limit);
    }
    OtherStepProbed(s, a, limit);
  }

  lemma OtherStepProbed(s: State, a: Action, limit: Time)
    requires TablesOk(s) && SweepsOk(s) && ImportsOk(s, limit)
    requires !a.ClearHistory? && !a.Probe? && !a.Insert? && !a.ImportFile?
    ensures var s' := Step(s, a);
            forall w :: w in s'.sweeps && s'.sweeps[w].work.Probed? && Retained(s', s'.sweeps[w].work.triple, limit) ==>
              s'.sweeps[w].work.triple !in s'.imports || s'.sweeps[w].work.triple.queue !in s'.queues
  {
    var s' := Step(s, a);
    OtherStepWork(s, a);
    TablesGrow(s, a);
    forall w | w in s'.sweeps && s'.sweeps[w].work.Probed? && Retained(s', s'.sweeps[w].work.triple, limit)
      ensures s'.sweeps[w].work.triple !in s'.imports || s'.sweeps[w].work.triple.queue !in s'.queues
    {
      assert SweepOk(s, s.sweeps[w]);
    }
  }

  lemma OtherStepWork(s: State, a: Action)
    requires !a.ClearHistory? && !a.Probe? && !a.Insert? && !a.ImportFile?
    ensures var s' := Step(s, a);
            && s'.imports == s.imports
            && (forall w :: w in s'.sweeps && s'.sweeps[w].work != Idle ==>
                  w in s.sweeps && s'.sweeps[w].work == s.sweeps[w].work)
  {
  }

  /** An event in hand that has no row was not imported, unless its queue is gone. */
  lemma ProbeFindsNew(s: State, w: WorkerId, d: Delivery, key: Key, limit: Time)
    requires Inv(s, limit) && CanTake(s, w, d, key)
    requires !HasRow(s, Triple(d.msg, d.queue, key)) && Retained(s, Triple(d.msg, d.queue, key), limit)
    ensures Triple(d.msg, d.queue, key) !in s.imports || d.queue !in s.queues
  {
    assert Received(s, Triple(d.msg, d.queue, key));
  }

  lemma ProbeStep(s: State, w: WorkerId, d: Delivery, key: Key, limit: Time)
    requires Within(limit) && Inv(s, limit) && Young(s, limit) && CanTake(s, w, d, key)
    ensures ImportsOk(Step(s, Probe(w, d, key)), limit)
  {
    var a, t := Probe(w, d, key), Triple(d.msg, d.queue, key);
    var s' := Step(s, a);
    assert s'.messages == s.messages && s'.nextQueue == s.nextQueue && s'.imports == s.imports;
    ImportsStayCovered(s, a, limit);
    if Retained(s, t, limit) && !HasRow(s, t) {
      ProbeFindsNew(s, w, d, key, limit);
    }
    forall v | v in s'.sweeps ensures v == w {
      OwnersAreOne(s, v, w);
    }
    assert !s'.sweeps[w].work.Recorded?;
  }

  /** The event whose row is committed was not imported before, and is covered now. */
  lemma InsertStep(s: State, w: WorkerId, limit: Time)
    requires Within(limit) && Inv(s, limit) && Young(s, limit) && w in s.sweeps && s.sweeps[w].work.Probed?
    ensures ImportsOk(Step(s, Insert(w)), limit)
  {
    var a, t := Insert(w), s.sweeps[w].work.triple;
    var s' := Step(s, a);
    assert s'.messages == s.messages && s'.nextQueue == s.nextQueue && s'.imports == s.imports;
    ImportsStayCovered(s, a, limit);
    if s'.sweeps[w].work.Recorded? {
      assert s'.events[s.nextEvent].triple == t;
    }
    forall v | v in s'.sweeps ensures v == w {
      OwnersAreOne(s, v, w);
    }
  }

  lemma ImportStep(s: State, w: WorkerId, limit: Time)
    requires Within(limit) && Inv(s, limit) && Young(s, limit) && w in s.sweeps && s.sweeps[w].work.Recorded?
    ensures ImportsOk(Step(s, ImportFile(w)), limit)
  {
    var a, t := ImportFile(w), s.sweeps[w].work.triple;
    var s' := Step(s, a);
    assert s'.messages == s.messages && s'.nextQueue == s.nextQueue && s'.imports == s.imports + multiset{t};
    assert SweepOk(s, s.sweeps[w]);
    ImportsStayCovered(s, a, limit);
    if Retained(s, t, limit) {
      RecordedStaysCovered(s, a, w, limit);
    }
    forall u | u in s'.imports && Retained(s', u, limit) ensures s'.imports[u] == 1 && Covered(s', u) {
      assert u != t ==> s'.imports[u] == s.imports[u];
    }
    forall v | v in s'.sweeps ensures v == w {
      OwnersAreOne(s, v, w);
    }
  }

  /** The event was imported, or a worker is about to import it. */
  ghost predicate TakenUp(s: State, t: Triple) {
    t in s.imports || exists w :: w in s.sweeps && s.sweeps[w].work == Recorded(t)
  }

  /** Clearing the history of these queues removes no row that is still needed: the message of no event
      taken up can arrive again. */
  ghost predicate Harmless(s: State, queues: set<QueueId>, limit: Time) {
    forall t :: TakenUp(s, t) && Retained(s, t, limit) && t.queue in queues && t.queue in s.queues ==>
      !CanArrive(s, t)
  }

  lemma ClearLeaves(s: State, queues: set<QueueId>, t: Triple)
    ensures var s' := Step(s, ClearHistory(queues));
            && s' == s.(events := s'.events)
            && (CanArrive(s', t) <==> CanArrive(s, t))
            && (HasRow(s', t) <==> HasRow(s, t) && t.queue !in queues)
  {
    var s' := Step(s, ClearHistory(queues));
    if HasRow(s, t) && t.queue !in queues {
      var e :| e in s.events && s.events[e].triple == t;
      assert s'.events[e].triple == t;
    }
    assert s'.sweeps == s.sweeps;
  }

  lemma ClearStep(s: State, queues: set<QueueId>, limit: Time)
    requires Inv(s, limit) && Harmless(s, queues, limit)
    ensures ImportsOk(Step(s, ClearHistory(queues)), limit)
  {
    var s' := Step(s, ClearHistory(queues));
    assert s' == s.(events := s'.events);
    forall t | t in s'.imports && Retained(s', t, limit) ensures s'.imports[t] == 1 && Covered(s', t) {
      assert TakenUp(s, t) && Covered(s, t);
      ClearLeaves(s, queues, t);
    }
    forall w | w in s'.sweeps && s'.sweeps[w].work.Recorded? && Retained(s', s'.sweeps[w].work.triple, limit)
      ensures s'.sweeps[w].work.triple !in s'.imports && Covered(s', s'.sweeps[w].work.triple)
    {
      var t := s.sweeps[w].work.triple;
      assert TakenUp(s, t) && Covered(s, t);
      ClearLeaves(s, queues, t);
    }
    assert forall t :: t in s'.imports ==> Known(s, t) && Known(s', t);
  }

  /** A clearing must be harmless; every other action may come at any time. */
  ghost predicate Allowed(s: State, a: Action, limit: Time) {
    a.ClearHistory? ==> Harmless(s, a.queues, limit)
  }

  lemma ImportsStep(s: State, a: Action, limit: Time)
    requires Within(limit) && Inv(s, limit) && Young(s, limit) && Allowed(s, a, limit)
    ensures ImportsOk(Step(s, a), limit)
  {
    match a
    case Probe(w, d, key) =>
      if CanTake(s, w, d, key) {
        ProbeStep(s, w, d, key, limit);
      }
    case Insert(w) =>
      if w in s.sweeps && s.sweeps[w].work.Probed? {
        InsertStep(s, w, limit);
      }
    case ImportFile(w) =>
      if w in s.sweeps && s.sweeps[w].work.Recorded? {
        ImportStep(s, w, limit);
      }
    case ClearHistory(queues) => ClearStep(s, queues, limit);
    case _ => OtherStep(s, a, limit);
  }

  lemma StepKeeps(s: State, a: Action, limit: Time)
    requires Within(limit) && Inv(s, limit) && Young(s, limit) && Allowed(s, a, limit)
    ensures Inv(Step(s, a), limit)
  {
    LockStep(s, a);
    TablesStep(s, a);
    SweepsStep(s, a);
    ImportsStep(s, a, limit);
  }

  /** A run of young sweeps in which every clearing is harmless. */
  ghost predicate CarefulRun(s: State, actions: seq<Action>, limit: Time)
    decreases |actions|
  {
    && Young(s, limit)
    && (actions != [] ==>
          Allowed(s, actions[0], limit) && CarefulRun(Step(s, actions[0]), actions[1..], limit))
  }

  lemma {:induction false} QuietIsCareful(s: State, actions: seq<Action>, limit: Time)
    requires YoungRun(s, actions, limit) && Quiet(actions)
    ensures CarefulRun(s, actions, limit)
    decreases |actions|
  {
    if actions != [] {
      assert !actions[0].ClearHistory?;
      QuietIsCareful(Step(s, actions[0]), actions[1..], limit);
    }
  }

  lemma {:induction false} RunKeeps(s: State, actions: seq<Action>, limit: Time)
    requires Within(limit) && Inv(s, limit) && CarefulRun(s, actions, limit)
    ensures Inv(Run(s, actions), limit) && Young(Run(s, actions), limit)
    decreases |actions|
  {
    if actions != [] {
      StepKeeps(s, actions[0], limit);
      RunKeeps(Step(s, actions[0]), actions[1..], limit);
    }
  }

  lemma InvMeansOnce(s: State, t: Triple, limit: Time)
    requires Inv(s, limit) && (t in s.imports ==> Retained(s, t, limit))
    ensures s.imports[t] <= 1
  {
  }

  /** As long as no sweep outlives the limit, and the limit not the lock, and the history is cleared only
      of what can no longer arrive, an event of a message is imported at most once, over any number of
      deliveries, workers, crashes and cleanups, provided the queue's retention leaves the limit to the
      age at which events are cleaned up. */
  lemma AtMostOneImport(actions: seq<Action>, t: Triple, limit: Time)
    requires Within(limit) && CarefulRun(INITIAL, actions, limit)
    requires Retained(Run(INITIAL, actions), t, limit)
    ensures Run(INITIAL, actions).imports[t] <= 1
  {
    RunKeeps(INITIAL, actions, limit);
    InvMeansOnce(Run(INITIAL, actions), t, limit);
  }

  /** So it is for every message of a queue the application created itself, for which it asks SQS to retain
      messages for four days, with sweeps as long as the lock lives. */
  lemma CreatedQueuesImportOnce(actions: seq<Action>, t: Triple)
    requires CarefulRun(INITIAL, actions, LOCK_TTL)
    requires t.msg in Run(INITIAL, actions).messages
    requires Run(INITIAL, actions).messages[t.msg].retention == 345600.0
    ensures Run(INITIAL, actions).imports[t] <= 1
  {
    AtMostOneImport(actions, t, LOCK_TTL);
  }

  // ----- no event is lost -----

  lemma {:induction false} RunAppend(s: State, a: seq<Action>, b: seq<Action>)
    ensures Run(s, a + b) == Run(Run(s, a), b)
    decreases |a|
  {
    if a == [] {
      assert a + b == b;
    } else {
      assert (a + b)[1..] == a[1..] + b;
      RunAppend(Step(s, a[0]), a[1..], b);
    }
  }

  /** Rows, the events a sweep is done with, and those of deleted messages are all recorded. */
  ghost predicate NothingLost(s: State) {
    && (forall m :: m in s.messages ==> m < s.nextMsg)
    && (forall e :: e in s.events ==> s.events[e].triple in s.recorded)
    && (forall w :: w in s.sweeps ==> s.sweeps[w].handled <= s.recorded)
    && (forall d, key :: d in s.deleted && d.msg in s.messages && key in s.messages[d.msg].keys ==>
          Triple(d.msg, d.queue, key) in s.recorded)
    && (forall d :: d in s.deleted ==> d.msg in s.messages)
  }

  lemma NothingLostStep(s: State, a: Action)
    requires NothingLost(s)
    ensures NothingLost(Step(s, a))
  {
    if a.Delete? {
      DeleteLosesNothing(s, a.w, a.d);
    } else if a.Probe? || a.Insert? || a.RecordFailure? {
      RowsLoseNothing(s, a);
    } else if LeavesTables(a) {
      WorkersLoseNothing(s, a);
    } else {
      OthersLoseNothing(s, a);
    }
  }

  lemma WorkersLoseNothing(s: State, a: Action)
    requires NothingLost(s) && LeavesTables(a) && !a.Delete? && !a.Probe?
    ensures NothingLost(Step(s, a))
  {
    WorkersLeaveTables(s, a);
    if a.Receive? || a.ImportFile? || a.GiveUp? {
      WorkLeavesHandled(s, a);
    } else {
      ComingAndGoingLeavesHandled(s, a);
    }
  }

  lemma ComingAndGoingLeavesHandled(s: State, a: Action)
    requires a.Acquire? || a.Release? || a.Crash?
    ensures var s' := Step(s, a);
            && s'.recorded == s.recorded && s'.deleted == s.deleted
            && forall w :: w in s'.sweeps ==>
                 s'.sweeps[w].handled == {} || (w in s.sweeps && s'.sweeps[w].handled == s.sweeps[w].handled)
  {
  }

  lemma WorkLeavesHandled(s: State, a: Action)
    requires a.Receive? || a.ImportFile? || a.GiveUp?
    ensures var s' := Step(s, a);
            && s'.recorded == s.recorded && s'.deleted == s.deleted
            && forall w :: w in s'.sweeps ==> w in s.sweeps && s'.sweeps[w].handled == s.sweeps[w].handled
  {
  }

  /** A message is deleted only when the sweep is done with all of its events. */
  lemma DeleteLosesNothing(s: State, w: WorkerId, d: Delivery)
    requires NothingLost(s)
    ensures NothingLost(Step(s, Delete(w, d)))
  {
  }

  lemma RowsLoseNothing(s: State, a: Action)
    requires NothingLost(s) && (a.Probe? || a.Insert? || a.RecordFailure?)
    ensures NothingLost(Step(s, a))
  {
  }

  /** Cleanups and removals of rows leave what was recorded. */
  lemma OthersLoseNothing(s: State, a: Action)
    requires NothingLost(s) && ByOthers(a)
    ensures NothingLost(Step(s, a))
  {
    OthersLeaveWorkers(s, a);
  }

  lemma {:induction false} NothingLostRun(s: State, actions: seq<Action>)
    requires NothingLost(s)
    ensures NothingLost(Run(s, actions))
    decreases |actions|
  {
    if actions != [] {
      NothingLostStep(s, actions[0]);
      NothingLostRun(Step(s, actions[0]), actions[1..]);
    }
  }

  lemma RecordedByRow(s: State, a: Action, t: Triple)
    requires t !in s.recorded && t in Step(s, a).recorded
    ensures HasRow(Step(s, a), t)
  {
    assert Step(s, a).events[s.nextEvent].triple == t;
  }

  /** What is recorded had a committed row at some moment of the run. */
  lemma {:induction false} RecordedHadRow(actions: seq<Action>, t: Triple) returns (n: nat)
    requires t in Run(INITIAL, actions).recorded
    ensures n <= |actions| && HasRow(Run(INITIAL, actions[..n]), t)
    decreases |actions|
  {
    var last := |actions| - 1;
    assert actions != [];
    var before := actions[..last];
    assert actions == before + [actions[last]];
    RunAppend(INITIAL, before, [actions[last]]);
    assert [actions[last]][1..] == [];
    if t in Run(INITIAL, before).recorded {
      n := RecordedHadRow(before, t);
      assert before[..n] == actions[..n];
    } else {
      RecordedByRow(Run(INITIAL, before), actions[last], t);
      n := |actions|;
      assert actions[..n] == actions;
    }
  }

  /** Whatever the timing, the crashes, the failures and the removals: once a message was deleted, a
      row was committed for each of its create events at some moment before. */
  lemma NoEventIsLost(actions: seq<Action>, d: Delivery, key: Key) returns (n: nat)
    requires d in Run(INITIAL, actions).deleted
    requires d.msg in Run(INITIAL, actions).messages && key in Run(INITIAL, actions).messages[d.msg].keys
    ensures n <= |actions| && HasRow(Run(INITIAL, actions[..n]), Triple(d.msg, d.queue, key))
  {
    NothingLostRun(INITIAL, actions);
    n := RecordedHadRow(actions, Triple(d.msg, d.queue, key));
  }
}
