/** The exact bounds of the event-driven imports: how long a sweep may take, how long messages may be
    retained and what may be cleared, so that no event is imported twice. */
module SqsBounds {
  import opened Prelude
  import opened SqsEvents
  import opened SqsSweep

  // ----- scripts -----

  lemma {:induction false} YoungAppend(s: State, a: seq<Action>, b: seq<Action>, limit: Time)
    ensures Run(s, a + b) == Run(Run(s, a), b)
    ensures YoungRun(s, a + b, limit) <==> YoungRun(s, a, limit) && YoungRun(Run(s, a), b, limit)
    decreases |a|
  {
    if a == [] {
      assert a + b == b;
    } else {
      assert (a + b)[1..] == a[1..] + b;
      YoungAppend(Step(s, a[0]), a[1..], b, limit);
    }
  }

  /** Runs of a known length, one state per step. */
  lemma {:induction false} RunVisits(states: seq<State>, actions: seq<Action>, limit: Time)
    requires |states| == |actions| + 1
    requires forall i :: 0 <= i < |actions| ==> states[i + 1] == Step(states[i], actions[i])
    ensures Run(states[0], actions) == states[|actions|]
    ensures YoungRun(states[0], actions, limit) <==> forall i :: 0 <= i < |states| ==> Young(states[i], limit)
    decreases |actions|
  {
    if actions != [] {
      assert states[1] == Step(states[0], actions[0]);
      RunVisits(states[1..], actions[1..], limit);
      assert forall i :: 0 <= i < |states[1..]| ==> states[1..][i] == states[i + 1];
    }
  }

  lemma RunPush(s: State, a: Action, rest: seq<Action>, limit: Time)
    ensures Run(s, [a] + rest) == Run(Step(s, a), rest)
    ensures YoungRun(s, [a] + rest, limit) <==> Young(s, limit) && YoungRun(Step(s, a), rest, limit)
  {
    assert ([a] + rest)[1..] == rest;
  }

  lemma RunsInSteps(s: State, a: Action, b: Action, c: Action, d: Action, limit: Time)
    ensures var s1, s2, s3, s4 := Step(s, a), Step(Step(s, a), b), Step(Step(Step(s, a), b), c),
                                  Step(Step(Step(Step(s, a), b), c), d);
            && Run(s, [a, b, c, d]) == s4
            && (YoungRun(s, [a, b, c, d], limit) <==>
                  Young(s, limit) && Young(s1, limit) && Young(s2, limit) && Young(s3, limit) && Young(s4, limit))
  {
    assert [a, b, c, d] == [a] + ([b] + ([c] + ([d] + [])));
    var s1 := Step(s, a);
    var s2 := Step(s1, b);
    var s3 := Step(s2, c);
    RunPush(s, a, [b] + ([c] + ([d] + [])), limit);
    RunPush(s1, b, [c] + ([d] + []), limit);
    RunPush(s2, c, [d] + [], limit);
    RunPush(s3, d, [], limit);
  }

  /** One sweep that handles one event and waits a while before it, with a cleanup in between. */
  function SweepScript(w: WorkerId, d: Delivery, key: Key, wait: Time): seq<Action> {
    [Acquire(w), Receive(w, d), Tick(wait), Cleanup, Probe(w, d, key), Insert(w), ImportFile(w), Release(w)]
  }

  ghost predicate CanSweep(s: State, w: WorkerId, d: Delivery, key: Key) {
    && s.sweeps == map[] && LockFree(s) && w !in s.used
    && d.queue in s.queues && d.queue < s.nextQueue
    && d.msg in s.messages && key in s.messages[d.msg].keys
    && s.now < s.messages[d.msg].sentAt + s.messages[d.msg].retention
  }

  lemma SweepOpens(s: State, w: WorkerId, d: Delivery, key: Key, wait: Time, limit: Time)
    requires CanSweep(s, w, d, key) && 0.0 <= wait < limit <= LOCK_TTL
    ensures var script := [Acquire(w), Receive(w, d), Tick(wait), Cleanup];
            && YoungRun(s, script, limit)
            && Run(s, script) == s.(
                 now := s.now + wait, lock := Some(Lock(w, s.now + LOCK_TTL)), used := s.used + {w},
                 sweeps := map[w := Sweep(s.now, {d}, Idle, {})], events := Run(s, script).events)
            && (forall e :: e in Run(s, script).events ==>
                  e in s.events && Run(s, script).events[e] == s.events[e]
                  && s.events[e].createdAt >= s.now + wait - EVENT_AGE)
  {
    RunsInSteps(s, Acquire(w), Receive(w, d), Tick(wait), Cleanup, limit);
    OpeningSteps(s, w, d, key, limit);
    var s2 := Step(Step(s, Acquire(w)), Receive(w, d));
    CleanupSteps(s2, wait);
  }

  lemma OpeningSteps(s: State, w: WorkerId, d: Delivery, key: Key, limit: Time)
    requires CanSweep(s, w, d, key) && 0.0 < limit
    ensures var s1 := Step(s, Acquire(w));
            var s2 := Step(s1, Receive(w, d));
            && Young(s, limit) && Young(s1, limit) && Young(s2, limit)
            && s2 == s.(lock := Some(Lock(w, s.now + LOCK_TTL)), used := s.used + {w},
                        sweeps := map[w := Sweep(s.now, {d}, Idle, {})])
  {
    assert {} + {d} == {d};
  }

  /** Waiting, and the cleanup that runs meanwhile. */
  lemma CleanupSteps(s: State, wait: Time)
    requires 0.0 <= wait
    ensures var s1 := Step(s, Tick(wait));
            var s2 := Step(s1, Cleanup);
            && s1 == s.(now := s.now + wait) && s2 == s1.(events := s2.events)
            && forall e :: e in s2.events ==>
                 e in s.events && s2.events[e] == s.events[e] && s.events[e].createdAt >= s.now + wait - EVENT_AGE
  {
  }

  /** An event that has no row, or only rows old enough to be cleaned up, is imported. */
  lemma UnseenEventIsImported(s: State, w: WorkerId, d: Delivery, key: Key, wait: Time, limit: Time)
    requires CanSweep(s, w, d, key) && 0.0 <= wait < limit <= LOCK_TTL
    requires forall e :: e in s.events && s.events[e].triple == Triple(d.msg, d.queue, key) ==>
               s.events[e].createdAt < s.now + wait - EVENT_AGE
    ensures YoungRun(s, SweepScript(w, d, key, wait), limit)
    ensures var s' := Run(s, SweepScript(w, d, key, wait));
            && s'.imports == s.imports + multiset{Triple(d.msg, d.queue, key)}
            && s' == s.(now := s.now + wait, lock := None, used := s.used + {w}, events := s'.events,
                        nextEvent := s.nextEvent + 1, imports := s'.imports, recorded := s'.recorded)
            && (forall e :: e in s'.events ==>
                  s'.events[e] == EventRow(Triple(d.msg, d.queue, key), s'.now)
                  || (e in s.events && s'.events[e] == s.events[e]))
  {
    var t := Triple(d.msg, d.queue, key);
    SweepOpens(s, w, d, key, wait, limit);
    var s4 := Run(s, [Acquire(w), Receive(w, d), Tick(wait), Cleanup]);
    assert s4.sweeps.Keys == {w} && !HasRow(s4, t);
    EventIsTaken(s4, w, d, key, limit);
    var first, second := [Acquire(w), Receive(w, d), Tick(wait), Cleanup],
                         [Probe(w, d, key), Insert(w), ImportFile(w), Release(w)];
    assert SweepScript(w, d, key, wait) == first + second;
    YoungAppend(s, first, second, limit);
  }

  lemma EventIsTaken(s: State, w: WorkerId, d: Delivery, key: Key, limit: Time)
    requires CanTake(s, w, d, key) && Holds(s, w) && Young(s, limit) && s.sweeps.Keys == {w}
    requires d.queue in s.queues && !HasRow(s, Triple(d.msg, d.queue, key))
    ensures var t, script := Triple(d.msg, d.queue, key), [Probe(w, d, key), Insert(w), ImportFile(w), Release(w)];
            && YoungRun(s, script, limit)
            && Run(s, script) == s.(lock := None, sweeps := map[], imports := s.imports + multiset{t},
                                    events := s.events[s.nextEvent := EventRow(t, s.now)],
                                    nextEvent := s.nextEvent + 1, recorded := s.recorded + {t})
  {
    RunsInSteps(s, Probe(w, d, key), Insert(w), ImportFile(w), Release(w), limit);
    EventIsRecorded(s, w, d, key, limit);
    RecordIsImported(Step(Step(s, Probe(w, d, key)), Insert(w)), w, Triple(d.msg, d.queue, key), limit);
  }

  lemma EventIsRecorded(s: State, w: WorkerId, d: Delivery, key: Key, limit: Time)
    requires CanTake(s, w, d, key) && d.queue in s.queues && !HasRow(s, Triple(d.msg, d.queue, key))
    requires Young(s, limit) && s.sweeps.Keys == {w}
    ensures var t := Triple(d.msg, d.queue, key);
            var s1 := Step(s, Probe(w, d, key));
            var s2 := Step(s1, Insert(w));
            && Young(s1, limit) && Young(s2, limit) && s2.sweeps.Keys == {w} && s2.sweeps[w].work == Recorded(t)
            && s2 == WithRow(s, t).(sweeps := s2.sweeps)
  {
  }

  lemma RecordIsImported(s: State, w: WorkerId, t: Triple, limit: Time)
    requires Holds(s, w) && Young(s, limit) && s.sweeps.Keys == {w} && s.sweeps[w].work == Recorded(t)
    ensures var s1 := Step(s, ImportFile(w));
            var s2 := Step(s1, Release(w));
            && Young(s1, limit) && Young(s2, limit)
            && s2 == s.(lock := None, sweeps := map[], imports := s.imports + multiset{t})
  {
    assert Step(Step(s, ImportFile(w)), Release(w)).sweeps == map[];
  }

  /** A probe that finds no row. */
  lemma ProbeFindsNone(s: State, w: WorkerId, d: Delivery, key: Key, limit: Time)
    requires CanTake(s, w, d, key) && !HasRow(s, Triple(d.msg, d.queue, key)) && Young(s, limit)
    ensures var s1 := Step(s, Probe(w, d, key));
            && s1 == WithWork(s, w, Probed(Triple(d.msg, d.queue, key))) && Young(s1, limit)
            && forall t :: HasRow(s1, t) <==> HasRow(s, t)
  {
    assert Step(s, Probe(w, d, key)).events == s.events;
  }

  lemma RowIsCommitted(s: State, w: WorkerId, limit: Time)
    requires w in s.sweeps && s.sweeps[w].work.Probed? && s.sweeps[w].work.triple.queue in s.queues
    requires Young(s, limit)
    ensures var s1 := Step(s, Insert(w));
            && Young(s1, limit) && w in s1.sweeps && s1.sweeps[w].work == Recorded(s.sweeps[w].work.triple)
            && s1.imports == s.imports && s1.messages == s.messages && s1.queues == s.queues
            && s1.sweeps == s.sweeps[w := s1.sweeps[w]]
  {
  }

  lemma RowIsImported(s: State, w: WorkerId, limit: Time)
    requires w in s.sweeps && s.sweeps[w].work.Recorded? && Young(s, limit)
    ensures var s1 := Step(s, ImportFile(w));
            && Young(s1, limit) && s1.imports == s.imports + multiset{s.sweeps[w].work.triple}
            && s1.messages == s.messages && s1.queues == s.queues
            && s1.sweeps == s.sweeps[w := s.sweeps[w].(work := Idle)]
  {
  }

  /** What a worker does with a probed event, whoever else is inside. */
  lemma RecordAndImport(s: State, w: WorkerId, limit: Time)
    requires w in s.sweeps && s.sweeps[w].work.Probed? && s.sweeps[w].work.triple.queue in s.queues
    requires Young(s, limit)
    ensures var s1 := Step(s, Insert(w));
            var s2 := Step(s1, ImportFile(w));
            && Young(s1, limit) && Young(s2, limit)
            && s2.imports == s.imports + multiset{s.sweeps[w].work.triple}
            && s2.messages == s.messages && s2.queues == s.queues && s2.sweeps.Keys == s.sweeps.Keys
            && (forall v :: v in s.sweeps && v != w ==> s2.sweeps[v] == s.sweeps[v])
  {
    RowIsCommitted(s, w, limit);
    RowIsImported(Step(s, Insert(w)), w, limit);
  }

  // ----- how long a sweep may take -----

  /** A sweep that outlives the lock lets a second worker in. */
  lemma OverrunLetsTwoIn(limit: Time)
    requires limit > LOCK_TTL
    ensures YoungRun(INITIAL, [Acquire(0), Tick(LOCK_TTL), Acquire(1)], limit)
    ensures Run(INITIAL, [Acquire(0), Tick(LOCK_TTL), Acquire(1)]).sweeps.Keys == {0, 1}
  {
    var s1 := Step(INITIAL, Acquire(0));
    var s2 := Step(s1, Tick(LOCK_TTL));
    var s3 := Step(s2, Acquire(1));
    RunVisits([INITIAL, s1, s2, s3], [Acquire(0), Tick(LOCK_TTL), Acquire(1)], limit);
  }

  /** The lock keeps sweeps apart exactly when none of them may outlive it. */
  lemma LockBoundIsExact(limit: Time)
    ensures limit <= 60.0 <==>
            forall actions: seq<Action>, v: WorkerId, w: WorkerId ::
              (YoungRun(INITIAL, actions, limit)
               && v in Run(INITIAL, actions).sweeps && w in Run(INITIAL, actions).sweeps) ==> v == w
  {
    if limit <= LOCK_TTL {
      forall actions: seq<Action>, v: WorkerId, w: WorkerId | YoungRun(INITIAL, actions, limit)
          && v in Run(INITIAL, actions).sweeps && w in Run(INITIAL, actions).sweeps
        ensures v == w
      {
        OneSweepAtATime(actions, limit, v, w);
      }
    } else {
      OverrunLetsTwoIn(limit);
      var sweeps := Run(INITIAL, [Acquire(0), Tick(LOCK_TTL), Acquire(1)]).sweeps;
      assert 0 in sweeps.Keys && 1 in sweeps.Keys;
    }
  }

  /** A sweep that crashed keeps everyone out until its lock expires: over any run up to then nobody is
      inside and the lock stands. */
  lemma {:induction false} CrashKeepsOut(s: State, actions: seq<Action>)
    requires s.sweeps == map[] && s.lock.Some? && Run(s, actions).now < s.lock.value.expires
    ensures Run(s, actions).sweeps == map[] && Run(s, actions).lock == s.lock
    decreases |actions|
  {
    if actions != [] {
      var s1 := Step(s, actions[0]);
      TimePasses(s1, actions[1..]);
      NobodyEnters(s, actions[0]);
      CrashKeepsOut(s1, actions[1..]);
    }
  }

  lemma NobodyEnters(s: State, a: Action)
    requires s.sweeps == map[] && !LockFree(s)
    ensures Step(s, a).sweeps == map[] && Step(s, a).lock == s.lock
  {
    if ByOthers(a) {
      OthersLeaveWorkers(s, a);
    }
  }

  lemma {:induction false} TimePasses(s: State, actions: seq<Action>)
    ensures s.now <= Run(s, actions).now
    decreases |actions|
  {
    if actions != [] {
      TimePasses(Step(s, actions[0]), actions[1..]);
    }
  }

  /** A crash takes the worker out and leaves the rest, its lock included. */
  lemma CrashLeaves(s: State, w: WorkerId)
    requires w in s.sweeps
    ensures w !in Step(s, Crash(w)).sweeps && Step(s, Crash(w)) == s.(sweeps := s.sweeps - {w})
  {
  }

  /** The cleanup removes exactly the rows more than seven days old. */
  lemma CleanupIsExact(s: State, e: nat)
    requires e in s.events
    ensures e in Step(s, Cleanup).events <==> s.now - s.events[e].createdAt <= 604800.0
  {
  }

  /** The rows of its events go with a queue, and no others. */
  lemma RemovalTakesRows(s: State, q: QueueId)
    ensures var s' := Step(s, RemoveQueue(q));
            && q !in s'.queues && (forall e :: e in s'.events ==> e in s.events && s'.events[e] == s.events[e])
            && forall e :: e in s.events ==> (e in s'.events <==> s.events[e].triple.queue != q)
  {
  }

  // ----- how long a sweep may take and a message live -----

  const THE_EVENT := Triple(0, 0, "k")
  const THE_DELIVERY := Delivery(0, 0)

  /** A quiet run of young sweeps in which the message of `t` has the given retention. */
  ghost predicate BoundedRun(actions: seq<Action>, t: Triple, retention: Time, limit: Time) {
    && YoungRun(INITIAL, actions, limit) && Quiet(actions)
    && t.msg in Run(INITIAL, actions).messages
    && Run(INITIAL, actions).messages[t.msg].retention == retention
  }

  /** No event is imported twice exactly when no sweep may outlive the lock, and no message a sweep that
      begins while it is retained may outlive the rows of its events: whatever the limit on the sweeps
      and the retention, every run within them imports at most once, or some run imports twice. */
  lemma ImportBoundIsExact(retention: Time, limit: Time)
    requires 0.0 < retention && 0.0 < limit
    ensures limit <= 60.0 && retention + limit <= 604800.0 <==>
            forall actions: seq<Action>, t: Triple ::
              BoundedRun(actions, t, retention, limit) ==> Run(INITIAL, actions).imports[t] <= 1
  {
    if limit <= LOCK_TTL && retention + limit <= EVENT_AGE {
      forall actions: seq<Action>, t: Triple | BoundedRun(actions, t, retention, limit)
        ensures Run(INITIAL, actions).imports[t] <= 1
      {
        QuietIsCareful(INITIAL, actions, limit);
        AtMostOneImport(actions, t, limit);
      }
    } else {
      var actions;
      if limit > LOCK_TTL {
        actions := OverrunImportsTwice(retention, limit);
      } else {
        actions := LongRetentionImportsTwice(retention, limit);
      }
      assert BoundedRun(actions, THE_EVENT, retention, limit);
      assert Run(INITIAL, actions).imports[THE_EVENT] == 2;
    }
  }

  /** With sweeps as long as the lock lives the bound is on the retention alone. */
  lemma RetentionBoundIsExact(retention: Time)
    requires 0.0 < retention
    ensures retention + 60.0 <= 604800.0 <==>
            forall actions: seq<Action>, t: Triple ::
              BoundedRun(actions, t, retention, LOCK_TTL) ==> Run(INITIAL, actions).imports[t] <= 1
  {
    ImportBoundIsExact(retention, LOCK_TTL);
  }

  // an overrun

  /** The second worker enters when the lock of the first expires, and both have the message. */
  function BothInside(retention: Time): State {
    State(LOCK_TTL, Some(Lock(1, LOCK_TTL + LOCK_TTL)),
          map[0 := Sweep(0.0, {THE_DELIVERY}, Idle, {}), 1 := Sweep(LOCK_TTL, {THE_DELIVERY}, Idle, {})], {0, 1},
          {0}, 1, map[0 := Message(LOCK_TTL, retention, ["k"])], 1, map[], 0, multiset{}, {}, {})
  }

  function Entering(retention: Time): seq<Action> {
    [AddQueue, Acquire(0), Tick(LOCK_TTL), Send(retention, ["k"]), Receive(0, THE_DELIVERY), Acquire(1),
     Receive(1, THE_DELIVERY)]
  }

  lemma BothEnter(retention: Time, limit: Time)
    requires 0.0 < retention && limit > LOCK_TTL
    ensures YoungRun(INITIAL, Entering(retention), limit)
    ensures Run(INITIAL, Entering(retention)) == BothInside(retention)
  {
    var s1 := Step(INITIAL, AddQueue);
    var s2 := Step(s1, Acquire(0));
    var s3 := Step(s2, Tick(LOCK_TTL));
    var s4 := Step(s3, Send(retention, ["k"]));
    var s5 := Step(s4, Receive(0, THE_DELIVERY));
    var s6 := Step(s5, Acquire(1));
    var s7 := Step(s6, Receive(1, THE_DELIVERY));
    assert s4.sweeps == map[0 := Sweep(0.0, {}, Idle, {})];
    assert s5.sweeps[0] == Sweep(0.0, {THE_DELIVERY}, Idle, {});
    assert s6.sweeps == s5.sweeps[1 := Sweep(LOCK_TTL, {}, Idle, {})];
    assert s7.sweeps == BothInside(retention).sweeps;
    RunVisits([INITIAL, s1, s2, s3, s4, s5, s6, s7], Entering(retention), limit);
  }

  /** Both probe before either commits its row. */
  const RACE := [Probe(0, THE_DELIVERY, "k"), Probe(1, THE_DELIVERY, "k"), Insert(0), ImportFile(0), Insert(1),
                 ImportFile(1)]

  lemma BothImport(retention: Time, limit: Time)
    requires limit > LOCK_TTL
    ensures YoungRun(BothInside(retention), RACE, limit)
    ensures var s := Run(BothInside(retention), RACE);
            s.imports == multiset{THE_EVENT, THE_EVENT} && s.messages == BothInside(retention).messages
  {
    var s0, d := BothInside(retention), THE_DELIVERY;
    var s1 := Step(s0, Probe(0, d, "k"));
    var s2 := Step(s1, Probe(1, d, "k"));
    var s3 := Step(s2, Insert(0));
    var s4 := Step(s3, ImportFile(0));
    var s5 := Step(s4, Insert(1));
    var s6 := Step(s5, ImportFile(1));
    ProbeFindsNone(s0, 0, d, "k", limit);
    ProbeFindsNone(s1, 1, d, "k", limit);
    RecordAndImport(s2, 0, limit);
    RecordAndImport(s4, 1, limit);
    RunVisits([s0, s1, s2, s3, s4, s5, s6], RACE, limit);
  }

  lemma OverrunImportsTwice(retention: Time, limit: Time) returns (actions: seq<Action>)
    requires 0.0 < retention && limit > LOCK_TTL
    ensures BoundedRun(actions, THE_EVENT, retention, limit)
    ensures Run(INITIAL, actions).imports[THE_EVENT] == 2
  {
    BothEnter(retention, limit);
    BothImport(retention, limit);
    actions := Entering(retention) + RACE;
    YoungAppend(INITIAL, Entering(retention), RACE, limit);
  }

  // a long retention

  function FirstImport(retention: Time): seq<Action> {
    [AddQueue, Send(retention, ["k"])] + SweepScript(0, THE_DELIVERY, "k", 0.0)
  }

  lemma FirstImportRuns(retention: Time, limit: Time)
    requires 0.0 < retention && Within(limit)
    ensures YoungRun(INITIAL, FirstImport(retention), limit)
    ensures var s := Run(INITIAL, FirstImport(retention));
            && s.imports == multiset{THE_EVENT} && s.messages == map[0 := Message(0.0, retention, ["k"])]
            && s.sweeps == map[] && s.lock == None && s.used == {0} && s.queues == {0} && s.nextQueue == 1
            && s.now == 0.0
            && (forall e :: e in s.events ==> s.events[e] == EventRow(THE_EVENT, 0.0))
  {
    var s1 := Step(INITIAL, AddQueue);
    var s2 := Step(s1, Send(retention, ["k"]));
    RunVisits([INITIAL, s1, s2], [AddQueue, Send(retention, ["k"])], limit);
    YoungAppend(INITIAL, [AddQueue, Send(retention, ["k"])], SweepScript(0, THE_DELIVERY, "k", 0.0), limit);
    UnseenEventIsImported(s2, 0, THE_DELIVERY, "k", 0.0, limit);
  }

  /** After the first import something happens that makes the row of the event go, and the event is
      imported again by a sweep that waits a while. */
  lemma ImportedAgain(retention: Time, a: Action, wait: Time, limit: Time) returns (actions: seq<Action>)
    requires 0.0 < retention && Within(limit) && 0.0 <= wait < limit
    requires a == ClearHistory({0}) || (a.Tick? && 0.0 <= a.span < retention && a.span + wait > EVENT_AGE)
    ensures YoungRun(INITIAL, actions, limit) && (a.Tick? ==> Quiet(actions))
    ensures Run(INITIAL, actions).messages == map[0 := Message(0.0, retention, ["k"])]
    ensures Run(INITIAL, actions).imports[THE_EVENT] == 2
  {
    FirstImportRuns(retention, limit);
    var s := Run(INITIAL, FirstImport(retention));
    var s1 := Step(s, a);
    RunVisits([s, s1], [a], limit);
    var again := SweepScript(1, THE_DELIVERY, "k", wait);
    UnseenEventIsImported(s1, 1, THE_DELIVERY, "k", wait, limit);
    YoungAppend(s, [a], again, limit);
    actions := FirstImport(retention) + ([a] + again);
    YoungAppend(INITIAL, FirstImport(retention), [a] + again, limit);
  }

  lemma LongRetentionImportsTwice(retention: Time, limit: Time) returns (actions: seq<Action>)
    requires 0.0 < retention && Within(limit) && retention + limit > EVENT_AGE
    ensures BoundedRun(actions, THE_EVENT, retention, limit)
    ensures Run(INITIAL, actions).imports[THE_EVENT] == 2
  {
    var excess := retention + limit - EVENT_AGE;
    var e := if excess < limit then excess / 4.0 else limit / 4.0;
    actions := ImportedAgain(retention, Tick(retention - e), limit - e, limit);
  }

  // ----- what may be cleared -----

  lemma {:induction false} FreshWorker(used: set<WorkerId>) returns (w: WorkerId)
    ensures forall v :: v in used ==> v < w
    decreases |used|
  {
    if used == {} {
      w := 0;
    } else {
      var v :| v in used;
      var u := FreshWorker(used - {v});
      w := if u <= v then v + 1 else u;
      assert forall x :: x in used ==> x == v || x in used - {v};
    }
  }

  /** A state that differs in who is inside and what they have received. */
  ghost predicate SameTables(s: State, s': State) {
    && s'.queues == s.queues && s'.nextQueue == s.nextQueue && s'.messages == s.messages
    && s'.events == s.events && s'.imports == s.imports
  }

  /** The sweeps go on, with all they had received and where they stood. */
  ghost predicate GoOn(s: State, s': State) {
    forall v :: v in s.sweeps ==>
      v in s'.sweeps && s'.sweeps[v].work == s.sweeps[v].work && s.sweeps[v].inbox <= s'.sweeps[v].inbox
  }

  ghost predicate Inside(s: State, w: WorkerId, t: Triple) {
    w in s.sweeps && Delivery(t.queue, t.msg) in s.sweeps[w].inbox
  }

  lemma NoTime(s: State, s': State, limit: Time)
    requires Young(s, limit) && 0.0 < limit && s'.now == s.now
    requires forall w :: w in s'.sweeps ==>
               s'.sweeps[w].start == s'.now || (w in s.sweeps && s'.sweeps[w].start == s.sweeps[w].start)
    ensures Young(s', limit)
  {
  }

  /** A worker inside takes in a message that is still retained. */
  lemma InsiderReceives(s: State, t: Triple, limit: Time) returns (a: Action, w: WorkerId)
    requires Within(limit) && LockInv(s) && Young(s, limit) && s.sweeps != map[]
    requires t.queue < s.nextQueue && t.msg in s.messages
    requires s.now < s.messages[t.msg].sentAt + s.messages[t.msg].retention
    ensures var s' := Step(s, a);
            Inside(s', w, t) && LockInv(s') && Young(s', limit) && SameTables(s, s') && GoOn(s, s')
    ensures !a.ClearHistory?
  {
    assert s.sweeps.Keys != {};
    w :| w in s.sweeps.Keys;
    a := Receive(w, Delivery(t.queue, t.msg));
    LockStep(s, a);
    NoTime(s, Step(s, a), limit);
  }

  /** A new worker enters as soon as the lock is free. */
  lemma NewcomerEnters(s: State, limit: Time) returns (actions: seq<Action>)
    requires Within(limit) && LockInv(s) && s.sweeps == map[]
    ensures var s' := Run(s, actions);
            && YoungRun(s, actions, limit) && Quiet(actions)
            && LockInv(s') && Young(s', limit) && SameTables(s, s') && s'.sweeps != map[] && s'.now == Opens(s)
  {
    var wait := if LockFree(s) then 0.0 else s.lock.value.expires - s.now;
    var w := FreshWorker(s.used);
    var s1 := Step(s, Tick(wait));
    var s2 := Step(s1, Acquire(w));
    actions := [Tick(wait), Acquire(w)];
    LockStep(s, Tick(wait));
    LockStep(s1, Acquire(w));
    assert w in s2.sweeps;
    RunVisits([s, s1, s2], actions, limit);
  }

  /** A message that can arrive is taken in by some worker. */
  lemma MessageArrives(s: State, t: Triple, limit: Time) returns (actions: seq<Action>, w: WorkerId)
    requires Within(limit) && LockInv(s) && Young(s, limit) && CanArrive(s, t) && t.queue < s.nextQueue
    ensures var s' := Run(s, actions);
            && YoungRun(s, actions, limit) && Quiet(actions)
            && Inside(s', w, t) && LockInv(s') && Young(s', limit) && SameTables(s, s') && GoOn(s, s')
  {
    if Received(s, t) {
      w :| w in s.sweeps && Delivery(t.queue, t.msg) in s.sweeps[w].inbox;
      actions := [];
    } else if s.sweeps != map[] {
      var a;
      a, w := InsiderReceives(s, t, limit);
      actions := [a];
      RunVisits([s, Step(s, a)], actions, limit);
    } else {
      var entering := NewcomerEnters(s, limit);
      var s1 := Run(s, entering);
      var a;
      a, w := InsiderReceives(s1, t, limit);
      RunVisits([s1, Step(s1, a)], [a], limit);
      YoungAppend(s, entering, [a], limit);
      actions := entering + [a];
    }
  }

  /** A worker that has the message of an event without a row finishes what it is doing and imports it. */
  lemma InsiderImports(s: State, w: WorkerId, t: Triple, limit: Time) returns (actions: seq<Action>)
    requires Young(s, limit) && Inside(s, w, t) && Known(s, t)
    requires t.queue in s.queues && !HasRow(s, t)
    ensures var s' := Run(s, actions);
            && YoungRun(s, actions, limit) && Quiet(actions) && s'.messages == s.messages
            && s'.imports[t] == s.imports[t] + 1 + (if s.sweeps[w].work == Recorded(t) then 1 else 0)
  {
    var d := Delivery(t.queue, t.msg);
    var a := if s.sweeps[w].work == Recorded(t) then ImportFile(w) else GiveUp(w);
    var s1 := Step(s, a);
    var s2 := Step(s1, Probe(w, d, t.key));
    WorkEnds(s, w, t, limit);
    ProbeFindsNone(s1, w, d, t.key, limit);
    RecordAndImport(s2, w, limit);
    actions := [a, Probe(w, d, t.key), Insert(w), ImportFile(w)];
    RunsInSteps(s, a, Probe(w, d, t.key), Insert(w), ImportFile(w), limit);
  }

  /** A worker is through with an event: it imports the event it recorded if that is `t`. */
  lemma WorkEnds(s: State, w: WorkerId, t: Triple, limit: Time)
    requires w in s.sweeps && Young(s, limit)
    ensures var last := s.sweeps[w].work == Recorded(t);
            var s1 := Step(s, if last then ImportFile(w) else GiveUp(w));
            && Young(s1, limit) && s1 == WithWork(s, w, Idle).(imports := s1.imports)
            && s1.imports == s.imports + (if last then multiset{t} else multiset{})
            && (HasRow(s1, t) <==> HasRow(s, t))
  {
  }

  /** After a harmful clearing the event is imported a second time. */
  lemma HarmImportsTwice(s: State, queues: set<QueueId>, t: Triple, limit: Time) returns (actions: seq<Action>)
    requires Within(limit) && Inv(s, limit) && Young(s, limit)
    requires TakenUp(s, t) && t.queue in queues && t.queue in s.queues && CanArrive(s, t)
    ensures var s1 := Step(s, ClearHistory(queues));
            && YoungRun(s1, actions, limit) && Quiet(actions)
            && Run(s1, actions).messages == s.messages && Run(s1, actions).imports[t] > 1
  {
    var s1 := Step(s, ClearHistory(queues));
    LockStep(s, ClearHistory(queues));
    ClearLeaves(s, queues, t);
    var arriving, w := MessageArrives(s1, t, limit);
    var s2 := Run(s1, arriving);
    TakenUpOnce(s, s2, w, t, limit);
    var importing := InsiderImports(s2, w, t, limit);
    YoungAppend(s1, arriving, importing, limit);
    actions := arriving + importing;
  }

  /** The event was imported already, or the worker inside is about to. */
  lemma TakenUpOnce(s: State, s2: State, w: WorkerId, t: Triple, limit: Time)
    requires Inv(s, limit) && TakenUp(s, t) && LockInv(s2) && w in s2.sweeps
    requires s2.imports == s.imports && GoOn(s, s2)
    ensures Known(s, t)
    ensures t in s2.imports || s2.sweeps[w].work == Recorded(t)
  {
    if t !in s.imports {
      var v :| v in s.sweeps && s.sweeps[v].work == Recorded(t);
      assert SweepOk(s, s.sweeps[v]);
      OwnersAreOne(s2, v, w);
    }
  }

  /** A quiet continuation with young sweeps that ends with the message of `t` under the bound. */
  ghost predicate GoesOn(s: State, actions: seq<Action>, t: Triple, limit: Time) {
    YoungRun(s, actions, limit) && Quiet(actions) && Retained(Run(s, actions), t, limit)
  }

  /** In every state that can be reached with young sweeps and harmless clearings, a clearing of the
      history is harmless, a condition on the tables, exactly when no quiet continuation imports an
      event twice. */
  lemma ClearingBoundIsExact(before: seq<Action>, queues: set<QueueId>, limit: Time)
    requires Within(limit) && CarefulRun(INITIAL, before, limit)
    ensures var s := Run(INITIAL, before);
            var s1 := Step(s, ClearHistory(queues));
            Harmless(s, queues, limit) <==>
            forall actions: seq<Action>, t: Triple ::
              GoesOn(s1, actions, t, limit) ==> Run(s1, actions).imports[t] <= 1
  {
    var s := Run(INITIAL, before);
    var s1 := Step(s, ClearHistory(queues));
    RunKeeps(INITIAL, before, limit);
    if Harmless(s, queues, limit) {
      StepKeeps(s, ClearHistory(queues), limit);
      forall actions: seq<Action>, t: Triple | GoesOn(s1, actions, t, limit)
        ensures Run(s1, actions).imports[t] <= 1
      {
        QuietIsCareful(s1, actions, limit);
        RunKeeps(s1, actions, limit);
        InvMeansOnce(Run(s1, actions), t, limit);
      }
    } else {
      var t :| TakenUp(s, t) && Retained(s, t, limit) && t.queue in queues && t.queue in s.queues && CanArrive(s, t);
      var actions := HarmImportsTwice(s, queues, t, limit);
      assert GoesOn(s1, actions, t, limit);
    }
  }

  /** A user who clears the history makes a second import possible on any queue. */
  lemma ClearedHistoryImportsTwice(retention: Time, limit: Time) returns (actions: seq<Action>)
    requires 0.0 < retention && Within(limit)
    ensures YoungRun(INITIAL, actions, limit) && Run(INITIAL, actions).imports[THE_EVENT] == 2
  {
    actions := ImportedAgain(retention, ClearHistory({0}), 0.0, limit);
  }
}
