/** The poller as a worker of the sweep machine: whatever a sweep does to the tables, one worker's own
    steps do, in the machine in which other workers, users, cleanups and the clock take turns with it. */
module SqsRefinement {
  import opened Prelude
  import opened SqsEvents
  import M = SqsSweep
  import P = SqsPoller

  /** The poller's tables are those of the machine: the same events have a row and the same imports were
      made. */
  ghost predicate Matches(b: P.Tables, s: M.State) {
    && b.imports == s.imports
    && (forall t :: t in P.Seen(b.rows) <==> M.HasRow(s, t))
    && (forall e :: e in s.events ==> e < s.nextEvent)
  }

  /** The steps of one worker within a sweep. */
  predicate OwnStep(a: M.Action, w: M.WorkerId) {
    (a.Receive? || a.Probe? || a.Insert? || a.ImportFile? || a.GiveUp? || a.RecordFailure? || a.Delete?) && a.w == w
  }

  predicate OwnSteps(script: seq<M.Action>, w: M.WorkerId) {
    forall i :: 0 <= i < |script| ==> OwnStep(script[i], w)
  }

  /** A worker between two events, later in its sweep: it has forgotten nothing, and what other workers
      and users have is as before. */
  ghost predicate Later(s: M.State, s': M.State, w: M.WorkerId) {
    && w in s.sweeps && w in s'.sweeps && s'.sweeps[w].work == M.Idle
    && s'.sweeps[w].inbox == s.sweeps[w].inbox && s.sweeps[w].handled <= s'.sweeps[w].handled
    && s'.sweeps == s.sweeps[w := s'.sweeps[w]]
    && s'.now == s.now && s'.lock == s.lock && s'.used == s.used
    && s'.queues == s.queues && s'.nextQueue == s.nextQueue && s'.messages == s.messages
    && s'.deleted == s.deleted
  }

  lemma LaterJoins(a: M.State, b: M.State, c: M.State, w: M.WorkerId)
    requires Later(a, b, w) && Later(b, c, w)
    ensures Later(a, c, w)
  {
  }

  lemma {:induction false} RunJoins(s: M.State, a: seq<M.Action>, b: seq<M.Action>, w: M.WorkerId)
    requires OwnSteps(a, w) && OwnSteps(b, w)
    ensures M.Run(s, a + b) == M.Run(M.Run(s, a), b) && OwnSteps(a + b, w)
  {
    M.RunAppend(s, a, b);
  }

  lemma RunOne(s: M.State, a: M.Action)
    ensures M.Run(s, [a]) == M.Step(s, a)
  {
    assert [a][1..] == [];
  }

  lemma RunThree(s: M.State, a: M.Action, b: M.Action, c: M.Action)
    ensures M.Run(s, [a, b, c]) == M.Step(M.Step(M.Step(s, a), b), c)
  {
    assert [a, b, c] == [a] + ([b] + [c]);
    M.RunAppend(s, [a], [b] + [c]);
    M.RunAppend(M.Step(s, a), [b], [c]);
    RunOne(s, a);
    RunOne(M.Step(s, a), b);
    RunOne(M.Step(M.Step(s, a), b), c);
  }

  // ----- one event -----

  /** A committed row of an event is one more event seen, in both. */
  lemma RowMatches(b: P.Tables, s: M.State, row: P.Row)
    requires Matches(b, s)
    ensures Matches(b.(rows := b.rows + [row]), M.WithRow(s, row.triple))
  {
    var s' := M.WithRow(s, row.triple);
    P.SeenPush(b.rows, row);
    assert s'.events[s.nextEvent].triple == row.triple;
    forall t | M.HasRow(s, t) ensures M.HasRow(s', t) {
      var e :| e in s.events && s.events[e].triple == t;
      assert s'.events[e].triple == t;
    }
  }

  /** The tables do not depend on where the workers stand. */
  lemma SameEventsMatch(b: P.Tables, s: M.State, s': M.State)
    requires Matches(b, s) && s'.events == s.events && s'.nextEvent == s.nextEvent && s'.imports == s.imports
    ensures Matches(b, s')
  {
    assert forall t :: M.HasRow(s', t) <==> M.HasRow(s, t);
  }

  /** An event with a row is left alone. */
  lemma FoundRefines(b: P.Tables, s: M.State, w: M.WorkerId, d: M.Delivery, key: Key)
    requires Matches(b, s) && M.CanTake(s, w, d, key) && Triple(d.msg, d.queue, key) in P.Seen(b.rows)
    ensures var s' := M.Step(s, M.Probe(w, d, key));
            Matches(b, s') && Later(s, s', w) && Triple(d.msg, d.queue, key) in s'.sweeps[w].handled
  {
    SameEventsMatch(b, s, M.Step(s, M.Probe(w, d, key)));
  }

  lemma FailureRefines(b: P.Tables, s: M.State, w: M.WorkerId, d: M.Delivery, key: Key)
    requires Matches(b, s) && M.CanTake(s, w, d, key) && d.queue in s.queues
    ensures var s', t := M.Step(s, M.RecordFailure(w, d, key)), Triple(d.msg, d.queue, key);
            && Matches(b.(rows := b.rows + [P.Row(t, P.Failed)]), s') && Later(s, s', w)
            && t in s'.sweeps[w].handled
  {
    var row := P.Row(Triple(d.msg, d.queue, key), P.Failed);
    RowMatches(b, s, row);
    SameEventsMatch(b.(rows := b.rows + [row]), M.WithRow(s, row.triple), M.Step(s, M.RecordFailure(w, d, key)));
  }

  /** A new event is probed and its row committed. */
  lemma CommitRefines(b: P.Tables, s: M.State, w: M.WorkerId, d: M.Delivery, key: Key, row: P.Row)
    requires Matches(b, s) && M.CanTake(s, w, d, key) && d.queue in s.queues
    requires row.triple == Triple(d.msg, d.queue, key) && row.triple !in P.Seen(b.rows)
    ensures var s2, sweep := M.Step(M.Step(s, M.Probe(w, d, key)), M.Insert(w)), s.sweeps[w];
            && Matches(b.(rows := b.rows + [row]), s2)
            && s2 == M.WithRow(s, row.triple).(
                 sweeps := s.sweeps[w := sweep.(work := M.Recorded(row.triple),
                                                handled := sweep.handled + {row.triple})])
  {
    RowMatches(b, s, row);
    assert M.Step(s, M.Probe(w, d, key)) == M.WithWork(s, w, M.Probed(row.triple));
    SameEventsMatch(b.(rows := b.rows + [row]), M.WithRow(s, row.triple),
                    M.Step(M.Step(s, M.Probe(w, d, key)), M.Insert(w)));
  }

  /** What follows the commit: the import is made, or it is not. */
  lemma ImportRefines(b: P.Tables, s: M.State, w: M.WorkerId, imported: bool)
    requires Matches(b, s) && w in s.sweeps && s.sweeps[w].work.Recorded?
    ensures var s' := M.Step(s, if imported then M.ImportFile(w) else M.GiveUp(w));
            && Matches(if imported then b.(imports := b.imports + multiset{s.sweeps[w].work.triple}) else b, s')
            && s' == M.WithWork(s, w, M.Idle).(imports := s'.imports)
  {
    var s' := M.Step(s, if imported then M.ImportFile(w) else M.GiveUp(w));
    assert forall t :: M.HasRow(s', t) <==> M.HasRow(s, t);
  }

  /** A new event is recorded first and then imported, or given up. */
  lemma NewRefines(b: P.Tables, s: M.State, w: M.WorkerId, d: M.Delivery, key: Key, fate: P.Fate)
    returns (script: seq<M.Action>)
    requires Matches(b, s) && M.CanTake(s, w, d, key) && d.queue in s.queues
    requires !fate.RaisesBeforeCommit? && Triple(d.msg, d.queue, key) !in P.Seen(b.rows)
    ensures var s', t := M.Run(s, script), Triple(d.msg, d.queue, key);
            && Matches(P.AfterProcessing(b, t, fate), s') && Later(s, s', w) && t in s'.sweeps[w].handled
    ensures OwnSteps(script, w)
  {
    var t := Triple(d.msg, d.queue, key);
    var row := P.Row(t, P.FinalStatus(fate));
    var last := if P.CallsImport(fate) then M.ImportFile(w) else M.GiveUp(w);
    CommitRefines(b, s, w, d, key, row);
    ImportRefines(b.(rows := b.rows + [row]), M.Step(M.Step(s, M.Probe(w, d, key)), M.Insert(w)), w,
                  P.CallsImport(fate));
    RunThree(s, M.Probe(w, d, key), M.Insert(w), last);
    script := [M.Probe(w, d, key), M.Insert(w), last];
  }

  lemma ProcessingRefines(b: P.Tables, s: M.State, w: M.WorkerId, d: M.Delivery, key: Key, fate: P.Fate)
    returns (script: seq<M.Action>)
    requires Matches(b, s) && M.CanTake(s, w, d, key) && d.queue in s.queues
    ensures var s', t := M.Run(s, script), Triple(d.msg, d.queue, key);
            && Matches(P.AfterProcessing(b, t, fate), s') && Later(s, s', w)
            && (!fate.RaisesBeforeCommit? ==> t in s'.sweeps[w].handled)
    ensures OwnSteps(script, w)
  {
    if fate.RaisesBeforeCommit? {
      script := [];
    } else if Triple(d.msg, d.queue, key) in P.Seen(b.rows) {
      FoundRefines(b, s, w, d, key);
      RunOne(s, M.Probe(w, d, key));
      script := [M.Probe(w, d, key)];
    } else {
      script := NewRefines(b, s, w, d, key, fate);
    }
  }

  lemma StillTakes(s: M.State, s': M.State, w: M.WorkerId, d: M.Delivery, key: Key)
    requires M.CanTake(s, w, d, key) && Later(s, s', w)
    ensures M.CanTake(s', w, d, key)
  {
  }

  /** Handling one create event is a run of the worker's own steps: the row is committed before the
      import, and an event that went through is one the sweep is done recording. */
  lemma EventRefines(
      b: P.Tables, s: M.State, w: M.WorkerId, d: M.Delivery, key: Key, fate: P.Fate, recordFails: bool)
    returns (script: seq<M.Action>)
    requires Matches(b, s) && M.CanTake(s, w, d, key) && d.queue in s.queues
    ensures var s', t := M.Run(s, script), Triple(d.msg, d.queue, key);
            var o := P.AfterEvent(b, t, fate, recordFails);
            Matches(o.tables, s') && Later(s, s', w) && (o.ok ==> t in s'.sweeps[w].handled)
    ensures OwnSteps(script, w)
  {
    var t := Triple(d.msg, d.queue, key);
    script := ProcessingRefines(b, s, w, d, key, fate);
    if !P.Counts(P.Seen(b.rows), t, fate) && !recordFails {
      var s1 := M.Run(s, script);
      StillTakes(s, s1, w, d, key);
      FailureRefines(P.AfterProcessing(b, t, fate), s1, w, d, key);
      LaterJoins(s, s1, M.Step(s1, M.RecordFailure(w, d, key)), w);
      RunOne(s1, M.RecordFailure(w, d, key));
      RunJoins(s, script, [M.RecordFailure(w, d, key)], w);
      script := script + [M.RecordFailure(w, d, key)];
    }
  }

  // ----- one message -----

  /** The same message in both: the machine keeps the keys of its create events. */
  ghost predicate SameMessage(m: P.Message, keys: seq<Key>) {
    && (forall k :: 0 <= k < |m.events| && P.IsCreate(m.events[k].kind) ==> m.events[k].key in keys)
    && (forall key :: key in keys ==>
          exists k :: 0 <= k < |m.events| && P.IsCreate(m.events[k].kind) && m.events[k].key == key)
  }

  /** A worker inside a sweep of an existing queue, between two events, with the message in hand. */
  ghost predicate HasInHand(s: M.State, w: M.WorkerId, m: P.Message, queue: QueueId) {
    && w in s.sweeps && s.sweeps[w].work == M.Idle && queue in s.queues
    && M.Delivery(queue, m.id) in s.sweeps[w].inbox
    && m.id in s.messages && SameMessage(m, s.messages[m.id].keys)
  }

  lemma StillInHand(s: M.State, s': M.State, w: M.WorkerId, m: P.Message, queue: QueueId)
    requires HasInHand(s, w, m, queue) && Later(s, s', w)
    ensures HasInHand(s', w, m, queue)
  {
  }

  /** The sweep is done recording the first n events. */
  ghost predicate DoneWith(s: M.State, w: M.WorkerId, m: P.Message, queue: QueueId, n: nat)
    requires n <= |m.events|
  {
    w in s.sweeps
    && forall k :: 0 <= k < n && P.IsCreate(m.events[k].kind) ==> P.EventOf(m, queue, k) in s.sweeps[w].handled
  }

  lemma DoneStays(s: M.State, s': M.State, w: M.WorkerId, m: P.Message, queue: QueueId, n: nat)
    requires n <= |m.events| && DoneWith(s, w, m, queue, n) && Later(s, s', w)
    ensures DoneWith(s', w, m, queue, n)
  {
  }

  lemma AnyRefines(b: P.Tables, s: M.State, w: M.WorkerId, m: P.Message, queue: QueueId, k: nat, fate: P.Fate,
                   recordFails: bool)
    returns (script: seq<M.Action>)
    requires Matches(b, s) && HasInHand(s, w, m, queue) && k < |m.events|
    ensures var s', o := M.Run(s, script), P.AfterAny(b, m, queue, k, fate, recordFails);
            && Matches(o.tables, s') && Later(s, s', w)
            && (o.ok && P.IsCreate(m.events[k].kind) ==> P.EventOf(m, queue, k) in s'.sweeps[w].handled)
    ensures OwnSteps(script, w)
  {
    if P.IsCreate(m.events[k].kind) {
      script := EventRefines(b, s, w, M.Delivery(queue, m.id), m.events[k].key, fate, recordFails);
    } else {
      script := [];
    }
  }

  lemma {:induction false} EventsRefine(b: P.Tables, s: M.State, w: M.WorkerId, m: P.Message, queue: QueueId,
                                        fates: seq<P.Fate>, recordFails: seq<bool>, n: nat)
    returns (script: seq<M.Action>)
    requires Matches(b, s) && HasInHand(s, w, m, queue) && n <= |m.events| == |fates| == |recordFails|
    ensures var s', o := M.Run(s, script), P.AfterEvents(b, m, queue, fates, recordFails, n);
            Matches(o.tables, s') && Later(s, s', w) && (o.ok ==> DoneWith(s', w, m, queue, n))
    ensures OwnSteps(script, w)
  {
    if n == 0 {
      script := [];
    } else {
      script := EventsRefine(b, s, w, m, queue, fates, recordFails, n - 1);
      var o, s1 := P.AfterEvents(b, m, queue, fates, recordFails, n - 1), M.Run(s, script);
      if o.ok {
        StillInHand(s, s1, w, m, queue);
        var more := AnyRefines(o.tables, s1, w, m, queue, n - 1, fates[n - 1], recordFails[n - 1]);
        LaterJoins(s, s1, M.Run(s1, more), w);
        DoneStays(s1, M.Run(s1, more), w, m, queue, n - 1);
        RunJoins(s, script, more, w);
        script := script + more;
      }
    }
  }

  /** When all events of a message went through, the machine lets its worker delete the message. */
  lemma DoneMeansDelete(s: M.State, w: M.WorkerId, m: P.Message, queue: QueueId)
    requires HasInHand(s, w, m, queue) && DoneWith(s, w, m, queue, |m.events|)
    ensures M.CanDelete(s, w, M.Delivery(queue, m.id))
  {
    forall key | key in s.messages[m.id].keys ensures Triple(m.id, queue, key) in s.sweeps[w].handled {
      var k :| 0 <= k < |m.events| && P.IsCreate(m.events[k].kind) && m.events[k].key == key;
      assert P.EventOf(m, queue, k) in s.sweeps[w].handled;
    }
  }

  /** Deleting a message leaves everything else. */
  lemma DeleteRefines(b: P.Tables, s: M.State, w: M.WorkerId, m: P.Message, queue: QueueId)
    requires Matches(b, s) && HasInHand(s, w, m, queue) && DoneWith(s, w, m, queue, |m.events|)
    ensures var d := M.Delivery(queue, m.id);
            M.Step(s, M.Delete(w, d)) == s.(deleted := s.deleted + {d})
  {
    DoneMeansDelete(s, w, m, queue);
  }

  // ----- one sweep -----

  ghost function Gone(queue: QueueId, ids: seq<MsgId>): set<M.Delivery> {
    set i | 0 <= i < |ids| :: M.Delivery(queue, ids[i])
  }

  lemma GonePush(queue: QueueId, ids: seq<MsgId>, id: MsgId)
    ensures Gone(queue, ids + [id]) == Gone(queue, ids) + {M.Delivery(queue, id)}
  {
    var ids' := ids + [id];
    assert forall i :: 0 <= i < |ids| ==> ids'[i] == ids[i];
    assert ids'[|ids|] == id;
  }

  /** The worker has got so far that the tables are these and these messages are deleted. */
  ghost predicate Reached(s: M.State, s': M.State, w: M.WorkerId, queue: QueueId, o: P.Sweep) {
    && Matches(o.tables, s') && s'.deleted == s.deleted + Gone(queue, o.deleted)
    && Later(s, s'.(deleted := s.deleted), w)
  }

  /** One message: its events, and its deletion when they went through. */
  lemma MessageRefines(s: M.State, mid: M.State, w: M.WorkerId, m: P.Message, queue: QueueId, fates: seq<P.Fate>,
                       recordFails: seq<bool>, o: P.Sweep)
    returns (script: seq<M.Action>)
    requires HasInHand(s, w, m, queue) && |m.events| == |fates| == |recordFails|
    requires Reached(s, mid, w, queue, o)
    ensures var next := P.AfterEvents(o.tables, m, queue, fates, recordFails, |m.events|);
            Reached(s, M.Run(mid, script), w, queue,
                    if next.ok then P.Sweep(next.tables, true, o.processed + next.processed, o.deleted + [m.id])
                    else P.Sweep(next.tables, false, o.processed, o.deleted))
    ensures OwnSteps(script, w)
  {
    StillInHand(s, mid.(deleted := s.deleted), w, m, queue);
    assert HasInHand(mid, w, m, queue);
    script := EventsRefine(o.tables, mid, w, m, queue, fates, recordFails, |m.events|);
    var next := P.AfterEvents(o.tables, m, queue, fates, recordFails, |m.events|);
    var done := M.Run(mid, script);
    LaterJoins(s, mid.(deleted := s.deleted), done.(deleted := s.deleted), w);
    if next.ok {
      StillInHand(mid, done, w, m, queue);
      DeleteRefines(next.tables, done, w, m, queue);
      GonePush(queue, o.deleted, m.id);
      RunOne(done, M.Delete(w, M.Delivery(queue, m.id)));
      RunJoins(mid, script, [M.Delete(w, M.Delivery(queue, m.id))], w);
      SameEventsMatch(next.tables, done, M.Step(done, M.Delete(w, M.Delivery(queue, m.id))));
      script := script + [M.Delete(w, M.Delivery(queue, m.id))];
    }
  }

  lemma {:induction false} MessagesRefine(
      b: P.Tables, s: M.State, w: M.WorkerId, queue: QueueId, messages: seq<P.Message>, fates: seq<seq<P.Fate>>,
      recordFails: seq<seq<bool>>, n: nat)
    returns (script: seq<M.Action>)
    requires Matches(b, s) && w in s.sweeps && s.sweeps[w].work == M.Idle
    requires n <= |messages| && P.SameShape(messages, fates) && P.SameShape(messages, recordFails)
    requires forall i :: 0 <= i < n ==> HasInHand(s, w, messages[i], queue)
    ensures Reached(s, M.Run(s, script), w, queue, P.AfterMessages(b, messages, queue, fates, recordFails, n))
    ensures OwnSteps(script, w)
  {
    if n == 0 {
      script := [];
      assert s.deleted + Gone(queue, []) == s.deleted;
    } else {
      script := MessagesRefine(b, s, w, queue, messages, fates, recordFails, n - 1);
      var o := P.AfterMessages(b, messages, queue, fates, recordFails, n - 1);
      if o.ok {
        var more := MessageRefines(s, M.Run(s, script), w, messages[n - 1], queue, fates[n - 1], recordFails[n - 1], o);
        RunJoins(s, script, more, w);
        script := script + more;
      }
    }
  }

  /** The message is retained, so that SQS may deliver it. */
  ghost predicate Deliverable(s: M.State, m: P.Message) {
    && m.id in s.messages && SameMessage(m, s.messages[m.id].keys)
    && s.now < s.messages[m.id].sentAt + s.messages[m.id].retention
  }

  /** The worker has entered and received the first n messages. */
  ghost predicate Entered(s: M.State, s': M.State, w: M.WorkerId, queue: QueueId, messages: seq<P.Message>, n: nat)
    requires n <= |messages|
  {
    && w in s'.sweeps && s'.sweeps[w].work == M.Idle
    && (forall i :: 0 <= i < n ==> M.Delivery(queue, messages[i].id) in s'.sweeps[w].inbox)
    && s'.now == s.now && s'.queues == s.queues && s'.nextQueue == s.nextQueue && s'.messages == s.messages
    && s'.events == s.events && s'.nextEvent == s.nextEvent && s'.imports == s.imports && s'.deleted == s.deleted
  }

  lemma ReceiveEnters(s: M.State, mid: M.State, w: M.WorkerId, queue: QueueId, messages: seq<P.Message>, n: nat)
    requires n < |messages| && Entered(s, mid, w, queue, messages, n)
    requires queue < s.nextQueue && Deliverable(s, messages[n])
    ensures Entered(s, M.Step(mid, M.Receive(w, M.Delivery(queue, messages[n].id))), w, queue, messages, n + 1)
  {
  }

  lemma {:induction false} MessagesReceived(
      s: M.State, start: M.State, w: M.WorkerId, queue: QueueId, messages: seq<P.Message>, n: nat)
    returns (script: seq<M.Action>)
    requires n <= |messages| && Entered(s, start, w, queue, messages, 0) && queue < s.nextQueue
    requires forall i :: 0 <= i < |messages| ==> Deliverable(s, messages[i])
    ensures Entered(s, M.Run(start, script), w, queue, messages, n) && OwnSteps(script, w)
  {
    script := [];
    if n > 0 {
      script := MessagesReceived(s, start, w, queue, messages, n - 1);
      var a := M.Receive(w, M.Delivery(queue, messages[n - 1].id));
      ReceiveEnters(s, M.Run(start, script), w, queue, messages, n - 1);
      RunOne(M.Run(start, script), a);
      RunJoins(start, script, [a], w);
      script := script + [a];
    }
  }

  /** A whole sweep of a queue is a run of the machine: a worker that finds the lock free enters,
      receives the messages, and by its own steps brings the tables to what the poller makes of them,
      deleting the messages the poller deletes. So what holds after every run of the machine, that no
      event is lost or imported twice, holds of the poller's sweeps. */
  lemma SweepRefines(b: P.Tables, s: M.State, w: M.WorkerId, queue: QueueId, messages: seq<P.Message>,
                     fates: seq<seq<P.Fate>>, recordFails: seq<seq<bool>>)
    returns (script: seq<M.Action>)
    requires Matches(b, s) && M.LockFree(s) && w !in s.used && queue in s.queues && queue < s.nextQueue
    requires P.SameShape(messages, fates) && P.SameShape(messages, recordFails)
    requires forall i :: 0 <= i < |messages| ==> Deliverable(s, messages[i])
    ensures script != [] && script[0] == M.Acquire(w) && OwnSteps(script[1..], w)
    ensures var s', o := M.Run(s, script), P.AfterMessages(b, messages, queue, fates, recordFails, |messages|);
            Matches(o.tables, s') && s'.deleted == s.deleted + Gone(queue, o.deleted)
  {
    var s1 := M.Step(s, M.Acquire(w));
    assert Entered(s, s1, w, queue, messages, 0);
    var receiving := MessagesReceived(s, s1, w, queue, messages, |messages|);
    var s2 := M.Run(s1, receiving);
    SameEventsMatch(b, s, s2);
    forall i | 0 <= i < |messages| ensures HasInHand(s2, w, messages[i], queue) {
      assert Deliverable(s, messages[i]);
    }
    var handling := MessagesRefine(b, s2, w, queue, messages, fates, recordFails, |messages|);
    RunJoins(s1, receiving, handling, w);
    script := [M.Acquire(w)] + (receiving + handling);
    assert script[1..] == receiving + handling;
  }
}
