/** One sweep of one queue as the worker executes it: messages, their events, the record-then-import
    order of each event, and the deletion of each message. Which outside call fails is a parameter. */
module SqsPoller {
  import opened SqsEvents
  import B = ImportBatches

  datatype Event = Event(kind: string, key: Key)

  datatype Message = Message(id: MsgId, events: seq<Event>)

  datatype Status = Pending | Processing | Completed | Skipped | Failed

  datatype Row = Row(triple: Triple, status: Status)

  predicate IsCreate(kind: string) {
    kind == "ObjectCreated:Put" || kind == "ObjectCreated:Post" || kind == "ObjectCreated:Copy"
    || kind == "ObjectCreated:CompleteMultipartUpload"
  }

  /** What happens to one event beyond the poller's control. The database may fail before the row is
      committed or after it; credentials, token or folders may be missing; the importer answers; or
      something raises inside the try block, before or after the import, and the except clause may
      fail in turn. */
  datatype Fate =
    | RaisesBeforeCommit
    | NoCredentials
    | NoToken
    | RaisesBeforeTry
    | NoFolder
    | Answered(code: int, alreadyExists: bool)
    | RaisesInTry(imported: bool)
    | RaisesInHandler(imported: bool)

  predicate CallsImport(f: Fate) {
    f.Answered? || (f.RaisesInTry? && f.imported) || (f.RaisesInHandler? && f.imported)
  }

  /** The status the event's row is left with. */
  function FinalStatus(f: Fate): Status
    requires !f.RaisesBeforeCommit?
  {
    match f
    case RaisesBeforeTry => Pending
    case RaisesInHandler(_) => Processing
    case Answered(code, alreadyExists) =>
      if code == 200 || code == 201 then Completed
      else if (code == 400 || code == 409) && alreadyExists then Skipped
      else Failed
    case _ => Failed
  }

  /** The poller and the import worker read an answer of the importer alike but for a conflict whose text
      does not say "already exists": the worker counts it as skipped, the poller as failed. */
  lemma ReadAlike(code: int, alreadyExists: bool)
    ensures var status, kind := FinalStatus(Answered(code, alreadyExists)), B.KindOf(B.Answer(code, alreadyExists));
            && (status == Completed <==> kind == B.New)
            && (((status == Skipped <==> kind == B.Skipped) && (status == Failed <==> kind == B.Failed))
                <==> code != 409 || alreadyExists)
  {
  }

  ghost predicate Recorded(rows: seq<Row>, t: Triple) {
    exists i :: 0 <= i < |rows| && rows[i].triple == t
  }

  /** No event was imported twice, and none without a row. */
  ghost predicate ImportedOnce(rows: seq<Row>, imports: multiset<Triple>) {
    forall t :: t in imports ==> imports[t] == 1 && Recorded(rows, t)
  }

  /** Rows are only appended. */
  ghost predicate Extends(before: seq<Row>, after: seq<Row>) {
    before <= after
  }

  /** An event that had a row before is not imported again. */
  ghost predicate OnlyNew(rows: seq<Row>, before: multiset<Triple>, after: multiset<Triple>) {
    before <= after && forall t :: Recorded(rows, t) ==> after[t] == before[t]
  }

  lemma RecordedStays(before: seq<Row>, after: seq<Row>, t: Triple)
    requires Recorded(before, t) && Extends(before, after)
    ensures Recorded(after, t)
  {
    var i :| 0 <= i < |before| && before[i].triple == t;
    assert after[i] == before[i];
  }

  /** Appending a row of `t` and, if the event had none, importing it. */
  lemma OneMoreRow(rows: seq<Row>, row: Row, imports: multiset<Triple>, imported: bool)
    requires ImportedOnce(rows, imports) && (imported ==> !Recorded(rows, row.triple))
    ensures Recorded(rows + [row], row.triple)
    ensures ImportedOnce(rows + [row], if imported then imports + multiset{row.triple} else imports)
  {
    assert (rows + [row])[|rows|] == row;
    forall t | Recorded(rows, t) ensures Recorded(rows + [row], t) {
      RecordedStays(rows, rows + [row], t);
    }
  }

  /** The processing of the event does not raise, whatever the tables hold. */
  predicate Smooth(f: Fate) {
    !f.RaisesBeforeCommit? && !f.RaisesBeforeTry? && !f.RaisesInHandler?
  }

  /** The events that have a row. */
  ghost function Seen(rows: seq<Row>): set<Triple> {
    set r | r in rows :: r.triple
  }

  /** The processing of the event does not raise, given the events seen before. */
  predicate Counts(seen: set<Triple>, t: Triple, f: Fate) {
    !f.RaisesBeforeCommit? && (t in seen || Smooth(f))
  }

  function EventOf(m: Message, queue: QueueId, k: nat): Triple
    requires k < |m.events|
  {
    Triple(m.id, queue, m.events[k].key)
  }

  /** The events seen after the first n of a message. */
  function SeenAfter(seen: set<Triple>, m: Message, queue: QueueId, n: nat): set<Triple>
    requires n <= |m.events|
  {
    if n == 0 then seen
    else
      SeenAfter(seen, m, queue, n - 1)
      + (if IsCreate(m.events[n - 1].kind) then {EventOf(m, queue, n - 1)} else {})
  }

  /** How many of the first n events create an object and are processed without raising. */
  function CountTo(seen: set<Triple>, m: Message, queue: QueueId, fates: seq<Fate>, n: nat): nat
    requires n <= |m.events| == |fates|
  {
    if n == 0 then 0
    else
      CountTo(seen, m, queue, fates, n - 1)
      + (if IsCreate(m.events[n - 1].kind)
            && Counts(SeenAfter(seen, m, queue, n - 1), EventOf(m, queue, n - 1), fates[n - 1]) then 1 else 0)
  }

  /** One value for every event of every message. */
  predicate SameShape<T>(messages: seq<Message>, values: seq<seq<T>>) {
    |values| == |messages| && forall i :: 0 <= i < |messages| ==> |values[i]| == |messages[i].events|
  }

  function SeenAll(seen: set<Triple>, messages: seq<Message>, queue: QueueId, n: nat): set<Triple>
    requires n <= |messages|
  {
    if n == 0 then seen
    else SeenAfter(SeenAll(seen, messages, queue, n - 1), messages[n - 1], queue, |messages[n - 1].events|)
  }

  /** The same over the first n messages of a sweep. */
  function CountAll(seen: set<Triple>, messages: seq<Message>, queue: QueueId, fates: seq<seq<Fate>>, n: nat): nat
    requires n <= |messages| && SameShape(messages, fates)
  {
    if n == 0 then 0
    else
      CountAll(seen, messages, queue, fates, n - 1)
      + CountTo(SeenAll(seen, messages, queue, n - 1), messages[n - 1], queue, fates[n - 1], |fates[n - 1]|)
  }

  function Creates(events: seq<Event>, n: nat): nat
    requires n <= |events|
  {
    if n == 0 then 0 else Creates(events, n - 1) + (if IsCreate(events[n - 1].kind) then 1 else 0)
  }

  /** At most the create events are counted, and all of them when nothing raises. */
  lemma {:induction false} CountIsOfCreates(
      seen: set<Triple>, m: Message, queue: QueueId, fates: seq<Fate>, n: nat)
    requires n <= |m.events| == |fates|
    ensures CountTo(seen, m, queue, fates, n) <= Creates(m.events, n)
    ensures (forall k :: 0 <= k < n ==> Smooth(fates[k])) ==>
              CountTo(seen, m, queue, fates, n) == Creates(m.events, n)
  {
    if n > 0 {
      CountIsOfCreates(seen, m, queue, fates, n - 1);
    }
  }

  lemma SeenRecorded(rows: seq<Row>, t: Triple)
    ensures t in Seen(rows) <==> Recorded(rows, t)
  {
    if Recorded(rows, t) {
      var i :| 0 <= i < |rows| && rows[i].triple == t;
      assert rows[i] in rows;
    }
  }

  lemma SeenPush(rows: seq<Row>, row: Row)
    ensures Seen(rows + [row]) == Seen(rows) + {row.triple}
  {
    assert forall r :: r in rows + [row] <==> r in rows || r == row;
  }

  lemma EventJoins(seen: set<Triple>, m: Message, queue: QueueId, fates: seq<Fate>, k: nat)
    requires k < |m.events| == |fates|
    ensures SeenAfter(seen, m, queue, k + 1) ==
            SeenAfter(seen, m, queue, k) + (if IsCreate(m.events[k].kind) then {EventOf(m, queue, k)} else {})
    ensures CountTo(seen, m, queue, fates, k + 1) == CountTo(seen, m, queue, fates, k)
            + (if IsCreate(m.events[k].kind)
                  && Counts(SeenAfter(seen, m, queue, k), EventOf(m, queue, k), fates[k]) then 1 else 0)
  {
  }

  lemma MessageCounts(seen: set<Triple>, messages: seq<Message>, queue: QueueId, fates: seq<seq<Fate>>, i: nat)
    requires SameShape(messages, fates) && i < |messages|
    ensures var all, n := SeenAll(seen, messages, queue, i), |messages[i].events|;
            && SeenAll(seen, messages, queue, i + 1) == SeenAfter(all, messages[i], queue, n)
            && CountAll(seen, messages, queue, fates, i + 1) ==
               CountAll(seen, messages, queue, fates, i) + CountTo(all, messages[i], queue, fates[i], n)
  {
  }

  // ----- what a sweep does to the tables -----

  datatype Tables = Tables(rows: seq<Row>, imports: multiset<Triple>)

  /** The tables after some events and how many of these count; `ok` is false when recording a failure
      failed, which ends the sweep. */
  datatype Outcome = Outcome(tables: Tables, ok: bool, processed: nat)

  /** The same after some messages, with the messages deleted. */
  datatype Sweep = Sweep(tables: Tables, ok: bool, processed: nat, deleted: seq<MsgId>)

  /** An event without a row gets exactly one, before any import, and its final status; an event with a
      row is left alone. */
  ghost function AfterProcessing(b: Tables, t: Triple, fate: Fate): Tables {
    if fate.RaisesBeforeCommit? || t in Seen(b.rows) then b
    else
      Tables(b.rows + [Row(t, FinalStatus(fate))],
             if CallsImport(fate) then b.imports + multiset{t} else b.imports)
  }

  /** One create event with its caller's handler, which gives an event whose processing raised a row of
      its own. */
  ghost function AfterEvent(b: Tables, t: Triple, fate: Fate, recordFails: bool): Outcome {
    var b' := AfterProcessing(b, t, fate);
    if Counts(Seen(b.rows), t, fate) then Outcome(b', true, 1)
    else if recordFails then Outcome(b', false, 0)
    else Outcome(b'.(rows := b'.rows + [Row(t, Failed)]), true, 0)
  }

  /** Any event: only those that create an object are processed. */
  ghost function AfterAny(b: Tables, m: Message, queue: QueueId, k: nat, fate: Fate, recordFails: bool): Outcome
    requires k < |m.events|
  {
    if IsCreate(m.events[k].kind) then AfterEvent(b, EventOf(m, queue, k), fate, recordFails)
    else Outcome(b, true, 0)
  }

  /** The first n events of a message, as far as the sweep gets. */
  ghost function AfterEvents(
      b: Tables, m: Message, queue: QueueId, fates: seq<Fate>, recordFails: seq<bool>, n: nat): Outcome
    requires n <= |m.events| == |fates| == |recordFails|
  {
    if n == 0 then Outcome(b, true, 0)
    else
      var o := AfterEvents(b, m, queue, fates, recordFails, n - 1);
      if !o.ok then o
      else
        var next := AfterAny(o.tables, m, queue, n - 1, fates[n - 1], recordFails[n - 1]);
        next.(processed := o.processed + next.processed)
  }

  /** The first n messages of a sweep, as far as it gets: a message is deleted when all of its events went
      through. */
  ghost function AfterMessages(b: Tables, messages: seq<Message>, queue: QueueId, fates: seq<seq<Fate>>,
                               recordFails: seq<seq<bool>>, n: nat): Sweep
    requires n <= |messages| && SameShape(messages, fates) && SameShape(messages, recordFails)
  {
    if n == 0 then Sweep(b, true, 0, [])
    else
      var o, m := AfterMessages(b, messages, queue, fates, recordFails, n - 1), messages[n - 1];
      if !o.ok then o
      else
        var next := AfterEvents(o.tables, m, queue, fates[n - 1], recordFails[n - 1], |m.events|);
        if next.ok then Sweep(next.tables, true, o.processed + next.processed, o.deleted + [m.id])
        else Sweep(next.tables, false, o.processed, o.deleted)
  }

  /** A sweep that ended has ended. */
  lemma {:induction false} EventsEnd(
      b: Tables, m: Message, queue: QueueId, fates: seq<Fate>, recordFails: seq<bool>, k: nat, n: nat)
    requires k <= n <= |m.events| == |fates| == |recordFails|
    requires !AfterEvents(b, m, queue, fates, recordFails, k).ok
    ensures AfterEvents(b, m, queue, fates, recordFails, n) == AfterEvents(b, m, queue, fates, recordFails, k)
  {
    if k < n {
      EventsEnd(b, m, queue, fates, recordFails, k, n - 1);
    }
  }

  lemma {:induction false} MessagesEnd(b: Tables, messages: seq<Message>, queue: QueueId, fates: seq<seq<Fate>>,
                                       recordFails: seq<seq<bool>>, k: nat, n: nat)
    requires k <= n <= |messages| && SameShape(messages, fates) && SameShape(messages, recordFails)
    requires !AfterMessages(b, messages, queue, fates, recordFails, k).ok
    ensures AfterMessages(b, messages, queue, fates, recordFails, n) ==
            AfterMessages(b, messages, queue, fates, recordFails, k)
  {
    if k < n {
      MessagesEnd(b, messages, queue, fates, recordFails, k, n - 1);
    }
  }

  // ----- what that means -----

  /** What every part of a sweep keeps of the tables it found. */
  ghost predicate Kept(before: Tables, after: Tables) {
    && ImportedOnce(after.rows, after.imports)
    && Extends(before.rows, after.rows)
    && OnlyNew(before.rows, before.imports, after.imports)
  }

  lemma KeptJoins(a: Tables, b: Tables, c: Tables)
    requires Kept(a, b) && Kept(b, c)
    ensures Kept(a, c)
  {
    OnlyNewJoins(a.rows, b.rows, a.imports, b.imports, c.imports);
  }

  /** One more row, of an event that had none if it comes with an import. */
  lemma RowKeeps(b: Tables, row: Row, imported: bool)
    requires ImportedOnce(b.rows, b.imports) && (imported ==> row.triple !in Seen(b.rows))
    ensures Kept(b, Tables(b.rows + [row], if imported then b.imports + multiset{row.triple} else b.imports))
    ensures Seen(b.rows + [row]) == Seen(b.rows) + {row.triple}
  {
    SeenRecorded(b.rows, row.triple);
    SeenPush(b.rows, row);
    OneMoreRow(b.rows, row, b.imports, imported);
  }

  lemma ProcessingKeeps(b: Tables, t: Triple, fate: Fate)
    requires ImportedOnce(b.rows, b.imports)
    ensures var b' := AfterProcessing(b, t, fate);
            Kept(b, b') && Seen(b'.rows) == if fate.RaisesBeforeCommit? then Seen(b.rows) else Seen(b.rows) + {t}
  {
    if !fate.RaisesBeforeCommit? && t !in Seen(b.rows) {
      RowKeeps(b, Row(t, FinalStatus(fate)), CallsImport(fate));
    }
  }

  lemma EventKeeps(b: Tables, t: Triple, fate: Fate, recordFails: bool)
    requires ImportedOnce(b.rows, b.imports)
    ensures var o := AfterEvent(b, t, fate, recordFails);
            && Kept(b, o.tables)
            && o.ok == (Counts(Seen(b.rows), t, fate) || !recordFails)
            && (o.ok ==> Seen(o.tables.rows) == Seen(b.rows) + {t})
  {
    var b' := AfterProcessing(b, t, fate);
    ProcessingKeeps(b, t, fate);
    if !Counts(Seen(b.rows), t, fate) && !recordFails {
      RowKeeps(b', Row(t, Failed), false);
      KeptJoins(b, b', b'.(rows := b'.rows + [Row(t, Failed)]));
    }
  }

  /** An event that counts, or is recorded as failed, has a row; only a failure that cannot be recorded
      ends the sweep. */
  ghost predicate IsAfterAny(
      b: Tables, m: Message, queue: QueueId, k: nat, fate: Fate, recordFails: bool, o: Outcome)
    requires k < |m.events|
  {
    && Kept(b, o.tables)
    && (o.ok ==> Seen(o.tables.rows) ==
                 Seen(b.rows) + (if IsCreate(m.events[k].kind) then {EventOf(m, queue, k)} else {}))
    && o.processed == (if IsCreate(m.events[k].kind) && Counts(Seen(b.rows), EventOf(m, queue, k), fate)
                       then 1 else 0)
    && (!o.ok ==> recordFails && !Smooth(fate))
  }

  lemma AnyKeeps(b: Tables, m: Message, queue: QueueId, k: nat, fate: Fate, recordFails: bool)
    requires ImportedOnce(b.rows, b.imports) && k < |m.events|
    ensures IsAfterAny(b, m, queue, k, fate, recordFails, AfterAny(b, m, queue, k, fate, recordFails))
  {
    if IsCreate(m.events[k].kind) {
      EventKeeps(b, EventOf(m, queue, k), fate, recordFails);
    }
  }

  ghost predicate FailsWithin(fates: seq<Fate>, recordFails: seq<bool>, n: nat)
    requires n <= |fates| == |recordFails|
  {
    exists k :: 0 <= k < n && recordFails[k] && !Smooth(fates[k])
  }

  /** A message that went through has a row for each of its create events and no further ones, and counts
      those whose processing did not raise. */
  ghost predicate IsAfterEvents(
      b: Tables, m: Message, queue: QueueId, fates: seq<Fate>, recordFails: seq<bool>, n: nat, o: Outcome)
    requires n <= |m.events| == |fates| == |recordFails|
  {
    && Kept(b, o.tables)
    && (o.ok ==> && Seen(o.tables.rows) == SeenAfter(Seen(b.rows), m, queue, n)
                 && o.processed == CountTo(Seen(b.rows), m, queue, fates, n))
    && (!o.ok ==> FailsWithin(fates, recordFails, n))
  }

  lemma EventsGoOn(b: Tables, m: Message, queue: QueueId, fates: seq<Fate>, recordFails: seq<bool>, k: nat,
                   o: Outcome, next: Outcome)
    requires k < |m.events| == |fates| == |recordFails|
    requires IsAfterEvents(b, m, queue, fates, recordFails, k, o)
    requires o.ok ==> IsAfterAny(o.tables, m, queue, k, fates[k], recordFails[k], next)
    ensures IsAfterEvents(b, m, queue, fates, recordFails, k + 1,
                          if o.ok then next.(processed := o.processed + next.processed) else o)
  {
    if o.ok {
      KeptJoins(b, o.tables, next.tables);
      EventJoins(Seen(b.rows), m, queue, fates, k);
    } else {
      var i :| 0 <= i < k && recordFails[i] && !Smooth(fates[i]);
      assert i < k + 1 && recordFails[i];
    }
  }

  lemma NothingKeeps(b: Tables)
    requires ImportedOnce(b.rows, b.imports)
    ensures Kept(b, b)
  {
  }

  lemma {:induction false} EventsKeep(
      b: Tables, m: Message, queue: QueueId, fates: seq<Fate>, recordFails: seq<bool>, n: nat)
    requires ImportedOnce(b.rows, b.imports) && n <= |m.events| == |fates| == |recordFails|
    ensures IsAfterEvents(b, m, queue, fates, recordFails, n, AfterEvents(b, m, queue, fates, recordFails, n))
  {
    if n == 0 {
      NothingKeeps(b);
    } else {
      EventsKeep(b, m, queue, fates, recordFails, n - 1);
      var o := AfterEvents(b, m, queue, fates, recordFails, n - 1);
      var next := AfterAny(o.tables, m, queue, n - 1, fates[n - 1], recordFails[n - 1]);
      if o.ok {
        AnyKeeps(o.tables, m, queue, n - 1, fates[n - 1], recordFails[n - 1]);
      }
      EventsGoOn(b, m, queue, fates, recordFails, n - 1, o, next);
    }
  }

  ghost predicate SomeFails(messages: seq<Message>, fates: seq<seq<Fate>>, recordFails: seq<seq<bool>>, n: nat)
    requires n <= |messages| && SameShape(messages, fates) && SameShape(messages, recordFails)
  {
    exists i :: 0 <= i < n && FailsWithin(fates[i], recordFails[i], |fates[i]|)
  }

  /** A sweep deletes messages in order, each only after all of its create events have a row; it goes
      through all of them unless recording a failure fails. */
  ghost predicate IsAfterMessages(b: Tables, messages: seq<Message>, queue: QueueId, fates: seq<seq<Fate>>,
                                  recordFails: seq<seq<bool>>, n: nat, o: Sweep)
    requires n <= |messages| && SameShape(messages, fates) && SameShape(messages, recordFails)
  {
    var k := |o.deleted|;
    && Kept(b, o.tables)
    && k <= n && o.deleted == Ids(messages[..k]) && Handled(o.tables.rows, messages[..k], queue)
    && (o.ok <==> k == n)
    && (o.ok ==> && Seen(o.tables.rows) == SeenAll(Seen(b.rows), messages, queue, n)
                 && o.processed == CountAll(Seen(b.rows), messages, queue, fates, n))
    && (!o.ok ==> SomeFails(messages, fates, recordFails, n))
  }

  /** The message at position i of a sweep that went through the ones before it. */
  lemma NextMessageHandled(b: Tables, messages: seq<Message>, queue: QueueId, i: nat, fates: seq<Fate>,
                           recordFails: seq<bool>, o: Outcome)
    requires i < |messages| && |messages[i].events| == |fates| == |recordFails|
    requires Handled(b.rows, messages[..i], queue)
    requires IsAfterEvents(b, messages[i], queue, fates, recordFails, |fates|, o)
    ensures Handled(o.tables.rows, messages[..i], queue)
    ensures o.ok ==> Handled(o.tables.rows, messages[..i + 1], queue)
  {
    HandledStays(b.rows, o.tables.rows, messages[..i], queue);
    if o.ok {
      AllSeen(Seen(b.rows), messages[i], queue, |fates|, o.tables.rows);
      MessageJoins(o.tables.rows, messages, queue, i);
    }
  }

  lemma MessagesGoOn(b: Tables, messages: seq<Message>, queue: QueueId, fates: seq<seq<Fate>>,
                     recordFails: seq<seq<bool>>, i: nat, o: Sweep, next: Outcome)
    requires i < |messages| && SameShape(messages, fates) && SameShape(messages, recordFails)
    requires IsAfterMessages(b, messages, queue, fates, recordFails, i, o) && o.ok
    requires IsAfterEvents(o.tables, messages[i], queue, fates[i], recordFails[i], |fates[i]|, next)
    ensures IsAfterMessages(b, messages, queue, fates, recordFails, i + 1,
                            if next.ok then Sweep(next.tables, true, o.processed + next.processed,
                                                  o.deleted + [messages[i].id])
                            else Sweep(next.tables, false, o.processed, o.deleted))
  {
    KeptJoins(b, o.tables, next.tables);
    NextMessageHandled(o.tables, messages, queue, i, fates[i], recordFails[i], next);
    IdsPush(messages, i);
    MessageCounts(Seen(b.rows), messages, queue, fates, i);
  }

  lemma MessagesEnded(b: Tables, messages: seq<Message>, queue: QueueId, fates: seq<seq<Fate>>,
                      recordFails: seq<seq<bool>>, i: nat, o: Sweep)
    requires i < |messages| && SameShape(messages, fates) && SameShape(messages, recordFails)
    requires IsAfterMessages(b, messages, queue, fates, recordFails, i, o) && !o.ok
    ensures IsAfterMessages(b, messages, queue, fates, recordFails, i + 1, o)
  {
    var j :| 0 <= j < i && FailsWithin(fates[j], recordFails[j], |fates[j]|);
    assert j < i + 1;
  }

  lemma {:induction false} SweepKeeps(b: Tables, messages: seq<Message>, queue: QueueId, fates: seq<seq<Fate>>,
                                      recordFails: seq<seq<bool>>, n: nat)
    requires ImportedOnce(b.rows, b.imports)
    requires n <= |messages| && SameShape(messages, fates) && SameShape(messages, recordFails)
    ensures IsAfterMessages(b, messages, queue, fates, recordFails, n,
                            AfterMessages(b, messages, queue, fates, recordFails, n))
  {
    if n == 0 {
      NothingKeeps(b);
      assert messages[..0] == [];
    } else {
      SweepKeeps(b, messages, queue, fates, recordFails, n - 1);
      var o, m := AfterMessages(b, messages, queue, fates, recordFails, n - 1), messages[n - 1];
      if o.ok {
        EventsKeep(o.tables, m, queue, fates[n - 1], recordFails[n - 1], |m.events|);
        MessagesGoOn(b, messages, queue, fates, recordFails, n - 1, o,
                     AfterEvents(o.tables, m, queue, fates[n - 1], recordFails[n - 1], |m.events|));
      } else {
        MessagesEnded(b, messages, queue, fates, recordFails, n - 1, o);
      }
    }
  }

  // ----- what becomes of an event -----

  lemma CreateKinds(kind: string)
    ensures IsCreate(kind) <==>
            kind in ["ObjectCreated:Put", "ObjectCreated:Post", "ObjectCreated:Copy",
                     "ObjectCreated:CompleteMultipartUpload"]
  {
  }

  /** The row of an event says "completed" exactly when the importer made the file, "skipped" exactly when
      it said that the file exists, and is left unfinished exactly when the processing raised; in every
      other case it says "failed". */
  lemma StatusMeans(f: Fate)
    requires !f.RaisesBeforeCommit?
    ensures FinalStatus(f) == Completed <==> f.Answered? && f.code in {200, 201}
    ensures FinalStatus(f) == Skipped <==> f.Answered? && f.code in {400, 409} && f.alreadyExists
    ensures FinalStatus(f) == Pending <==> f.RaisesBeforeTry?
    ensures FinalStatus(f) == Processing <==> f.RaisesInHandler?
  {
  }

  /** An event counts unless its processing raised: before the commit whatever the tables hold, after it
      only if the event is new. */
  lemma CountsMeans(seen: set<Triple>, t: Triple, f: Fate)
    ensures Counts(seen, t, f) <==>
            match f
            case RaisesBeforeCommit => false
            case RaisesBeforeTry => t in seen
            case RaisesInHandler(_) => t in seen
            case _ => true
  {
  }

  /** The importer is called, once and for this event, exactly when the event has no row yet and the
      processing gets that far. */
  lemma ImportIsMade(b: Tables, t: Triple, f: Fate)
    ensures var b' := AfterProcessing(b, t, f);
            match f
            case Answered(_, _) =>
              b'.imports == if t in Seen(b.rows) then b.imports else b.imports + multiset{t}
            case RaisesInTry(imported) =>
              b'.imports == if imported && t !in Seen(b.rows) then b.imports + multiset{t} else b.imports
            case RaisesInHandler(imported) =>
              b'.imports == if imported && t !in Seen(b.rows) then b.imports + multiset{t} else b.imports
            case _ => b'.imports == b.imports
  {
  }

  /** An event whose processing raised and could be recorded has a last row that says "failed". */
  lemma FailureIsRecorded(b: Tables, t: Triple, f: Fate)
    requires !Counts(Seen(b.rows), t, f)
    ensures var rows := AfterEvent(b, t, f, false).tables.rows;
            |rows| > |b.rows| && rows[|rows| - 1] == Row(t, Failed)
  {
  }

  /** Every row that says "completed" or "skipped" is that of an event handed to the importer. */
  ghost predicate Accounted(b: Tables) {
    forall i :: 0 <= i < |b.rows| && b.rows[i].status in {Completed, Skipped} ==> b.rows[i].triple in b.imports
  }

  lemma EventAccounts(b: Tables, t: Triple, fate: Fate, recordFails: bool)
    requires Accounted(b)
    ensures Accounted(AfterEvent(b, t, fate, recordFails).tables)
  {
    var b' := AfterProcessing(b, t, fate);
    if !fate.RaisesBeforeCommit? && t !in Seen(b.rows) {
      StatusMeans(fate);
      ImportIsMade(b, t, fate);
      RowAccounts(b, Row(t, FinalStatus(fate)), b'.imports);
    }
    RowAccounts(b', Row(t, Failed), b'.imports);
  }

  lemma RowAccounts(b: Tables, row: Row, imports: multiset<Triple>)
    requires Accounted(b) && b.imports <= imports
    requires row.status in {Completed, Skipped} ==> row.triple in imports
    ensures Accounted(Tables(b.rows + [row], imports))
  {
    forall i | 0 <= i < |b.rows| && b.rows[i].status in {Completed, Skipped} ensures b.rows[i].triple in imports {
      assert b.rows[i].triple in b.imports;
    }
  }

  lemma {:induction false} EventsAccount(
      b: Tables, m: Message, queue: QueueId, fates: seq<Fate>, recordFails: seq<bool>, n: nat)
    requires Accounted(b) && n <= |m.events| == |fates| == |recordFails|
    ensures Accounted(AfterEvents(b, m, queue, fates, recordFails, n).tables)
  {
    if n > 0 {
      EventsAccount(b, m, queue, fates, recordFails, n - 1);
      var o := AfterEvents(b, m, queue, fates, recordFails, n - 1);
      if o.ok && IsCreate(m.events[n - 1].kind) {
        EventAccounts(o.tables, EventOf(m, queue, n - 1), fates[n - 1], recordFails[n - 1]);
      }
    }
  }

  /** So it is over whole sweeps: no file is reported as imported that was not handed to the importer. */
  lemma {:induction false} SweepAccounts(b: Tables, messages: seq<Message>, queue: QueueId, fates: seq<seq<Fate>>,
                                         recordFails: seq<seq<bool>>, n: nat)
    requires Accounted(b)
    requires n <= |messages| && SameShape(messages, fates) && SameShape(messages, recordFails)
    ensures Accounted(AfterMessages(b, messages, queue, fates, recordFails, n).tables)
  {
    if n > 0 {
      SweepAccounts(b, messages, queue, fates, recordFails, n - 1);
      var o, m := AfterMessages(b, messages, queue, fates, recordFails, n - 1), messages[n - 1];
      if o.ok {
        EventsAccount(o.tables, m, queue, fates[n - 1], recordFails[n - 1], |m.events|);
      }
    }
  }

  /** Every event that gained a row was handed to the importer. */
  ghost predicate ImportsNew(before: Tables, after: Tables) {
    forall t :: t in Seen(after.rows) && t !in Seen(before.rows) ==> t in after.imports
  }

  /** The sweep went on and handed over whatever gained a row. */
  ghost predicate AllImported(b: Tables, o: Outcome) {
    o.ok && ImportsNew(b, o.tables) && b.imports <= o.tables.imports
  }

  lemma NewJoins(a: Tables, b: Tables, c: Tables)
    requires ImportsNew(a, b) && ImportsNew(b, c) && b.imports <= c.imports
    ensures ImportsNew(a, c)
  {
    forall t | t in Seen(c.rows) && t !in Seen(a.rows) ensures t in c.imports {
      if t in Seen(b.rows) {
        assert t in b.imports;
      }
    }
  }

  predicate AllAnswered(fates: seq<Fate>) {
    forall k :: 0 <= k < |fates| ==> fates[k].Answered?
  }

  lemma AnswerImports(b: Tables, m: Message, queue: QueueId, k: nat, fate: Fate, recordFails: bool)
    requires k < |m.events| && fate.Answered?
    ensures AllImported(b, AfterAny(b, m, queue, k, fate, recordFails))
  {
    if IsCreate(m.events[k].kind) && EventOf(m, queue, k) !in Seen(b.rows) {
      ImportIsMade(b, EventOf(m, queue, k), fate);
      SeenPush(b.rows, Row(EventOf(m, queue, k), FinalStatus(fate)));
    }
  }

  lemma MoreImported(b: Tables, o: Outcome, next: Outcome)
    requires AllImported(b, o) && AllImported(o.tables, next)
    ensures AllImported(b, next.(processed := o.processed + next.processed))
  {
    NewJoins(b, o.tables, next.tables);
  }

  lemma {:induction false} AnswersImport(
      b: Tables, m: Message, queue: QueueId, fates: seq<Fate>, recordFails: seq<bool>, n: nat)
    requires n <= |m.events| == |fates| == |recordFails| && AllAnswered(fates)
    ensures AllImported(b, AfterEvents(b, m, queue, fates, recordFails, n))
  {
    if n == 0 {
      assert AllImported(b, Outcome(b, true, 0));
    } else {
      AnswersImport(b, m, queue, fates, recordFails, n - 1);
      var o := AfterEvents(b, m, queue, fates, recordFails, n - 1);
      AnswerImports(o.tables, m, queue, n - 1, fates[n - 1], recordFails[n - 1]);
      MoreImported(b, o, AfterAny(o.tables, m, queue, n - 1, fates[n - 1], recordFails[n - 1]));
    }
  }

  /** When the importer answers every call, a sweep goes through, and hands every create event that had no
      row to the importer, exactly once. */
  lemma {:induction false} AnsweredSweepImports(
      b: Tables, messages: seq<Message>, queue: QueueId, fates: seq<seq<Fate>>, recordFails: seq<seq<bool>>, n: nat)
    requires ImportedOnce(b.rows, b.imports)
    requires n <= |messages| && SameShape(messages, fates) && SameShape(messages, recordFails)
    requires forall i :: 0 <= i < |fates| ==> AllAnswered(fates[i])
    ensures var o := AfterMessages(b, messages, queue, fates, recordFails, n);
            && o.ok && ImportsNew(b, o.tables) && b.imports <= o.tables.imports
            && forall t :: t in SeenAll(Seen(b.rows), messages, queue, n) && t !in Seen(b.rows) ==>
                 o.tables.imports[t] == 1
  {
    if n > 0 {
      AnsweredSweepImports(b, messages, queue, fates, recordFails, n - 1);
      var o, m := AfterMessages(b, messages, queue, fates, recordFails, n - 1), messages[n - 1];
      AnswersImport(o.tables, m, queue, fates[n - 1], recordFails[n - 1], |m.events|);
      NewJoins(b, o.tables, AfterEvents(o.tables, m, queue, fates[n - 1], recordFails[n - 1], |m.events|).tables);
    }
    SweepKeeps(b, messages, queue, fates, recordFails, n);
    var o := AfterMessages(b, messages, queue, fates, recordFails, n);
    OnceEach(o.tables);
  }

  lemma OnceEach(b: Tables)
    requires ImportedOnce(b.rows, b.imports)
    ensures forall t :: t in b.imports ==> b.imports[t] == 1
  {
  }

  class Poller {
    var rows: seq<Row>
    var imports: multiset<Triple>
    var deleted: seq<MsgId>

    ghost predicate Valid()
      reads this
    {
      ImportedOnce(rows, imports)
    }

    ghost function Now(): Tables
      reads this`rows, this`imports
    {
      Tables(rows, imports)
    }

    constructor ()
      ensures Valid() && rows == [] && imports == multiset{} && deleted == []
    {
      rows, imports, deleted := [], multiset{}, [];
    }

    method ExistsForMessage(t: Triple) returns (found: bool)
      ensures found <==> Recorded(rows, t)
    {
      found := false;
      for i := 0 to |rows|
        invariant forall k :: 0 <= k < i ==> rows[k].triple != t
      {
        if rows[i].triple == t {
          return true;
        }
      }
    }

    method UpdateStatus(row: nat, status: Status)
      requires row < |rows|
      modifies this`rows
      ensures rows == old(rows)[row := Row(old(rows)[row].triple, status)]
    {
      rows := rows[row := rows[row].(status := status)];
    }

    /** What follows the commit of an event's row. */
    method ImportRecorded(row: nat, fate: Fate) returns (raised: bool)
      requires row < |rows| && rows[row].status == Pending && !fate.RaisesBeforeCommit?
      modifies this`rows, this`imports
      ensures rows == old(rows)[row := Row(old(rows)[row].triple, FinalStatus(fate))]
      ensures imports == if CallsImport(fate) then old(imports) + multiset{old(rows)[row].triple} else old(imports)
      ensures raised == (fate.RaisesBeforeTry? || fate.RaisesInHandler?)
    {
      raised := false;
      if fate.NoCredentials? || fate.NoToken? {
        UpdateStatus(row, Failed);
        return;
      }
      if fate.RaisesBeforeTry? {
        return true;
      }
      UpdateStatus(row, Processing);
      if CallsImport(fate) {
        imports := imports + multiset{rows[row].triple};
      }
      match fate {
        case Answered(code, alreadyExists) =>
          if code == 200 || code == 201 {
            UpdateStatus(row, Completed);
          } else if (code == 400 || code == 409) && alreadyExists {
            UpdateStatus(row, Skipped);
          } else {
            UpdateStatus(row, Failed);
          }
        case NoFolder => UpdateStatus(row, Failed);
        case RaisesInTry(_) => UpdateStatus(row, Failed);
        case _ => raised := true;
      }
    }

    /** The probe, the one committed row, and what follows. */
    method ProcessEvent(t: Triple, fate: Fate) returns (raised: bool)
      modifies this`rows, this`imports
      ensures Now() == AfterProcessing(old(Now()), t, fate)
      ensures raised == !Counts(Seen(old(rows)), t, fate)
    {
      if fate.RaisesBeforeCommit? {
        return true;
      }
      var found := ExistsForMessage(t);
      SeenRecorded(rows, t);
      if found {
        return false;
      }
      var row := |rows|;
      rows := rows + [Row(t, Pending)];
      raised := ImportRecorded(row, fate);
      assert rows == old(rows) + [Row(t, FinalStatus(fate))];
    }

    /** The caller's handler records an event whose processing raised, under a row of its own. */
    method RecordFailure(t: Triple)
      modifies this`rows
      ensures rows == old(rows) + [Row(t, Failed)]
    {
      var row := |rows|;
      rows := rows + [Row(t, Pending)];
      UpdateStatus(row, Failed);
      assert rows == old(rows) + [Row(t, Failed)];
    }

    /** One create event with its caller's handler; `ok` is false when recording a failure fails. */
    method HandleEvent(t: Triple, fate: Fate, recordFails: bool) returns (ok: bool, counted: bool)
      modifies this`rows, this`imports
      ensures Outcome(Now(), ok, if counted then 1 else 0) == AfterEvent(old(Now()), t, fate, recordFails)
    {
      var raised := ProcessEvent(t, fate);
      ok, counted := true, !raised;
      if raised {
        if recordFails {
          return false, false;
        }
        RecordFailure(t);
      }
    }

    method HandleAny(m: Message, queue: QueueId, k: nat, fate: Fate, recordFails: bool)
      returns (ok: bool, counted: nat)
      requires k < |m.events|
      modifies this`rows, this`imports
      ensures Outcome(Now(), ok, counted) == AfterAny(old(Now()), m, queue, k, fate, recordFails)
    {
      ok, counted := true, 0;
      if IsCreate(m.events[k].kind) {
        var processed;
        ok, processed := HandleEvent(EventOf(m, queue, k), fate, recordFails);
        counted := if processed then 1 else 0;
      }
    }

    /** The next event after those that went through. */
    method HandleNext(ghost b: Tables, m: Message, queue: QueueId, fates: seq<Fate>, recordFails: seq<bool>,
                      k: nat, before: nat)
      returns (ok: bool, processed: nat)
      requires k < |m.events| == |fates| == |recordFails|
      requires Outcome(Now(), true, before) == AfterEvents(b, m, queue, fates, recordFails, k)
      modifies this`rows, this`imports
      ensures Outcome(Now(), ok, processed) == AfterEvents(b, m, queue, fates, recordFails, k + 1)
    {
      var counted;
      ok, counted := HandleAny(m, queue, k, fates[k], recordFails[k]);
      processed := before + counted;
    }

    /** All events of one message; `ok` is false when recording a failure fails itself, and then the
        sweep ends here. An event whose processing raised is not counted. */
    method ProcessMessage(m: Message, queue: QueueId, fates: seq<Fate>, recordFails: seq<bool>)
      returns (ok: bool, processed: nat)
      requires |fates| == |recordFails| == |m.events|
      modifies this`rows, this`imports
      ensures Outcome(Now(), ok, processed) == AfterEvents(old(Now()), m, queue, fates, recordFails, |m.events|)
    {
      ghost var was := Now();
      ok, processed := true, 0;
      var i := 0;
      while ok && i < |m.events|
        invariant i <= |m.events|
        invariant Outcome(Now(), ok, processed) == AfterEvents(was, m, queue, fates, recordFails, i)
        decreases |m.events| - i
      {
        ok, processed := HandleNext(was, m, queue, fates, recordFails, i, processed);
        i := i + 1;
      }
      if !ok {
        EventsEnd(was, m, queue, fates, recordFails, i, |m.events|);
      }
    }

    /** One sweep of a queue. When recording a failure fails, the sweep stops and the message stays in
        the queue. */
    method PollQueue(queue: QueueId, messages: seq<Message>, fates: seq<seq<Fate>>, recordFails: seq<seq<bool>>)
      returns (ok: bool, processed: nat)
      requires SameShape(messages, fates) && SameShape(messages, recordFails)
      modifies this
      ensures var o := AfterMessages(old(Now()), messages, queue, fates, recordFails, |messages|);
              Sweep(Now(), ok, processed, o.deleted) == o && deleted == old(deleted) + o.deleted
    {
      ghost var was := Now();
      ok, processed := true, 0;
      var i := 0;
      while ok && i < |messages|
        invariant i <= |messages|
        invariant var o := AfterMessages(was, messages, queue, fates, recordFails, i);
                  Sweep(Now(), ok, processed, o.deleted) == o && deleted == old(deleted) + o.deleted
        decreases |messages| - i
      {
        var count;
        ok, count := ProcessMessage(messages[i], queue, fates[i], recordFails[i]);
        if ok {
          processed := processed + count;
          deleted := deleted + [messages[i].id];
        }
        i := i + 1;
      }
      if !ok {
        MessagesEnd(was, messages, queue, fates, recordFails, i, |messages|);
      }
    }
  }

  function Ids(messages: seq<Message>): (r: seq<MsgId>)
    ensures |r| == |messages|
  {
    if messages == [] then [] else Ids(messages[..|messages| - 1]) + [messages[|messages| - 1].id]
  }

  lemma IdsPush(messages: seq<Message>, i: nat)
    requires i < |messages|
    ensures Ids(messages[..i + 1]) == Ids(messages[..i]) + [messages[i].id]
  {
    assert messages[..i + 1][..i] == messages[..i];
  }

  /** Every create event of every message has a row. */
  ghost predicate Handled(rows: seq<Row>, messages: seq<Message>, queue: QueueId) {
    forall i :: 0 <= i < |messages| ==> AllRecorded(rows, messages[i], queue, |messages[i].events|)
  }

  lemma HandledStays(before: seq<Row>, after: seq<Row>, messages: seq<Message>, queue: QueueId)
    requires Extends(before, after) && Handled(before, messages, queue)
    ensures Handled(after, messages, queue)
  {
    forall i | 0 <= i < |messages| ensures AllRecorded(after, messages[i], queue, |messages[i].events|) {
      AllRecordedStays(before, after, messages[i], queue, |messages[i].events|);
    }
  }

  lemma MessageJoins(rows: seq<Row>, messages: seq<Message>, queue: QueueId, i: nat)
    requires i < |messages| && Handled(rows, messages[..i], queue)
    requires AllRecorded(rows, messages[i], queue, |messages[i].events|)
    ensures Handled(rows, messages[..i + 1], queue)
  {
    var upTo := messages[..i + 1];
    forall j | 0 <= j < |upTo| ensures AllRecorded(rows, upTo[j], queue, |upTo[j].events|) {
      assert j < i ==> messages[..i][j] == upTo[j];
    }
  }

  /** Each of the first n events that creates an object has a row. */
  ghost predicate AllRecorded(rows: seq<Row>, m: Message, queue: QueueId, n: nat)
    requires n <= |m.events|
  {
    forall k :: 0 <= k < n && IsCreate(m.events[k].kind) ==> Recorded(rows, Triple(m.id, queue, m.events[k].key))
  }

  lemma {:induction false} AllSeen(seen: set<Triple>, m: Message, queue: QueueId, n: nat, rows: seq<Row>)
    requires n <= |m.events| && SeenAfter(seen, m, queue, n) <= Seen(rows)
    ensures AllRecorded(rows, m, queue, n)
  {
    if n > 0 {
      AllSeen(seen, m, queue, n - 1, rows);
      SeenRecorded(rows, EventOf(m, queue, n - 1));
    }
  }

  lemma AllRecordedStays(before: seq<Row>, after: seq<Row>, m: Message, queue: QueueId, n: nat)
    requires n <= |m.events| && Extends(before, after) && AllRecorded(before, m, queue, n)
    ensures AllRecorded(after, m, queue, n)
  {
    forall k | 0 <= k < n && IsCreate(m.events[k].kind)
      ensures Recorded(after, Triple(m.id, queue, m.events[k].key))
    {
      RecordedStays(before, after, Triple(m.id, queue, m.events[k].key));
    }
  }

  lemma OnlyNewJoins(first: seq<Row>, mid: seq<Row>, a: multiset<Triple>, b: multiset<Triple>, c: multiset<Triple>)
    requires Extends(first, mid) && OnlyNew(first, a, b) && OnlyNew(mid, b, c)
    ensures OnlyNew(first, a, c)
  {
    forall t | Recorded(first, t) ensures c[t] == a[t] {
      RecordedStays(first, mid, t);
    }
  }
}
