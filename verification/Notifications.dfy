/** Editing the notification configuration of a bucket: read it, replace the queue entries of one queue,
    write the whole of it back. */
module Notifications {
  import opened Prelude

  datatype Rule = Rule(name: string, value: string)

  /** A queue entry; every field S3 may leave out is an option. */
  datatype QueueEntry = QueueEntry(
    id: Option<string>, arn: Option<string>, events: seq<string>, rules: Option<seq<Rule>>)

  /** A configuration as read. An enabled EventBridge integration is an empty dictionary. */
  datatype Config<T> = Config(
    queues: seq<QueueEntry>, topics: seq<T>, lambdas: seq<T>, eventBridge: Option<map<string, string>>)

  const OBJECT_CREATED := ["s3:ObjectCreated:*"]

  // ----- what the edits compute -----

  function Without(queues: seq<QueueEntry>, id: Option<string>, arn: string): seq<QueueEntry> {
    if queues == [] then []
    else
      var rest := Without(queues[..|queues| - 1], id, arn);
      var q := queues[|queues| - 1];
      if (id.Some? && q.id == id) || q.arn == Some(arn) then rest else rest + [q]
  }

  function Rules(prefix: string, suffix: string): seq<Rule> {
    (if prefix == "" then [] else [Rule("prefix", prefix)])
    + (if suffix == "" then [] else [Rule("suffix", suffix)])
  }

  function Entry(id: string, arn: string, events: Option<seq<string>>, prefix: string, suffix: string): QueueEntry {
    var rules := Rules(prefix, suffix);
    QueueEntry(Some(id), Some(arn), if events.Some? then events.value else OBJECT_CREATED,
               if rules == [] then None else Some(rules))
  }

  /** Only what Python takes for true is written back. */
  function Truthy(e: Option<map<string, string>>): Option<map<string, string>> {
    if e.Some? && e.value != map[] then e else None
  }

  function Added<T>(c: Config<T>, e: QueueEntry): Config<T>
    requires e.id.Some? && e.arn.Some?
  {
    Config(Without(c.queues, e.id, e.arn.value) + [e], c.topics, c.lambdas, Truthy(c.eventBridge))
  }

  function Removed<T>(c: Config<T>, arn: string): Config<T> {
    Config(Without(c.queues, None, arn), c.topics, c.lambdas, Truthy(c.eventBridge))
  }

  // ----- the bucket -----

  /** A bucket whose configuration is replaced in one request; either request may fail. */
  class Bucket<T> {
    var config: Config<T>

    constructor (config: Config<T>)
      ensures this.config == config
    {
      this.config := config;
    }

    /** add_sqs_notification: the configuration is edited as a whole or not at all. */
    method AddSqsNotification(
        arn: string, id: string, events: Option<seq<string>>, prefix: string, suffix: string,
        getFails: bool, putFails: bool) returns (ok: bool)
      modifies this
      ensures ok <==> !getFails && !putFails
      ensures config == if ok then Added(old(config), Entry(id, arn, events, prefix, suffix)) else old(config)
    {
      if getFails {
        return false;
      }
      var queues := [];
      for i := 0 to |config.queues|
        invariant config == old(config)
        invariant queues == Without(config.queues[..i], Some(id), arn)
      {
        assert config.queues[..i + 1][..i] == config.queues[..i];
        var q := config.queues[i];
        if q.id != Some(id) && q.arn != Some(arn) {
          queues := queues + [q];
        }
      }
      assert config.queues[..|config.queues|] == config.queues;
      var rules: seq<Rule> := [];
      if prefix != "" {
        rules := rules + [Rule("prefix", prefix)];
      }
      if suffix != "" {
        rules := rules + [Rule("suffix", suffix)];
      }
      assert rules == Rules(prefix, suffix);
      var entry := QueueEntry(Some(id), Some(arn), if events.Some? then events.value else OBJECT_CREATED,
                              if rules == [] then None else Some(rules));
      queues := queues + [entry];
      if putFails {
        return false;
      }
      config := Config(queues, config.topics, config.lambdas, Truthy(config.eventBridge));
      ok := true;
    }

    /** remove_sqs_notification */
    method RemoveSqsNotification(arn: string, getFails: bool, putFails: bool) returns (ok: bool)
      modifies this
      ensures ok <==> !getFails && !putFails
      ensures config == if ok then Removed(old(config), arn) else old(config)
    {
      if getFails {
        return false;
      }
      var queues := [];
      for i := 0 to |config.queues|
        invariant config == old(config)
        invariant queues == Without(config.queues[..i], None, arn)
      {
        assert config.queues[..i + 1][..i] == config.queues[..i];
        if config.queues[i].arn != Some(arn) {
          queues := queues + [config.queues[i]];
        }
      }
      assert config.queues[..|config.queues|] == config.queues;
      if putFails {
        return false;
      }
      config := Config(queues, config.topics, config.lambdas, Truthy(config.eventBridge));
      ok := true;
    }
  }

  // ----- what the edits mean -----

  predicate Related(q: QueueEntry, id: Option<string>, arn: string) {
    (id.Some? && q.id == id) || q.arn == Some(arn)
  }

  predicate Ascending(at: seq<nat>) {
    forall i, j :: 0 <= i < j < |at| ==> at[i] < at[j]
  }

  predicate PicksUnrelated(whole: seq<QueueEntry>, part: seq<QueueEntry>, at: seq<nat>, id: Option<string>, arn: string)
  {
    && |at| == |part|
    && forall i :: 0 <= i < |at| ==> at[i] < |whole| && part[i] == whole[at[i]] && !Related(part[i], id, arn)
  }

  predicate PicksAll(whole: seq<QueueEntry>, at: seq<nat>, id: Option<string>, arn: string) {
    forall k :: 0 <= k < |whole| && !Related(whole[k], id, arn) ==> k in at
  }

  lemma PickOne(whole: seq<QueueEntry>, part: seq<QueueEntry>, at: seq<nat>, q: QueueEntry,
                id: Option<string>, arn: string)
    requires PicksUnrelated(whole, part, at, id, arn) && Ascending(at) && PicksAll(whole, at, id, arn)
    requires !Related(q, id, arn)
    ensures PicksUnrelated(whole + [q], part + [q], at + [|whole|], id, arn)
    ensures Ascending(at + [|whole|])
    ensures PicksAll(whole + [q], at + [|whole|], id, arn)
  {
    var at' := at + [|whole|];
    assert at'[|at|] == |whole|;
    assert forall k :: k in at ==> k in at';
  }

  lemma SkipOne(whole: seq<QueueEntry>, part: seq<QueueEntry>, at: seq<nat>, q: QueueEntry,
                id: Option<string>, arn: string)
    requires PicksUnrelated(whole, part, at, id, arn) && PicksAll(whole, at, id, arn)
    requires Related(q, id, arn)
    ensures PicksUnrelated(whole + [q], part, at, id, arn) && PicksAll(whole + [q], at, id, arn)
  {
    assert forall k :: 0 <= k < |whole| ==> (whole + [q])[k] == whole[k];
    assert (whole + [q])[|whole|] == q;
  }

  lemma WithoutUnfolds(queues: seq<QueueEntry>, q: QueueEntry, id: Option<string>, arn: string)
    ensures Without(queues + [q], id, arn) ==
            Without(queues, id, arn) + (if Related(q, id, arn) then [] else [q])
  {
    assert (queues + [q])[..|queues|] == queues;
  }

  /** The entries left are all the unrelated ones, each once and in order: `at` says where each one
      came from. */
  lemma {:induction false} WithoutKeepsTheRest(queues: seq<QueueEntry>, id: Option<string>, arn: string)
    returns (at: seq<nat>)
    ensures PicksUnrelated(queues, Without(queues, id, arn), at, id, arn)
    ensures Ascending(at) && PicksAll(queues, at, id, arn)
  {
    if queues == [] {
      at := [];
    } else {
      var n := |queues| - 1;
      var front, q := queues[..n], queues[n];
      at := WithoutKeepsTheRest(front, id, arn);
      assert front + [q] == queues;
      WithoutUnfolds(front, q, id, arn);
      if Related(q, id, arn) {
        SkipOne(front, Without(front, id, arn), at, q, id, arn);
      } else {
        PickOne(front, Without(front, id, arn), at, q, id, arn);
        at := at + [n];
      }
    }
  }

  lemma {:induction false} WithoutNothing(queues: seq<QueueEntry>, id: Option<string>, arn: string)
    ensures Without(queues, id, arn) == queues <==> forall i :: 0 <= i < |queues| ==> !Related(queues[i], id, arn)
    ensures |Without(queues, id, arn)| <= |queues|
  {
    if queues != [] {
      var n := |queues| - 1;
      WithoutNothing(queues[..n], id, arn);
      assert queues == queues[..n] + [queues[n]];
      if Without(queues, id, arn) == queues {
        assert Without(queues[..n], id, arn) == queues[..n];
      }
    }
  }

  lemma WithoutLeavesNone(queues: seq<QueueEntry>, id: Option<string>, arn: string)
    ensures forall i :: 0 <= i < |Without(queues, id, arn)| ==> !Related(Without(queues, id, arn)[i], id, arn)
  {
    var at := WithoutKeepsTheRest(queues, id, arn);
  }

  lemma WithoutLast(queues: seq<QueueEntry>, e: QueueEntry, id: Option<string>, arn: string)
    requires Related(e, id, arn)
    ensures Without(queues + [e], id, arn) == Without(queues, id, arn)
  {
    assert (queues + [e])[..|queues|] == queues;
  }

  /** After an addition exactly one entry, the new one, has the id or the queue of the notification;
      the topics and functions are kept. */
  lemma AddLeavesOne<T>(c: Config<T>, e: QueueEntry)
    requires e.id.Some? && e.arn.Some?
    ensures var c' := Added(c, e);
            && c'.queues != [] && c'.queues[|c'.queues| - 1] == e
            && (forall i :: 0 <= i < |c'.queues| - 1 ==> !Related(c'.queues[i], e.id, e.arn.value))
            && c'.topics == c.topics && c'.lambdas == c.lambdas
  {
    WithoutLeavesNone(c.queues, e.id, e.arn.value);
  }

  /** Adding twice is adding once. */
  lemma AddIsIdempotent<T>(c: Config<T>, e: QueueEntry)
    requires e.id.Some? && e.arn.Some?
    ensures Added(Added(c, e), e) == Added(c, e)
  {
    var kept := Without(c.queues, e.id, e.arn.value);
    WithoutLast(kept, e, e.id, e.arn.value);
    WithoutLeavesNone(c.queues, e.id, e.arn.value);
    WithoutNothing(kept, e.id, e.arn.value);
  }

  /** Adding and then removing leaves the original entries but those with the id or the queue. */
  lemma RemoveAfterAdd<T>(c: Config<T>, e: QueueEntry)
    requires e.id.Some? && e.arn.Some?
    ensures Removed(Added(c, e), e.arn.value) ==
            Config(Without(c.queues, e.id, e.arn.value), c.topics, c.lambdas, Truthy(c.eventBridge))
  {
    var kept := Without(c.queues, e.id, e.arn.value);
    WithoutLast(kept, e, None, e.arn.value);
    WithoutLeavesNone(c.queues, e.id, e.arn.value);
    WithoutNothing(kept, None, e.arn.value);
  }

  /** So the pair restores the configuration exactly when nothing in it had the id or the queue, and
      EventBridge delivery was not enabled in the way S3 reports it. */
  lemma AddAndRemoveRestores<T>(c: Config<T>, e: QueueEntry)
    requires e.id.Some? && e.arn.Some?
    ensures Removed(Added(c, e), e.arn.value) == c <==>
            && (forall i :: 0 <= i < |c.queues| ==> !Related(c.queues[i], e.id, e.arn.value))
            && c.eventBridge != Some(map[])
  {
    RemoveAfterAdd(c, e);
    WithoutNothing(c.queues, e.id, e.arn.value);
  }

  /** Either edit keeps the EventBridge part exactly when it is not an empty dictionary. */
  lemma EventBridgeKept<T>(c: Config<T>, e: QueueEntry, arn: string)
    requires e.id.Some? && e.arn.Some?
    ensures Added(c, e).eventBridge == c.eventBridge <==> c.eventBridge != Some(map[])
    ensures Removed(c, arn).eventBridge == c.eventBridge <==> c.eventBridge != Some(map[])
  {
  }

  /** S3 reports enabled delivery to EventBridge as an empty dictionary, and an edit turns it off. */
  lemma EventBridgeLost(e: QueueEntry)
    requires e.id.Some? && e.arn.Some?
    ensures var c: Config<string> := Config([], [], [], Some(map[]));
            Added(c, e) == Config([e], [], [], None)
  {
  }

  /** The entry built names its notification and its queue, and by default reports every creation. */
  lemma EntryNames(id: string, arn: string, events: Option<seq<string>>, prefix: string, suffix: string)
    ensures var e := Entry(id, arn, events, prefix, suffix);
            && e.id == Some(id) && e.arn == Some(arn)
            && e.events == (match events case None => ["s3:ObjectCreated:*"] case Some(some) => some)
            && (e.rules.None? <==> prefix == "" && suffix == "")
  {
  }

  // ----- which keys an entry reports -----

  predicate EndsWith(key: string, suffix: string) {
    |suffix| <= |key| && key[|key| - |suffix|..] == suffix
  }

  /** The filter rules of an entry as S3 applies them. */
  predicate Reports(q: QueueEntry, key: string) {
    q.rules.Some? ==>
      forall i :: 0 <= i < |q.rules.value| ==>
        var r := q.rules.value[i];
        (r.name == "prefix" ==> r.value <= key) && (r.name == "suffix" ==> EndsWith(key, r.value))
  }

  /** The entry built for a prefix and a suffix reports exactly the keys that have both. */
  lemma EntryReports(
      id: string, arn: string, events: Option<seq<string>>, prefix: string, suffix: string, key: string)
    ensures Reports(Entry(id, arn, events, prefix, suffix), key) <==> prefix <= key && EndsWith(key, suffix)
  {
    var rules := Rules(prefix, suffix);
    if prefix != "" {
      assert rules[0] == Rule("prefix", prefix);
    }
    if suffix != "" {
      assert rules[|rules| - 1] == Rule("suffix", suffix);
    }
  }
}
