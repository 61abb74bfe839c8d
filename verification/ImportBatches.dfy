/** The batch loop of the import worker: keys are submitted twenty-five at a time, the answers of a
    batch are tallied, and one progress row is written per batch. */
module ImportBatches {
  /** What one import call comes back with. `alreadyExists` says whether the error text, lower-cased,
      contains "already exists". `Aborted` is a cancellation delivered as a result: it is no
      Exception, so unpacking it as a pair raises in the worker. */
  datatype Reply =
    | Answer(code: int, alreadyExists: bool)
    | Raised
    | Aborted

  datatype Kind = New | Skipped | Failed | Interrupted

  function KindOf(r: Reply): Kind {
    match r
    case Raised => Failed
    case Aborted => Interrupted
    case Answer(code, alreadyExists) =>
      if code == 200 || code == 201 then New
      else if code == 409 || (code == 400 && alreadyExists) then Skipped
      else Failed
  }

  datatype Tally = Tally(added: nat, skipped: nat, failed: nat) {
    function Of(kind: Kind): nat
      requires !kind.Interrupted?
    {
      match kind
      case New => added
      case Skipped => skipped
      case Failed => failed
    }
    function Handled(): nat { added + skipped + failed }
  }

  /** Counts the answers one after the other. */
  function TallyOf(rs: seq<Reply>): Tally
  {
    if rs == [] then Tally(0, 0, 0)
    else
      var t := TallyOf(rs[..|rs| - 1]);
      var r := rs[|rs| - 1];
      match KindOf(r)
      case New => t.(added := t.added + 1)
      case Skipped => t.(skipped := t.skipped + 1)
      case Failed => t.(failed := t.failed + 1)
      case Interrupted => t
  }

  /** One more answer: a call that raised failed; 200 and 201 are new; a conflict, or a bad request that
      says "already exists", is skipped; everything else failed. */
  lemma AnswerCounts(rs: seq<Reply>, r: Reply)
    ensures var t, t' := TallyOf(rs), TallyOf(rs + [r]);
            match r
            case Raised => t' == Tally(t.added, t.skipped, t.failed + 1)
            case Aborted => t' == t
            case Answer(code, exists') =>
              if code in {200, 201} then t' == Tally(t.added + 1, t.skipped, t.failed)
              else if code == 409 || (code == 400 && exists') then t' == Tally(t.added, t.skipped + 1, t.failed)
              else t' == Tally(t.added, t.skipped, t.failed + 1)
  {
    assert (rs + [r])[..|rs|] == rs;
  }

  ghost function Positions(rs: seq<Reply>, kind: Kind): set<nat> {
    set i: nat | i < |rs| && KindOf(rs[i]) == kind
  }

  lemma {:induction false} PositionsOfPrefix(rs: seq<Reply>, kind: Kind)
    requires rs != []
    ensures |Positions(rs, kind)| ==
            |Positions(rs[..|rs| - 1], kind)| + (if KindOf(rs[|rs| - 1]) == kind then 1 else 0)
  {
    var n := |rs| - 1;
    assert Positions(rs, kind) - {n} == Positions(rs[..n], kind);
  }

  /** The tally is the number of positions of each kind. */
  lemma {:induction false} TallyCounts(rs: seq<Reply>, kind: Kind)
    requires !kind.Interrupted?
    ensures TallyOf(rs).Of(kind) == |Positions(rs, kind)|
  {
    if rs == [] {
      assert Positions(rs, kind) == {};
    } else {
      TallyCounts(rs[..|rs| - 1], kind);
      PositionsOfPrefix(rs, kind);
    }
  }

  /** Without an interrupted call every answer is counted exactly once. */
  lemma {:induction false} TallyCovers(rs: seq<Reply>)
    requires forall i :: 0 <= i < |rs| ==> !rs[i].Aborted?
    ensures TallyOf(rs).Handled() == |rs|
  {
    if rs != [] {
      TallyCovers(rs[..|rs| - 1]);
    }
  }

  lemma {:induction false} TallyConcat(a: seq<Reply>, b: seq<Reply>)
    ensures TallyOf(a + b) == Tally(TallyOf(a).added + TallyOf(b).added,
                                    TallyOf(a).skipped + TallyOf(b).skipped,
                                    TallyOf(a).failed + TallyOf(b).failed)
  {
    if b == [] {
      assert a + b == a;
    } else {
      TallyConcat(a, b[..|b| - 1]);
      assert (a + b)[..|a + b| - 1] == a + b[..|b| - 1];
    }
  }

  /** The percentage shown to the user; the source works in floating point, this in the reals. */
  function Percent(handled: nat, total: nat): (p: int)
    requires handled <= total && 0 < total
    ensures 0 <= p <= 100
    ensures p == 100 <==> handled == total
    ensures p * total <= 100 * handled < (p + 1) * total
  {
    PercentBounds(handled, total);
    PercentIsQuotient(handled, total);
    (handled as real / total as real * 100.0).Floor
  }

  /** Rounded down: the percentage fits into the hundredfold and the next one does not. */
  lemma PercentIsQuotient(handled: nat, total: nat)
    requires 0 < total
    ensures var p := (handled as real / total as real * 100.0).Floor;
            p * total <= 100 * handled < (p + 1) * total
  {
    var t := total as real;
    var x := handled as real / t * 100.0;
    var p := x.Floor;
    QuotientTimes(handled as real, t);
    HundredTimes(handled as real / t, t);
    AtMostProduct(p, x, total, 100 * handled);
    LessThanProduct(p + 1, x, total, 100 * handled);
  }

  lemma AtMostProduct(p: int, x: real, total: nat, n: nat)
    requires 0 < total && p as real <= x && x * total as real == n as real
    ensures p * total <= n
  {
    ProductGrows(p as real, x, total as real);
    ProductAsReal(p, total);
  }

  lemma LessThanProduct(p: int, x: real, total: nat, n: nat)
    requires 0 < total && x < p as real && x * total as real == n as real
    ensures n < p * total
  {
    ProductGrowsMore(x, p as real, total as real);
    ProductAsReal(p, total);
  }

  lemma HundredTimes(q: real, t: real)
    ensures q * 100.0 * t == 100.0 * (q * t)
  {
  }

  lemma {:induction false} ProductAsReal(p: int, n: nat)
    ensures (p * n) as real == p as real * n as real
  {
    if n > 0 {
      ProductAsReal(p, n - 1);
      assert p * n == p * (n - 1) + p;
      assert p as real * n as real == p as real * (n - 1) as real + p as real;
    }
  }

  lemma ProductGrows(a: real, b: real, t: real)
    requires a <= b && t > 0.0
    ensures a * t <= b * t
  {
  }

  lemma ProductGrowsMore(a: real, b: real, t: real)
    requires a < b && t > 0.0
    ensures a * t < b * t
  {
  }

  lemma PercentBounds(handled: nat, total: nat)
    requires handled <= total && 0 < total
    ensures var x := handled as real / total as real * 100.0;
            0.0 <= x <= 100.0 && (handled == total ==> x == 100.0) && (handled < total ==> x < 100.0)
  {
    var h, t := handled as real, total as real;
    var q := h / t;
    assert q * t == h;
    assert 0.0 <= q;
    if handled == total {
      assert q == 1.0;
    } else {
      assert q < 1.0;
    }
  }

  lemma QuotientTimes(x: real, t: real)
    requires t > 0.0
    ensures x / t * t == x
  {
  }

  lemma ProductSign(d: real, t: real)
    requires t > 0.0 && d * t >= 0.0
    ensures d >= 0.0
  {
  }

  lemma ProductOfDifference(p: real, q: real, t: real)
    ensures (q - p) * t == q * t - p * t
  {
  }

  lemma QuotientGrows(x: real, y: real, t: real)
    requires x <= y && t > 0.0
    ensures x / t <= y / t
  {
    QuotientTimes(x, t);
    QuotientTimes(y, t);
    ProductOfDifference(x / t, y / t, t);
    ProductSign(y / t - x / t, t);
  }

  lemma PercentGrows(a: nat, b: nat, total: nat)
    requires a <= b <= total && 0 < total
    ensures Percent(a, total) <= Percent(b, total)
  {
    QuotientGrows(a as real, b as real, total as real);
  }

  datatype Progress = Progress(completed: nat, failed: nat, added: nat, skipped: nat, percent: int)

  /** The progress row is true to the answers `rs` received so far. */
  ghost predicate Reports(w: Progress, rs: seq<Reply>, total: nat) {
    && 0 < total && |rs| <= total
    && Tally(w.added, w.skipped, w.failed) == TallyOf(rs)
    && w.completed == w.added + w.skipped
    && w.completed + w.failed == |rs|
    && w.percent == Percent(|rs|, total)
  }

  /** How the loop ended: every key handed over, a check that read "cancelled", or an exception. */
  datatype Ending = Exhausted | BrokenOff | Thrown

  function Min(a: nat, b: nat): nat { if a < b then a else b }

  /** Batches hold twenty-five keys, the last one what is left. */
  function BatchStart(j: nat): nat { 25 * j }

  function BatchEnd(j: nat, total: nat): nat { Min(25 * j + 25, total) }

  /** Tallies the answers of one batch; `ok` is false when an aborted call makes the worker raise. */
  method TallyBatch(results: seq<Reply>) returns (ok: bool, added: nat, skipped: nat, failed: nat)
    ensures ok == (forall i :: 0 <= i < |results| ==> !results[i].Aborted?)
    ensures ok ==> TallyOf(results) == Tally(added, skipped, failed)
  {
    ok, added, skipped, failed := true, 0, 0, 0;
    var i := 0;
    while i < |results|
      invariant 0 <= i <= |results|
      invariant forall k :: 0 <= k < i ==> !results[k].Aborted?
      invariant ok && TallyOf(results[..i]) == Tally(added, skipped, failed)
    {
      assert results[..i + 1][..i] == results[..i];
      match results[i] {
        case Raised =>
          failed := failed + 1;
        case Aborted =>
          ok := false;
          return;
        case Answer(code, alreadyExists) =>
          if code == 200 || code == 201 {
            added := added + 1;
          } else if code == 409 {
            skipped := skipped + 1;
          } else if code == 400 && alreadyExists {
            skipped := skipped + 1;
          } else {
            failed := failed + 1;
          }
      }
      i := i + 1;
    }
    assert results[..i] == results;
  }

  /** Every progress row is true to the answers of the batches up to its own. */
  ghost predicate WritesAreTrue(writes: seq<Progress>, replies: seq<Reply>) {
    forall j :: 0 <= j < |writes| ==>
      Reports(writes[j], replies[..BatchEnd(j, |replies|)], |replies|)
  }

  lemma WriteJoins(writes: seq<Progress>, w: Progress, replies: seq<Reply>)
    requires WritesAreTrue(writes, replies)
    requires Reports(w, replies[..BatchEnd(|writes|, |replies|)], |replies|)
    ensures WritesAreTrue(writes + [w], replies)
  {
  }

  lemma PercentNeverFalls(writes: seq<Progress>, replies: seq<Reply>, j: nat, k: nat)
    requires WritesAreTrue(writes, replies)
    requires j <= k < |writes|
    ensures 0 <= writes[j].percent <= writes[k].percent <= 100
  {
    var total := |replies|;
    assert Reports(writes[j], replies[..BatchEnd(j, total)], total);
    assert Reports(writes[k], replies[..BatchEnd(k, total)], total);
    PercentGrows(BatchEnd(j, total), BatchEnd(k, total), total);
  }

  ghost predicate NoneInterrupted(rs: seq<Reply>) {
    forall k :: 0 <= k < |rs| ==> !rs[k].Aborted?
  }

  /** Adding one finished batch to the tally. */
  lemma BatchJoins(replies: seq<Reply>, i: nat, last: nat)
    requires i <= last <= |replies|
    requires NoneInterrupted(replies[..i]) && NoneInterrupted(replies[i..last])
    ensures NoneInterrupted(replies[..last])
    ensures var before, batch := TallyOf(replies[..i]), TallyOf(replies[i..last]);
            TallyOf(replies[..last]) ==
            Tally(before.added + batch.added, before.skipped + batch.skipped, before.failed + batch.failed)
    ensures TallyOf(replies[..last]).Handled() == last
  {
    assert replies[..last] == replies[..i] + replies[i..last];
    TallyConcat(replies[..i], replies[i..last]);
    TallyCovers(replies[..last]);
  }

  /** None of the first n status checks reads "cancelled". */
  ghost predicate NoneCancelled(cancelledAt: nat -> bool, n: nat) {
    forall j: nat :: j < n ==> !cancelledAt(j)
  }

  lemma NotCancelled(cancelledAt: nat -> bool, n: nat)
    requires NoneCancelled(cancelledAt, n) && !cancelledAt(n)
    ensures NoneCancelled(cancelledAt, n + 1)
  {
  }

  lemma TotalsReport(w: Progress, rs: seq<Reply>, total: nat)
    requires rs != [] && |rs| <= total && NoneInterrupted(rs)
    requires TallyOf(rs) == Tally(w.added, w.skipped, w.failed) && w.completed == w.added + w.skipped
    requires w.completed + w.failed <= total && w.percent == Percent(w.completed + w.failed, total)
    ensures Reports(w, rs, total)
  {
    TallyCovers(rs);
  }

  /** The row written after a batch is as true as the ones before it. */
  lemma ReportJoins(writes: seq<Progress>, w: Progress, replies: seq<Reply>)
    requires BatchStart(|writes|) < |replies| && WritesAreTrue(writes, replies)
    requires var last := BatchEnd(|writes|, |replies|);
             && NoneInterrupted(replies[..last])
             && TallyOf(replies[..last]) == Tally(w.added, w.skipped, w.failed)
             && w.completed == w.added + w.skipped && w.completed + w.failed == last
             && w.percent == Percent(last, |replies|)
    ensures WritesAreTrue(writes + [w], replies)
  {
    var last := BatchEnd(|writes|, |replies|);
    TotalsReport(w, replies[..last], |replies|);
    WriteJoins(writes, w, replies);
  }

  lemma InterruptionStays(replies: seq<Reply>, i: nat, last: nat)
    requires i <= last <= |replies| && !NoneInterrupted(replies[i..last])
    ensures !NoneInterrupted(replies[..last])
  {
    var k :| 0 <= k < last - i && replies[i..last][k].Aborted?;
    assert replies[..last][i + k].Aborted?;
  }

  /** The answers so far, as the running totals have them. */
  ghost predicate Counted(replies: seq<Reply>, n: nat, completed: nat, failed: nat, added: nat, skipped: nat)
    requires n <= |replies|
  {
    && NoneInterrupted(replies[..n]) && TallyOf(replies[..n]) == Tally(added, skipped, failed)
    && completed == added + skipped && completed + failed == n
  }

  /** The answers of the batch that starts at key i, and the progress row after it; `ok` is false when
      one of its calls was aborted. */
  method FinishBatch(replies: seq<Reply>, ghost writes: seq<Progress>, i: nat, completed: nat, failed: nat,
                     added: nat, skipped: nat)
    returns (ok: bool, w: Progress)
    requires i == BatchStart(|writes|) < |replies| && WritesAreTrue(writes, replies)
    requires Counted(replies, i, completed, failed, added, skipped)
    ensures var last := BatchEnd(|writes|, |replies|);
            && ok == NoneInterrupted(replies[..last])
            && (ok ==> && Counted(replies, last, w.completed, w.failed, w.added, w.skipped)
                       && WritesAreTrue(writes + [w], replies))
  {
    var last := Min(i + 25, |replies|);
    var batchNew, batchSkipped, batchFailed;
    ok, batchNew, batchSkipped, batchFailed := TallyBatch(replies[i..last]);
    w := Progress(0, 0, 0, 0, 0);
    if ok {
      BatchJoins(replies, i, last);
      var handled := completed + batchNew + batchSkipped + failed + batchFailed;
      w := Progress(completed + batchNew + batchSkipped, failed + batchFailed, added + batchNew,
                    skipped + batchSkipped, Percent(handled, |replies|));
      ReportJoins(writes, w, replies);
    } else {
      InterruptionStays(replies, i, last);
    }
  }

  /** The loop itself. `cancelledAt(j)` is what the status check before batch j reads and `replies[i]`
      what the import of the i-th key comes back with. `submitted` lists the keys in the order they
      were handed to the importer and `writes` the progress rows in the order they were committed. */
  method RunBatches(keys: seq<string>, cancelledAt: nat -> bool, replies: seq<Reply>)
    returns (submitted: seq<string>, writes: seq<Progress>, ending: Ending)
    requires |replies| == |keys|
    // every key at most once, in order, none skipped
    ensures submitted <= keys
    ensures ending == Exhausted ==> submitted == keys
    // a break leaves whole batches, and the check that read "cancelled" was the last thing done
    ensures ending == BrokenOff ==>
              |submitted| == 25 * |writes| < |keys| && cancelledAt(|writes|)
    ensures forall j: nat :: 25 * j < |submitted| ==> !cancelledAt(j)
    // an exception comes from an interrupted call of the batch in flight, and from nothing else
    ensures ending == Thrown <==> !NoneInterrupted(replies[..|submitted|])
    ensures ending == Thrown ==> |submitted| == Min(25 * |writes| + 25, |keys|)
    // one progress row per finished batch, each true to the answers so far
    ensures ending != Thrown ==> |submitted| == Min(25 * |writes|, |keys|)
    ensures WritesAreTrue(writes, replies)
  {
    submitted, writes := [], [];
    var total := |keys|;
    var completed, failed, totalNew, totalSkipped := 0, 0, 0, 0;
    var i := 0;
    while i < total
      invariant i == BatchStart(|writes|) < total + 25
      invariant submitted == keys[..Min(i, total)]
      invariant NoneCancelled(cancelledAt, |writes|)
      invariant Counted(replies, |submitted|, completed, failed, totalNew, totalSkipped)
      invariant WritesAreTrue(writes, replies)
    {
      if cancelledAt(|writes|) {
        ending := BrokenOff;
        return;
      }
      var last := Min(i + 25, total);
      submitted := submitted + keys[i..last];
      assert submitted == keys[..last];
      var ok, w := FinishBatch(replies, writes, i, completed, failed, totalNew, totalSkipped);
      if !ok {
        ending := Thrown;
        return;
      }
      completed, failed, totalNew, totalSkipped := w.completed, w.failed, w.added, w.skipped;
      NotCancelled(cancelledAt, |writes|);
      writes := writes + [w];
      i := i + 25;
    }
    ending := Exhausted;
  }
}
