/** Streaming a subprocess: two drain tasks put lines and one end marker each into a shared queue, and
    the consumer yields lines until it has seen both markers, then the exit code. Every schedule of the
    three is a sequence of actions. */
module RunStream {
  import opened Prelude

  datatype Stream = Stdout | Stderr

  datatype Item = Line(stream: Stream, text: string) | End(stream: Stream)

  datatype Yield = Output(stream: Stream, text: string) | Exit(code: int)

  /** A drain task with the lines it has still to read. Its reader raises on a line over the limit, which
      ends the task without a marker. */
  datatype Drain = Draining(rest: seq<string>) | Ended | Broken

  /** `code` is what the process exits with. */
  datatype State = State(
    limit: nat, code: int, out: Drain, err: Drain, queue: seq<Item>, open: nat, yielded: seq<Yield>, exited: bool)
  {
    function Of(l: Stream): Drain {
      if l == Stdout then out else err
    }

    function With(l: Stream, d: Drain, item: seq<Item>): State {
      if l == Stdout then this.(out := d, queue := queue + item)
      else this.(err := d, queue := queue + item)
    }
  }

  /** str.rstrip("\n") */
  function Clean(line: string): string {
    if line != "" && line[|line| - 1] == '\n' then Clean(line[..|line| - 1]) else line
  }

  /** What rstrip keeps is the text before the trailing newlines. */
  lemma {:induction false} CleanStrips(line: string)
    ensures Clean(line) <= line
    ensures Clean(line) == "" || Clean(line)[|Clean(line)| - 1] != '\n'
    ensures forall i :: |Clean(line)| <= i < |line| ==> line[i] == '\n'
  {
    if line != "" && line[|line| - 1] == '\n' {
      CleanStrips(line[..|line| - 1]);
    }
  }

  function CleanAll(lines: seq<string>): (r: seq<string>)
    ensures |r| == |lines|
  {
    if lines == [] then [] else [Clean(lines[0])] + CleanAll(lines[1..])
  }

  /** What the reader measures against its limit: the line without its newline. */
  function Body(line: string): string {
    if line != "" && line[|line| - 1] == '\n' then line[..|line| - 1] else line
  }

  /** Every line is within the limit: what a caller can check of the output of the command. */
  predicate Fits(lines: seq<string>, limit: nat) {
    forall i :: 0 <= i < |lines| ==> |Body(lines[i])| <= limit
  }

  function Initial(stdout: seq<string>, stderr: seq<string>, limit: nat, code: int): State {
    State(limit, code, Draining(stdout), Draining(stderr), [], 2, [], false)
  }

  datatype Action = Read(stream: Stream) | Break(stream: Stream) | Consume | Finish

  predicate Enabled(s: State, a: Action) {
    match a
    case Read(l) => s.Of(l).Draining? && (s.Of(l).rest == [] || |Body(s.Of(l).rest[0])| <= s.limit)
    case Break(l) => s.Of(l).Draining? && s.Of(l).rest != [] && |Body(s.Of(l).rest[0])| > s.limit
    case Consume => s.open > 0 && s.queue != []
    case Finish => s.open == 0 && !s.exited
  }

  function Step(s: State, a: Action): State {
    if !Enabled(s, a) then s
    else
      match a
      case Read(l) =>
        var rest := s.Of(l).rest;
        if rest == [] then s.With(l, Ended, [End(l)])
        else s.With(l, Draining(rest[1..]), [Line(l, Clean(rest[0]))])
      case Break(l) => s.With(l, Broken, [])
      case Consume =>
        var s' := s.(queue := s.queue[1..]);
        (match s.queue[0]
         case End(_) => s'.(open := s.open - 1)
         case Line(l, text) => s'.(yielded := s.yielded + [Output(l, text)]))
      case Finish => s.(yielded := s.yielded + [Exit(s.code)], exited := true)
  }

  function Run(s: State, actions: seq<Action>): State
    decreases |actions|
  {
    if actions == [] then s else Run(Step(s, actions[0]), actions[1..])
  }

  /** The texts of one stream among the yielded tuples, in order. */
  function Yielded(ys: seq<Yield>, l: Stream): seq<string> {
    if ys == [] then []
    else
      var y := ys[|ys| - 1];
      Yielded(ys[..|ys| - 1], l) + (if y.Output? && y.stream == l then [y.text] else [])
  }

  function Queued(q: seq<Item>, l: Stream): seq<string> {
    if q == [] then []
    else (if q[0].Line? && q[0].stream == l then [q[0].text] else []) + Queued(q[1..], l)
  }

  lemma {:induction false} QueuedAppend(q: seq<Item>, i: Item, l: Stream)
    ensures Queued(q + [i], l) == Queued(q, l) + (if i.Line? && i.stream == l then [i.text] else [])
  {
    if q == [] {
      assert [i][1..] == [];
    } else {
      assert (q + [i])[1..] == q[1..] + [i];
      QueuedAppend(q[1..], i, l);
    }
  }

  /** The marker of a stream is in the queue. */
  predicate Marked(q: seq<Item>, l: Stream) {
    exists i :: 0 <= i < |q| && q[i] == End(l)
  }

  /** The marker is the last thing its task puts into the queue. */
  predicate MarkerLast(q: seq<Item>, l: Stream) {
    forall i, j :: 0 <= i < j < |q| && q[i] == End(l) ==> q[j].stream != l
  }

  predicate IsPrefix(a: seq<string>, b: seq<string>) { a <= b }

  /** Lines are yielded, queued or still to be read, in this order, and none is lost. */
  ghost predicate StreamOk(s: State, l: Stream, all: seq<string>) {
    && MarkerLast(s.queue, l)
    && (match s.Of(l)
        case Draining(rest) =>
          Yielded(s.yielded, l) + Queued(s.queue, l) + CleanAll(rest) == all && !Marked(s.queue, l)
        case Ended =>
          Yielded(s.yielded, l) + Queued(s.queue, l) == all
          && (!Marked(s.queue, l) ==> Queued(s.queue, l) == [])
        case Broken => IsPrefix(Yielded(s.yielded, l) + Queued(s.queue, l), all) && !Marked(s.queue, l))
  }

  /** The consumer still waits for the marker of this stream. */
  function Awaited(s: State, l: Stream): nat {
    if s.Of(l).Ended? && !Marked(s.queue, l) then 0 else 1
  }

  ghost predicate OnlyOutput(ys: seq<Yield>) {
    forall i :: 0 <= i < |ys| ==> ys[i].Output?
  }

  ghost predicate Inv(s: State, stdout: seq<string>, stderr: seq<string>) {
    && StreamOk(s, Stdout, stdout) && StreamOk(s, Stderr, stderr)
    && s.open == Awaited(s, Stdout) + Awaited(s, Stderr)
    && (if s.exited then
          s.open == 0 && s.yielded != [] && s.yielded[|s.yielded| - 1] == Exit(s.code)
          && OnlyOutput(s.yielded[..|s.yielded| - 1])
        else OnlyOutput(s.yielded))
  }

  /** A task puts nothing after its marker. */
  lemma PushMarkers(q: seq<Item>, item: Item, k: Stream)
    requires MarkerLast(q, k) && (item.stream == k ==> !Marked(q, k))
    ensures MarkerLast(q + [item], k)
    ensures Marked(q + [item], k) == (Marked(q, k) || item == End(k))
  {
    var q' := q + [item];
    assert forall i :: 0 <= i < |q| ==> q'[i] == q[i];
    assert q'[|q|] == item;
  }

  lemma LineKeeps(s: State, l: Stream, all: seq<string>)
    requires StreamOk(s, l, all) && Enabled(s, Read(l)) && s.Of(l).rest != []
    ensures StreamOk(Step(s, Read(l)), l, all)
    ensures Awaited(Step(s, Read(l)), l) == Awaited(s, l)
  {
    var rest := s.Of(l).rest;
    var text := Clean(rest[0]);
    QueuedAppend(s.queue, Line(l, text), l);
    PushMarkers(s.queue, Line(l, text), l);
    Associative(Yielded(s.yielded, l), Queued(s.queue, l), [text]);
    Associative(Yielded(s.yielded, l) + Queued(s.queue, l), [text], CleanAll(rest[1..]));
  }

  lemma MarkerKeeps(s: State, l: Stream, all: seq<string>)
    requires StreamOk(s, l, all) && Enabled(s, Read(l)) && s.Of(l).rest == []
    ensures StreamOk(Step(s, Read(l)), l, all)
    ensures Awaited(Step(s, Read(l)), l) == Awaited(s, l)
  {
    QueuedAppend(s.queue, End(l), l);
    PushMarkers(s.queue, End(l), l);
    var seen := Yielded(s.yielded, l) + Queued(s.queue, l);
    assert Queued(s.queue, l) + [] == Queued(s.queue, l);
    assert seen + [] == seen;
  }

  lemma OtherReadKeeps(s: State, l: Stream, k: Stream, all: seq<string>)
    requires StreamOk(s, k, all) && Enabled(s, Read(l)) && k != l
    ensures StreamOk(Step(s, Read(l)), k, all)
    ensures Awaited(Step(s, Read(l)), k) == Awaited(s, k)
  {
    var rest := s.Of(l).rest;
    var item := if rest == [] then End(l) else Line(l, Clean(rest[0]));
    QueuedAppend(s.queue, item, k);
    PushMarkers(s.queue, item, k);
    assert Queued(s.queue, k) + [] == Queued(s.queue, k);
  }

  lemma ReadKeeps(s: State, l: Stream, k: Stream, all: seq<string>)
    requires StreamOk(s, k, all) && Enabled(s, Read(l))
    ensures StreamOk(Step(s, Read(l)), k, all)
    ensures Awaited(Step(s, Read(l)), k) == Awaited(s, k)
  {
    if k == l && s.Of(l).rest != [] {
      LineKeeps(s, l, all);
    } else if k == l {
      MarkerKeeps(s, l, all);
    } else {
      OtherReadKeeps(s, l, k, all);
    }
  }

  lemma BreakKeeps(s: State, l: Stream, k: Stream, all: seq<string>)
    requires StreamOk(s, k, all) && s.Of(l).Draining?
    ensures StreamOk(s.With(l, Broken, []), k, all)
    ensures Awaited(s.With(l, Broken, []), k) == Awaited(s, k)
  {
    assert s.queue + [] == s.queue;
  }

  lemma {:induction false} NothingAfter(q: seq<Item>, k: Stream)
    requires forall j :: 0 <= j < |q| ==> q[j].stream != k
    ensures Queued(q, k) == []
  {
    if q != [] {
      NothingAfter(q[1..], k);
    }
  }

  /** Dropping the head of the queue keeps the markers of a stream unless the head is one. */
  lemma TailMarkers(q: seq<Item>, k: Stream)
    requires q != [] && MarkerLast(q, k)
    ensures MarkerLast(q[1..], k)
    ensures q[0] == End(k) ==> Queued(q[1..], k) == [] && !Marked(q[1..], k)
    ensures q[0] != End(k) ==> Marked(q[1..], k) == Marked(q, k)
  {
    assert forall i :: 0 <= i < |q[1..]| ==> q[1..][i] == q[i + 1];
    if q[0] == End(k) {
      NothingAfter(q[1..], k);
    } else if Marked(q, k) {
      var i :| 0 <= i < |q| && q[i] == End(k);
      assert q[1..][i - 1] == End(k);
    }
  }

  lemma YieldedAppend(ys: seq<Yield>, y: Yield, k: Stream)
    ensures Yielded(ys + [y], k) == Yielded(ys, k) + (if y.Output? && y.stream == k then [y.text] else [])
  {
    assert (ys + [y])[..|ys|] == ys;
  }

  lemma QueuedTail(q: seq<Item>, k: Stream)
    requires q != []
    ensures Queued(q, k) == (if q[0].Line? && q[0].stream == k then [q[0].text] else []) + Queued(q[1..], k)
  {
  }

  lemma EmptyIsNeutral(a: seq<string>, b: seq<string>)
    ensures (a + []) + b == a + ([] + b)
  {
    assert a + [] == a;
    assert [] + b == b;
  }

  /** Consuming an item moves it from the queue to the yielded tuples. */
  lemma ConsumeMoves(s: State, k: Stream)
    requires s.queue != [] && s.open > 0
    ensures var s' := Step(s, Consume);
            Yielded(s'.yielded, k) + Queued(s'.queue, k) == Yielded(s.yielded, k) + Queued(s.queue, k)
  {
    var ys, head := Yielded(s.yielded, k), s.queue[0];
    QueuedTail(s.queue, k);
    match head
    case Line(l, text) =>
      YieldedAppend(s.yielded, Output(l, text), k);
      if l == k {
        Associative(ys, [text], Queued(s.queue[1..], k));
      } else {
        EmptyIsNeutral(ys, Queued(s.queue[1..], k));
      }
    case End(_) => EmptyIsNeutral(ys, Queued(s.queue[1..], k));
  }

  lemma ConsumeKeeps(s: State, k: Stream, all: seq<string>)
    requires StreamOk(s, k, all) && s.queue != [] && s.open > 0
    ensures var s' := Step(s, Consume);
            StreamOk(s', k, all)
            && Awaited(s', k) == Awaited(s, k) - (if s.queue[0] == End(k) then 1 else 0)
  {
    TailMarkers(s.queue, k);
    ConsumeMoves(s, k);
    assert s.queue[0] == End(k) ==> Marked(s.queue, k);
  }

  lemma FinishKeeps(s: State, stdout: seq<string>, stderr: seq<string>)
    requires Inv(s, stdout, stderr) && Enabled(s, Finish)
    ensures Inv(Step(s, Finish), stdout, stderr)
  {
    YieldedAppend(s.yielded, Exit(s.code), Stdout);
    YieldedAppend(s.yielded, Exit(s.code), Stderr);
    assert Yielded(s.yielded, Stdout) + [] == Yielded(s.yielded, Stdout);
    assert Yielded(s.yielded, Stderr) + [] == Yielded(s.yielded, Stderr);
    assert (s.yielded + [Exit(s.code)])[..|s.yielded|] == s.yielded;
  }

  lemma ReadStepKeeps(s: State, l: Stream, stdout: seq<string>, stderr: seq<string>)
    requires Inv(s, stdout, stderr) && Enabled(s, Read(l))
    ensures Inv(Step(s, Read(l)), stdout, stderr)
  {
    ReadKeeps(s, l, Stdout, stdout);
    ReadKeeps(s, l, Stderr, stderr);
  }

  lemma BreakStepKeeps(s: State, l: Stream, stdout: seq<string>, stderr: seq<string>)
    requires Inv(s, stdout, stderr) && Enabled(s, Break(l))
    ensures Inv(Step(s, Break(l)), stdout, stderr)
  {
    BreakKeeps(s, l, Stdout, stdout);
    BreakKeeps(s, l, Stderr, stderr);
  }

  lemma ConsumeStepKeeps(s: State, stdout: seq<string>, stderr: seq<string>)
    requires Inv(s, stdout, stderr) && Enabled(s, Consume)
    ensures Inv(Step(s, Consume), stdout, stderr)
  {
    ConsumeKeeps(s, Stdout, stdout);
    ConsumeKeeps(s, Stderr, stderr);
  }

  lemma StepKeeps(s: State, a: Action, stdout: seq<string>, stderr: seq<string>)
    requires Inv(s, stdout, stderr)
    ensures Inv(Step(s, a), stdout, stderr)
  {
    if Enabled(s, a) {
      match a
      case Read(l) => ReadStepKeeps(s, l, stdout, stderr);
      case Break(l) => BreakStepKeeps(s, l, stdout, stderr);
      case Consume => ConsumeStepKeeps(s, stdout, stderr);
      case Finish => FinishKeeps(s, stdout, stderr);
    }
  }

  lemma {:induction false} RunKeeps(s: State, actions: seq<Action>, stdout: seq<string>, stderr: seq<string>)
    requires Inv(s, stdout, stderr)
    ensures Inv(Run(s, actions), stdout, stderr)
    decreases |actions|
  {
    if actions != [] {
      StepKeeps(s, actions[0], stdout, stderr);
      RunKeeps(Step(s, actions[0]), actions[1..], stdout, stderr);
    }
  }

  lemma InitialOk(stdout: seq<string>, stderr: seq<string>, limit: nat, code: int)
    ensures Inv(Initial(stdout, stderr, limit, code), CleanAll(stdout), CleanAll(stderr))
  {
    assert [] + [] + CleanAll(stdout) == CleanAll(stdout);
    assert [] + [] + CleanAll(stderr) == CleanAll(stderr);
  }

  lemma ExitedStream(s: State, l: Stream, all: seq<string>)
    requires StreamOk(s, l, all) && Awaited(s, l) == 0 && s.yielded != [] && s.yielded[|s.yielded| - 1].Exit?
    ensures Yielded(s.yielded[..|s.yielded| - 1], l) == all
  {
    assert Yielded(s.yielded, l) == Yielded(s.yielded[..|s.yielded| - 1], l);
  }

  lemma {:induction false} CodeStays(s: State, actions: seq<Action>)
    ensures Run(s, actions).code == s.code
    decreases |actions|
  {
    if actions != [] {
      CodeStays(Step(s, actions[0]), actions[1..]);
    }
  }

  /** Whatever the schedule, a run that has yielded the exit tuple has yielded before it an interleaving
      of the lines of both streams, each in order, with nothing lost, repeated or added, and after it
      nothing; the tuple carries the code the process exited with. */
  lemma ExitedRunsYieldEverything(
      stdout: seq<string>, stderr: seq<string>, limit: nat, code: int, actions: seq<Action>)
    requires Run(Initial(stdout, stderr, limit, code), actions).exited
    ensures var ys := Run(Initial(stdout, stderr, limit, code), actions).yielded;
            && ys != [] && ys[|ys| - 1] == Exit(code) && OnlyOutput(ys[..|ys| - 1])
            && Yielded(ys[..|ys| - 1], Stdout) == CleanAll(stdout)
            && Yielded(ys[..|ys| - 1], Stderr) == CleanAll(stderr)
  {
    var start := Initial(stdout, stderr, limit, code);
    InitialOk(stdout, stderr, limit, code);
    RunKeeps(start, actions, CleanAll(stdout), CleanAll(stderr));
    CodeStays(start, actions);
    ExitedStream(Run(start, actions), Stdout, CleanAll(stdout));
    ExitedStream(Run(start, actions), Stderr, CleanAll(stderr));
  }

  /** Until then what has been yielded of each stream is a prefix of it. */
  lemma RunningYieldsPrefixes(stdout: seq<string>, stderr: seq<string>, limit: nat, code: int, actions: seq<Action>)
    requires !Run(Initial(stdout, stderr, limit, code), actions).exited
    ensures var ys := Run(Initial(stdout, stderr, limit, code), actions).yielded;
            OnlyOutput(ys) && Yielded(ys, Stdout) <= CleanAll(stdout) && Yielded(ys, Stderr) <= CleanAll(stderr)
  {
    InitialOk(stdout, stderr, limit, code);
    RunKeeps(Initial(stdout, stderr, limit, code), actions, CleanAll(stdout), CleanAll(stderr));
  }

  // ----- which lines a reader got past -----

  /** A reader has got past lines that fit and stands before the others; at the end of its stream all of
      them fitted, and it raised only on one that does not. */
  ghost predicate ReaderOk(s: State, l: Stream, lines: seq<string>) {
    match s.Of(l)
    case Draining(rest) =>
      |rest| <= |lines| && rest == lines[|lines| - |rest|..] && Fits(lines[..|lines| - |rest|], s.limit)
    case Ended => Fits(lines, s.limit)
    case Broken => !Fits(lines, s.limit)
  }

  /** The next line decides whether the lines up to it fit, and a line that does not fit decides all. */
  lemma NextLine(lines: seq<string>, n: nat, limit: nat)
    requires n < |lines|
    ensures Fits(lines[..n + 1], limit) <==> Fits(lines[..n], limit) && |Body(lines[n])| <= limit
    ensures Fits(lines, limit) ==> |Body(lines[n])| <= limit
  {
    assert lines[..n + 1] == lines[..n] + [lines[n]];
    assert lines[..n + 1][n] == lines[n];
    assert forall i :: 0 <= i < n ==> lines[..n + 1][i] == lines[..n][i];
  }

  lemma ReaderMoves(s: State, a: Action, l: Stream, lines: seq<string>)
    requires ReaderOk(s, l, lines) && Enabled(s, a) && (a == Read(l) || a == Break(l))
    ensures ReaderOk(Step(s, a), l, lines)
  {
    var rest := s.Of(l).rest;
    var n := |lines| - |rest|;
    if rest == [] {
      assert lines[..n] == lines;
    } else {
      NextLine(lines, n, s.limit);
      assert rest[0] == lines[n];
      assert rest[1..] == lines[n + 1..];
    }
  }

  lemma ReaderStays(s: State, a: Action, l: Stream)
    requires a != Read(l) && a != Break(l)
    ensures Step(s, a).Of(l) == s.Of(l) && Step(s, a).limit == s.limit
  {
  }

  lemma ReaderStep(s: State, a: Action, l: Stream, lines: seq<string>)
    requires ReaderOk(s, l, lines)
    ensures ReaderOk(Step(s, a), l, lines) && Step(s, a).limit == s.limit
  {
    if a == Read(l) || a == Break(l) {
      if Enabled(s, a) {
        ReaderMoves(s, a, l, lines);
      }
    } else {
      ReaderStays(s, a, l);
    }
  }

  lemma {:induction false} ReaderRun(s: State, actions: seq<Action>, l: Stream, lines: seq<string>)
    requires ReaderOk(s, l, lines)
    ensures ReaderOk(Run(s, actions), l, lines) && Run(s, actions).limit == s.limit
    decreases |actions|
  {
    if actions != [] {
      ReaderStep(s, actions[0], l, lines);
      ReaderRun(Step(s, actions[0]), actions[1..], l, lines);
    }
  }

  // ----- progress -----

  function DrainWork(d: Drain): nat {
    if d.Draining? then 2 * |d.rest| + 2 else 0
  }

  /** Every enabled action brings the run closer to its end. */
  function Work(s: State): nat {
    DrainWork(s.out) + DrainWork(s.err) + |s.queue| + (if s.exited then 0 else 1)
  }

  lemma StepsShrink(s: State, a: Action)
    requires Enabled(s, a)
    ensures Work(Step(s, a)) < Work(s)
  {
  }

  ghost predicate Stuck(s: State) {
    forall a :: !Enabled(s, a)
  }

  /** Any state can be run until nothing is enabled. */
  lemma {:induction false} RunEnds(s: State) returns (actions: seq<Action>)
    ensures Stuck(Run(s, actions))
    decreases Work(s)
  {
    if Stuck(s) {
      actions := [];
    } else {
      var a :| Enabled(s, a);
      StepsShrink(s, a);
      var more := RunEnds(Step(s, a));
      actions := [a] + more;
      assert actions[1..] == more;
    }
  }

  lemma StuckReader(s: State, l: Stream)
    requires Stuck(s)
    ensures !s.Of(l).Draining?
  {
    assert !Enabled(s, Read(l)) && !Enabled(s, Break(l));
  }

  /** A consumer that can take nothing and has not exited waits for a marker that is not coming. */
  lemma StuckConsumer(s: State, stdout: seq<string>, stderr: seq<string>)
    requires Inv(s, stdout, stderr) && Stuck(s)
    ensures s.exited <==> s.open == 0
    ensures s.open == 0 <==> s.out.Ended? && s.err.Ended?
  {
    assert !Enabled(s, Consume) && !Enabled(s, Finish);
    if s.open > 0 {
      assert s.queue == [];
      assert !Marked(s.queue, Stdout) && !Marked(s.queue, Stderr);
    } else {
      assert Awaited(s, Stdout) == 0 && Awaited(s, Stderr) == 0;
    }
  }

  /** A run that cannot go on has exited exactly when every line of both streams is within the reader's
      limit: no schedule deadlocks, and one line too long leaves the consumer waiting for ever. */
  lemma StuckMeansExited(stdout: seq<string>, stderr: seq<string>, limit: nat, code: int, actions: seq<Action>)
    requires Stuck(Run(Initial(stdout, stderr, limit, code), actions))
    ensures Run(Initial(stdout, stderr, limit, code), actions).exited <==> Fits(stdout, limit) && Fits(stderr, limit)
  {
    var start := Initial(stdout, stderr, limit, code);
    var s := Run(start, actions);
    InitialOk(stdout, stderr, limit, code);
    RunKeeps(start, actions, CleanAll(stdout), CleanAll(stderr));
    ReaderRun(start, actions, Stdout, stdout);
    ReaderRun(start, actions, Stderr, stderr);
    StuckReader(s, Stdout);
    StuckReader(s, Stderr);
    StuckConsumer(s, CleanAll(stdout), CleanAll(stderr));
    assert s.Of(Stdout) == s.out && s.Of(Stderr) == s.err;
  }

  /** A command that prints one line too long and nothing else hangs its caller. */
  lemma LongLineHangs(line: string, limit: nat, code: int)
    requires |Body(line)| > limit
    ensures var s := Run(Initial([line], [], limit, code), [Break(Stdout), Read(Stderr), Consume]);
            Stuck(s) && !s.exited && s.yielded == []
  {
    var s0 := Initial([line], [], limit, code);
    var s1 := Step(s0, Break(Stdout));
    var s2 := Step(s1, Read(Stderr));
    var s3 := Step(s2, Consume);
    assert Run(s3, []) == s3;
    assert Run(s2, [Consume]) == s3;
    assert Run(s1, [Read(Stderr), Consume]) == s3;
    assert s3 == State(limit, code, Broken, Ended, [], 1, [], false);
  }
}
