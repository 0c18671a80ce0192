/** The scan pipeline: one reader, some workers and one writer joined by bounded channels and two wait groups,
    and the counter that workers report to. Every interleaving of the goroutines' steps is a run. */
module Pipelines {
  /** What a run is given: how many workers there are, how many objects are decoded, how often each is handled,
      which results marshal, which objects are targets, and which grabs succeed. */
  datatype Config = Config(
    workers: nat, items: nat, runs: nat, marshals: (nat, nat) -> bool, target: nat -> bool, good: (nat, nat) -> bool)
  {
    /** The capacity of every channel. */
    function Capacity(): nat {
      4 * workers
    }
  }

  datatype Pair = Pair(item: nat, run: nat)

  datatype Main = Reading | Sending(item: nat) | AwaitingWorkers | AwaitingOutput | Returned

  datatype Worker =
    | Idle
    | Handling(item: nat, run: nat)
    | Reporting(item: nat, run: nat)
    | Marshalling(item: nat, run: nat)
    | Emitting(item: nat, run: nat)
    | Exited

  datatype Writer = Waiting | Writing(p: Pair) | Stopped

  /** The goroutine that counts statuses takes one out of the channel before it adds it to a total. */
  datatype Counter = Listening | Holding(good: bool) | Finished

  /** The channels hold items, results and statuses; next is the number of objects decoded. The last four fields
      only record what has happened. */
  datatype State = State(
    main: Main, next: nat, queue: seq<nat>, queueClosed: bool,
    workers: seq<Worker>,
    output: seq<Pair>, outputClosed: bool, writer: Writer, written: seq<Pair>,
    statuses: seq<bool>, statusesClosed: bool, counter: Counter, success: nat, failure: nat,
    handled: multiset<Pair>, dropped: multiset<Pair>, reported: nat, reportedGood: nat)

  function Init(c: Config): State {
    State(Reading, 0, [], false, seq(c.workers, _ => Idle), [], false, Waiting, [], [], false, Listening, 0, 0,
      multiset{}, multiset{}, 0, 0)
  }

  // ---- The steps

  datatype Step =
    | Decode | DecodeEOF | Send | WorkersDone | OutputDone
    | Receive(w: nat) | Exit(w: nat) | Handle(w: nat) | Report(w: nat) | Marshal(w: nat) | Emit(w: nat)
    | Take | Write | StopWriter
    | TakeStatus | Count | StopCount

  /** The step can be taken: a send needs room in the channel, a receive something in it. Whether the channel is
      closed is not asked before a send. */
  predicate Enabled(c: Config, s: State, e: Step) {
    match e
    case Decode => s.main.Reading? && s.next < c.items
    case DecodeEOF => s.main.Reading? && s.next == c.items
    case Send => s.main.Sending? && |s.queue| < c.Capacity()
    case WorkersDone => s.main.AwaitingWorkers? && forall i :: 0 <= i < |s.workers| ==> s.workers[i].Exited?
    case OutputDone => s.main.AwaitingOutput? && s.writer.Stopped?
    case Receive(w) => w < |s.workers| && s.workers[w].Idle? && s.queue != []
    case Exit(w) => w < |s.workers| && s.workers[w].Idle? && s.queue == [] && s.queueClosed
    case Handle(w) => w < |s.workers| && s.workers[w].Handling?
    case Report(w) => w < |s.workers| && s.workers[w].Reporting? && |s.statuses| < c.Capacity()
    case Marshal(w) => w < |s.workers| && s.workers[w].Marshalling?
    case Emit(w) => w < |s.workers| && s.workers[w].Emitting? && |s.output| < c.Capacity()
    case Take => s.writer.Waiting? && s.output != []
    case Write => s.writer.Writing?
    case StopWriter => s.writer.Waiting? && s.output == [] && s.outputClosed
    case TakeStatus => s.counter.Listening? && s.statuses != []
    case Count => s.counter.Holding?
    case StopCount => s.counter.Listening? && s.statuses == [] && s.statusesClosed
  }

  /** The worker goes on to the next run of an item, or to the next item. */
  function AfterRun(c: Config, item: nat, run: nat): Worker {
    if run + 1 < c.runs then Handling(item, run + 1) else Idle
  }

  function Apply(c: Config, s: State, e: Step): State
    requires Enabled(c, s, e)
  {
    match e
    case Decode => s.(main := Sending(s.next), next := s.next + 1)
    case DecodeEOF => s.(main := AwaitingWorkers, queueClosed := true)
    case Send => s.(main := Reading, queue := s.queue + [s.main.item])
    case WorkersDone => s.(main := AwaitingOutput, outputClosed := true)
    case OutputDone => s.(main := Returned, statusesClosed := true)
    case Receive(w) => s.(queue := s.queue[1..], workers := s.workers[w := if c.runs > 0 then Handling(s.queue[0], 0) else Idle])
    case Exit(w) => s.(workers := s.workers[w := Exited])
    case Handle(w) =>
      var i, r := s.workers[w].item, s.workers[w].run;
      s.(workers := s.workers[w := if c.target(i) then Reporting(i, r) else Marshalling(i, r)], handled := s.handled + multiset{Pair(i, r)})
    case Report(w) =>
      var i, r := s.workers[w].item, s.workers[w].run;
      s.(workers := s.workers[w := Marshalling(i, r)], statuses := s.statuses + [c.good(i, r)],
        reported := s.reported + 1, reportedGood := s.reportedGood + if c.good(i, r) then 1 else 0)
    case Marshal(w) =>
      var i, r := s.workers[w].item, s.workers[w].run;
      if c.marshals(i, r) then s.(workers := s.workers[w := Emitting(i, r)])
      else s.(workers := s.workers[w := AfterRun(c, i, r)], dropped := s.dropped + multiset{Pair(i, r)})
    case Emit(w) =>
      var i, r := s.workers[w].item, s.workers[w].run;
      s.(workers := s.workers[w := AfterRun(c, i, r)], output := s.output + [Pair(i, r)])
    case Take => s.(writer := Writing(s.output[0]), output := s.output[1..])
    case Write => s.(writer := Waiting, written := s.written + [s.writer.p])
    case StopWriter => s.(writer := Stopped)
    case TakeStatus => s.(counter := Holding(s.statuses[0]), statuses := s.statuses[1..])
    case Count =>
      var t := s.(counter := Listening);
      if s.counter.good then t.(success := s.success + 1) else t.(failure := s.failure + 1)
    case StopCount => s.(counter := Finished)
  }

  // ---- Where the work is

  /** The runs of an item from run on. */
  ghost function RunsFrom(c: Config, item: nat, run: nat): multiset<Pair>
    decreases c.runs - run
  {
    if run >= c.runs then multiset{} else multiset{Pair(item, run)} + RunsFrom(c, item, run + 1)
  }

  /** All runs of the items from item on. */
  ghost function ItemsFrom(c: Config, item: nat): multiset<Pair>
    decreases c.items - item
  {
    if item >= c.items then multiset{} else RunsFrom(c, item, 0) + ItemsFrom(c, item + 1)
  }

  ghost function QueuedRuns(c: Config, q: seq<nat>): multiset<Pair> {
    if q == [] then multiset{} else RunsFrom(c, q[0], 0) + QueuedRuns(c, q[1..])
  }

  /** What a worker has still to handle, and what it has handled and not yet passed on. */
  ghost function ToHandle(c: Config, w: Worker): multiset<Pair> {
    match w
    case Handling(i, r) => RunsFrom(c, i, r)
    case Reporting(i, r) => RunsFrom(c, i, r + 1)
    case Marshalling(i, r) => RunsFrom(c, i, r + 1)
    case Emitting(i, r) => RunsFrom(c, i, r + 1)
    case _ => multiset{}
  }

  ghost function InHand(w: Worker): multiset<Pair> {
    match w
    case Reporting(i, r) => multiset{Pair(i, r)}
    case Marshalling(i, r) => multiset{Pair(i, r)}
    case Emitting(i, r) => multiset{Pair(i, r)}
    case _ => multiset{}
  }

  ghost function AllToHandle(c: Config, ws: seq<Worker>): multiset<Pair> {
    if ws == [] then multiset{} else ToHandle(c, ws[0]) + AllToHandle(c, ws[1..])
  }

  ghost function AllInHand(ws: seq<Worker>): multiset<Pair> {
    if ws == [] then multiset{} else InHand(ws[0]) + AllInHand(ws[1..])
  }

  lemma Regroup(h: multiset<Pair>, a: multiset<Pair>, x: multiset<Pair>, b: multiset<Pair>, y: multiset<Pair>)
    requires a + x == b + y
    ensures (h + a) + x == (h + b) + y
  {
    assert (h + a) + x == h + (a + x);
  }

  lemma {:induction false} ToHandleUpdate(c: Config, ws: seq<Worker>, k: nat, x: Worker)
    requires k < |ws|
    ensures AllToHandle(c, ws[k := x]) + ToHandle(c, ws[k]) == AllToHandle(c, ws) + ToHandle(c, x)
  {
    if k == 0 {
      assert ws[0 := x][1..] == ws[1..];
    } else {
      assert ws[k := x][1..] == ws[1..][k - 1 := x] && ws[k := x][0] == ws[0];
      ToHandleUpdate(c, ws[1..], k - 1, x);
      Regroup(ToHandle(c, ws[0]), AllToHandle(c, ws[1..][k - 1 := x]), ToHandle(c, ws[k]), AllToHandle(c, ws[1..]), ToHandle(c, x));
    }
  }

  lemma {:induction false} InHandUpdate(ws: seq<Worker>, k: nat, x: Worker)
    requires k < |ws|
    ensures AllInHand(ws[k := x]) + InHand(ws[k]) == AllInHand(ws) + InHand(x)
  {
    if k == 0 {
      assert ws[0 := x][1..] == ws[1..];
    } else {
      assert ws[k := x][1..] == ws[1..][k - 1 := x] && ws[k := x][0] == ws[0];
      InHandUpdate(ws[1..], k - 1, x);
      Regroup(InHand(ws[0]), AllInHand(ws[1..][k - 1 := x]), InHand(ws[k]), AllInHand(ws[1..]), InHand(x));
    }
  }

  lemma {:induction false} QueuedAppend(c: Config, q: seq<nat>, i: nat)
    ensures QueuedRuns(c, q + [i]) == QueuedRuns(c, q) + RunsFrom(c, i, 0)
  {
    if q == [] {
      assert QueuedRuns(c, [i]) == RunsFrom(c, i, 0) + QueuedRuns(c, [i][1..]);
    } else {
      assert (q + [i])[1..] == q[1..] + [i];
      QueuedAppend(c, q[1..], i);
    }
  }

  ghost function MainHolds(c: Config, m: Main): multiset<Pair> {
    if m.Sending? then RunsFrom(c, m.item, 0) else multiset{}
  }

  /** Everything still to be handled. */
  ghost function Pending(c: Config, s: State): multiset<Pair> {
    ItemsFrom(c, s.next) + MainHolds(c, s.main) + QueuedRuns(c, s.queue) + AllToHandle(c, s.workers)
  }

  ghost function WriterHolds(w: Writer): multiset<Pair> {
    if w.Writing? then multiset{w.p} else multiset{}
  }

  /** Everything handled, wherever it is now. */
  ghost function Whereabouts(s: State): multiset<Pair> {
    AllInHand(s.workers) + multiset(s.output) + WriterHolds(s.writer) + multiset(s.written) + s.dropped
  }

  // ---- The invariants

  /** Every run of every item is to be handled or has been handled, and what was handled is somewhere. */
  ghost predicate Conserved(c: Config, s: State) {
    && s.handled + Pending(c, s) == ItemsFrom(c, 0)
    && s.handled == Whereabouts(s)
  }

  ghost predicate Marshals(c: Config, p: Pair) {
    c.marshals(p.item, p.run)
  }

  /** What is on its way out has been marshalled, and what was dropped could not be. */
  ghost predicate Sorted(c: Config, s: State) {
    && (forall p :: p in s.output ==> Marshals(c, p)) && (forall p :: p in s.written ==> Marshals(c, p))
    && (s.writer.Writing? ==> Marshals(c, s.writer.p)) && (forall p :: p in s.dropped ==> !Marshals(c, p))
    && forall i :: 0 <= i < |s.workers| && s.workers[i].Emitting? ==> Marshals(c, Pair(s.workers[i].item, s.workers[i].run))
  }

  /** Channels are closed in order, each after its last sender is done. */
  ghost predicate Ordered(c: Config, s: State) {
    && |s.workers| == c.workers > 0
    && s.next <= c.items && |s.queue| <= c.Capacity() && |s.output| <= c.Capacity() && |s.statuses| <= c.Capacity()
    && (s.queueClosed <==> s.main.AwaitingWorkers? || s.main.AwaitingOutput? || s.main.Returned?)
    && (s.queueClosed ==> s.next == c.items)
    && (s.outputClosed <==> s.main.AwaitingOutput? || s.main.Returned?)
    && (s.statusesClosed <==> s.main.Returned?)
    && (forall i :: 0 <= i < |s.workers| && s.workers[i].Exited? ==> s.queueClosed && s.queue == [])
    && (s.outputClosed ==> forall i :: 0 <= i < |s.workers| ==> s.workers[i].Exited?)
    && (s.writer.Stopped? ==> s.outputClosed && s.output == [])
    && (s.main.Returned? ==> s.writer.Stopped?)
    && (s.counter.Finished? ==> s.statusesClosed && s.statuses == [])
    && (forall i :: 0 <= i < |s.workers| && s.workers[i].Handling? ==> s.workers[i].run < c.runs)
  }

  function Trues(b: seq<bool>): nat {
    if b == [] then 0 else (if b[0] then 1 else 0) + Trues(b[1..])
  }

  /** What the counter holds: nothing or one status. */
  function Held(k: Counter): seq<bool> {
    if k.Holding? then [k.good] else []
  }

  /** Every status that was reported is counted, in the counter's hand or in the channel. */
  ghost predicate Counted(s: State) {
    && s.success + s.failure + |Held(s.counter)| + |s.statuses| == s.reported
    && s.success + Trues(Held(s.counter)) + Trues(s.statuses) == s.reportedGood
  }

  ghost predicate Inv(c: Config, s: State) {
    Conserved(c, s) && Sorted(c, s) && Ordered(c, s) && Counted(s)
  }

  lemma InitInv(c: Config)
    requires c.workers > 0
    ensures Inv(c, Init(c))
  {
    hide AllToHandle, AllInHand;
    IdleWorkers(c, Init(c).workers);
  }

  lemma {:induction false} IdleWorkers(c: Config, ws: seq<Worker>)
    requires forall i :: 0 <= i < |ws| ==> ws[i].Idle? || ws[i].Exited?
    ensures AllToHandle(c, ws) == multiset{} && AllInHand(ws) == multiset{}
  {
    if ws != [] { IdleWorkers(c, ws[1..]); }
  }

  /** A worker's step moves what it holds. */
  lemma WorkerMoves(c: Config, s: State, t: State, w: nat, more: multiset<Pair>, out: multiset<Pair>)
    requires Conserved(c, s) && w < |s.workers| && w < |t.workers| && t.workers == s.workers[w := t.workers[w]]
    requires t.next == s.next && t.main == s.main && t.writer == s.writer && t.written == s.written
    requires QueuedRuns(c, t.queue) + ToHandle(c, t.workers[w]) + more == QueuedRuns(c, s.queue) + ToHandle(c, s.workers[w])
    requires t.handled == s.handled + more
    requires InHand(t.workers[w]) + out == InHand(s.workers[w]) + more
    requires multiset(t.output) + t.dropped == multiset(s.output) + s.dropped + out
    ensures Conserved(c, t)
  {
    hide AllToHandle, AllInHand, ToHandle, InHand, ItemsFrom, MainHolds, QueuedRuns, WriterHolds;
    ToHandleUpdate(c, s.workers, w, t.workers[w]);
    InHandUpdate(s.workers, w, t.workers[w]);
    Balance1(s.handled, more, ItemsFrom(c, s.next) + MainHolds(c, s.main), QueuedRuns(c, s.queue), QueuedRuns(c, t.queue),
      AllToHandle(c, s.workers), AllToHandle(c, t.workers), ToHandle(c, s.workers[w]), ToHandle(c, t.workers[w]));
    Balance2(more, out, AllInHand(s.workers), AllInHand(t.workers), InHand(s.workers[w]), InHand(t.workers[w]),
      multiset(s.output), s.dropped, multiset(t.output), t.dropped, WriterHolds(s.writer), multiset(s.written));
  }

  lemma Balance1(h: multiset<Pair>, f: multiset<Pair>, u: multiset<Pair>, q: multiset<Pair>, q': multiset<Pair>,
    a: multiset<Pair>, a': multiset<Pair>, x: multiset<Pair>, x': multiset<Pair>)
    requires q' + x' + f == q + x && a' + x == a + x'
    ensures (h + f) + (u + q' + a') == h + (u + q + a)
  {
    forall p ensures ((h + f) + (u + q' + a'))[p] == (h + (u + q + a))[p] {
      assert (q' + x' + f)[p] == (q + x)[p] && (a' + x)[p] == (a + x')[p];
    }
  }

  lemma Balance2(f: multiset<Pair>, o: multiset<Pair>, a: multiset<Pair>, a': multiset<Pair>, x: multiset<Pair>, x': multiset<Pair>,
    u: multiset<Pair>, d: multiset<Pair>, u': multiset<Pair>, d': multiset<Pair>, v: multiset<Pair>, w: multiset<Pair>)
    requires a' + x == a + x' && x' + o == x + f && u' + d' == u + d + o
    ensures a' + u' + v + w + d' == (a + u + v + w + d) + f
  {
    forall p ensures (a' + u' + v + w + d')[p] == ((a + u + v + w + d) + f)[p] {
      assert (a' + x)[p] == (a + x')[p] && (x' + o)[p] == (x + f)[p] && (u' + d')[p] == (u + d + o)[p];
    }
  }

  lemma AfterRunHandles(c: Config, i: nat, r: nat)
    ensures ToHandle(c, AfterRun(c, i, r)) == RunsFrom(c, i, r + 1) && InHand(AfterRun(c, i, r)) == multiset{}
  {
  }

  predicate OfWorker(e: Step) {
    e.Receive? || e.Exit? || e.Handle? || e.Report? || e.Marshal? || e.Emit?
  }

  lemma ReceiveConserved(c: Config, s: State, w: nat)
    requires Conserved(c, s) && Enabled(c, s, Receive(w))
    ensures Conserved(c, Apply(c, s, Receive(w)))
  {
    hide Conserved;
    WorkerMoves(c, s, Apply(c, s, Receive(w)), w, multiset{}, multiset{});
  }

  lemma ExitConserved(c: Config, s: State, w: nat)
    requires Conserved(c, s) && Enabled(c, s, Exit(w))
    ensures Conserved(c, Apply(c, s, Exit(w)))
  {
    hide Conserved, QueuedRuns;
    WorkerMoves(c, s, Apply(c, s, Exit(w)), w, multiset{}, multiset{});
  }

  lemma HandleConserved(c: Config, s: State, w: nat)
    requires Conserved(c, s) && Ordered(c, s) && Enabled(c, s, Handle(w))
    ensures Conserved(c, Apply(c, s, Handle(w)))
  {
    hide Conserved, QueuedRuns;
    var p := Pair(s.workers[w].item, s.workers[w].run);
    WorkerMoves(c, s, Apply(c, s, Handle(w)), w, multiset{p}, multiset{});
  }

  lemma ReportConserved(c: Config, s: State, w: nat)
    requires Conserved(c, s) && Enabled(c, s, Report(w))
    ensures Conserved(c, Apply(c, s, Report(w)))
  {
    hide Conserved, QueuedRuns, RunsFrom;
    WorkerMoves(c, s, Apply(c, s, Report(w)), w, multiset{}, multiset{});
  }

  lemma MarshalConserved(c: Config, s: State, w: nat)
    requires Conserved(c, s) && Enabled(c, s, Marshal(w))
    ensures Conserved(c, Apply(c, s, Marshal(w)))
  {
    hide Conserved, QueuedRuns, RunsFrom, AfterRun;
    var p := Pair(s.workers[w].item, s.workers[w].run);
    AfterRunHandles(c, p.item, p.run);
    WorkerMoves(c, s, Apply(c, s, Marshal(w)), w, multiset{}, if c.marshals(p.item, p.run) then multiset{} else multiset{p});
  }

  lemma EmitConserved(c: Config, s: State, w: nat)
    requires Conserved(c, s) && Enabled(c, s, Emit(w))
    ensures Conserved(c, Apply(c, s, Emit(w)))
  {
    hide Conserved, QueuedRuns, RunsFrom, AfterRun;
    var p := Pair(s.workers[w].item, s.workers[w].run);
    AfterRunHandles(c, p.item, p.run);
    WorkerMoves(c, s, Apply(c, s, Emit(w)), w, multiset{}, multiset{p});
  }

  lemma DecodeConserved(c: Config, s: State)
    requires Conserved(c, s) && Enabled(c, s, Decode)
    ensures Conserved(c, Apply(c, s, Decode))
  {
    hide AllToHandle, QueuedRuns, RunsFrom, Whereabouts;
    SamePlaces(s, Apply(c, s, Decode));
  }

  lemma SendConserved(c: Config, s: State)
    requires Conserved(c, s) && Enabled(c, s, Send)
    ensures Conserved(c, Apply(c, s, Send))
  {
    hide AllToHandle, QueuedRuns, RunsFrom, ItemsFrom, Whereabouts;
    SamePlaces(s, Apply(c, s, Send));
    QueuedAppend(c, s.queue, s.main.item);
  }

  lemma MainConserved(c: Config, s: State, e: Step)
    requires Conserved(c, s) && Enabled(c, s, e) && (e.DecodeEOF? || e.WorkersDone? || e.OutputDone?)
    ensures Conserved(c, Apply(c, s, e))
  {
    hide AllToHandle, QueuedRuns, RunsFrom, ItemsFrom, Whereabouts;
    SamePlaces(s, Apply(c, s, e));
  }

  /** What is handed from one place to the next is still somewhere. */
  lemma HandedOn(a: multiset<Pair>, o: multiset<Pair>, o': multiset<Pair>, x: multiset<Pair>, x': multiset<Pair>,
    v: multiset<Pair>, v': multiset<Pair>, d: multiset<Pair>)
    requires o + x + v == o' + x' + v'
    ensures a + o + x + v + d == a + o' + x' + v' + d
  {
    assert a + o + x + v + d == a + (o + x + v) + d;
    assert a + o' + x' + v' + d == a + (o' + x' + v') + d;
  }

  lemma TakeConserved(c: Config, s: State)
    requires Conserved(c, s) && Enabled(c, s, Take)
    ensures Conserved(c, Apply(c, s, Take))
  {
    hide Conserved, AllInHand;
    var t := Apply(c, s, Take);
    assert s.output == [s.output[0]] + s.output[1..];
    assert multiset(s.output) == multiset(t.output) + multiset{s.output[0]};
    HandedOn(AllInHand(s.workers), multiset(s.output), multiset(t.output), multiset{}, multiset{s.output[0]},
      multiset(s.written), multiset(s.written), s.dropped);
    SameWork(c, s, t);
  }

  lemma WriteConserved(c: Config, s: State)
    requires Conserved(c, s) && Enabled(c, s, Write)
    ensures Conserved(c, Apply(c, s, Write))
  {
    hide Conserved, AllInHand;
    var t := Apply(c, s, Write);
    HandedOn(AllInHand(s.workers), multiset(s.output), multiset(s.output), multiset{s.writer.p}, multiset{},
      multiset(s.written), multiset(t.written), s.dropped);
    SameWork(c, s, t);
  }

  lemma CountConserved(c: Config, s: State, e: Step)
    requires Conserved(c, s) && Enabled(c, s, e) && (e.StopWriter? || e.TakeStatus? || e.Count? || e.StopCount?)
    ensures Conserved(c, Apply(c, s, e))
  {
    hide Conserved, AllInHand, Whereabouts;
    var t := Apply(c, s, e);
    SamePlaces(s, t);
    SameWork(c, s, t);
  }

  lemma SamePlaces(s: State, t: State)
    requires t.workers == s.workers && t.output == s.output && t.written == s.written && t.dropped == s.dropped
    requires WriterHolds(t.writer) == WriterHolds(s.writer)
    ensures Whereabouts(t) == Whereabouts(s)
  {
    hide AllInHand, WriterHolds;
  }

  lemma SameWork(c: Config, s: State, t: State)
    requires Conserved(c, s) && t.next == s.next && t.main == s.main && t.queue == s.queue && t.workers == s.workers
    requires t.handled == s.handled && Whereabouts(t) == Whereabouts(s)
    ensures Conserved(c, t)
  {
  }

  lemma StepConserved(c: Config, s: State, e: Step)
    requires Conserved(c, s) && Ordered(c, s) && Enabled(c, s, e)
    ensures Conserved(c, Apply(c, s, e))
  {
    hide Conserved, Ordered, Apply, Enabled;
    match e
    case Receive(w) => ReceiveConserved(c, s, w);
    case Exit(w) => ExitConserved(c, s, w);
    case Handle(w) => HandleConserved(c, s, w);
    case Report(w) => ReportConserved(c, s, w);
    case Marshal(w) => MarshalConserved(c, s, w);
    case Emit(w) => EmitConserved(c, s, w);
    case Take => TakeConserved(c, s);
    case Write => WriteConserved(c, s);
    case StopWriter => CountConserved(c, s, e);
    case TakeStatus => CountConserved(c, s, e);
    case Count => CountConserved(c, s, e);
    case StopCount => CountConserved(c, s, e);
    case Decode => DecodeConserved(c, s);
    case Send => SendConserved(c, s);
    case _ => MainConserved(c, s, e);
  }

  lemma WorkerSorted(c: Config, s: State, e: Step)
    requires Sorted(c, s) && Enabled(c, s, e) && OfWorker(e)
    ensures Sorted(c, Apply(c, s, e))
  {
    hide Marshals;
    MarshalsMeans(c, s, e);
  }

  lemma StepSorted(c: Config, s: State, e: Step)
    requires Sorted(c, s) && Enabled(c, s, e)
    ensures Sorted(c, Apply(c, s, e))
  {
    hide Marshals, AfterRun;
    if OfWorker(e) {
      WorkerSorted(c, s, e);
    } else if e.Take? {
      assert s.output[0] in s.output;
    }
  }

  lemma MarshalsMeans(c: Config, s: State, e: Step)
    ensures e.Marshal? && e.w < |s.workers| && s.workers[e.w].Marshalling? ==>
      (Marshals(c, Pair(s.workers[e.w].item, s.workers[e.w].run)) <==> c.marshals(s.workers[e.w].item, s.workers[e.w].run))
  {
  }

  lemma WorkerOrdered(c: Config, s: State, e: Step)
    requires Ordered(c, s) && Enabled(c, s, e) && OfWorker(e)
    ensures Ordered(c, Apply(c, s, e))
  {
  }

  lemma StepOrdered(c: Config, s: State, e: Step)
    requires Ordered(c, s) && Enabled(c, s, e)
    ensures Ordered(c, Apply(c, s, e))
  {
    if OfWorker(e) { WorkerOrdered(c, s, e); }
  }

  lemma {:induction false} TruesAppend(b: seq<bool>, x: bool)
    ensures Trues(b + [x]) == Trues(b) + if x then 1 else 0
  {
    if b == [] {
      assert [x][1..] == [];
    } else {
      assert (b + [x])[1..] == b[1..] + [x];
      TruesAppend(b[1..], x);
    }
  }

  lemma StepCounted(c: Config, s: State, e: Step)
    requires Counted(s) && Enabled(c, s, e)
    ensures Counted(Apply(c, s, e))
  {
    hide AfterRun;
    if e.Report? {
      TruesAppend(s.statuses, c.good(s.workers[e.w].item, s.workers[e.w].run));
    } else if e.TakeStatus? {
      TruesOne(s.statuses[0]);
    } else if e.Count? {
      TruesOne(s.counter.good);
    }
  }

  lemma TruesOne(b: bool)
    ensures Trues([b]) == if b then 1 else 0
  {
    assert [b][1..] == [];
  }

  lemma StepInv(c: Config, s: State, e: Step)
    requires Inv(c, s) && Enabled(c, s, e)
    ensures Inv(c, Apply(c, s, e))
  {
    hide Conserved, Sorted, Ordered, Counted, Enabled, Apply;
    StepConserved(c, s, e);
    StepSorted(c, s, e);
    StepOrdered(c, s, e);
    StepCounted(c, s, e);
  }

  // ---- What follows

  /** Nothing is ever sent on a closed channel. */
  lemma NoSendOnClosed(c: Config, s: State)
    requires Inv(c, s)
    ensures s.main.Sending? ==> !s.queueClosed
    ensures forall w :: 0 <= w < |s.workers| && s.workers[w].Emitting? ==> !s.outputClosed
    ensures forall w :: 0 <= w < |s.workers| && s.workers[w].Reporting? ==> !s.statusesClosed
  {
    hide Conserved, Sorted, Counted;
  }

  /** Until Process has returned some goroutine can go on. */
  lemma NoDeadlock(c: Config, s: State)
    requires Inv(c, s) && !s.main.Returned?
    ensures exists e :: Enabled(c, s, e)
  {
    hide Conserved, Sorted, Counted;
    var e := CanGoOn(c, s);
    assert Enabled(c, s, e);
  }

  ghost function CanGoOn(c: Config, s: State): (e: Step)
    requires Ordered(c, s) && !s.main.Returned?
    ensures Enabled(c, s, e)
  {
    if s.main.Reading? then if s.next < c.items then Decode else DecodeEOF
    else if s.counter.Holding? then Count
    else if s.statuses != [] then TakeStatus
    else if s.writer.Writing? then Write
    else if s.writer.Waiting? && s.output != [] then Take
    else if s.main.AwaitingOutput? then if s.writer.Stopped? then OutputDone else StopWriter
    else if s.main.Sending? && |s.queue| < c.Capacity() then Send
    else if exists w :: 0 <= w < |s.workers| && !s.workers[w].Exited? then
      var w :| 0 <= w < |s.workers| && !s.workers[w].Exited?;
      match s.workers[w]
      case Idle => if s.queue != [] then Receive(w) else Exit(w)
      case Handling(_, _) => Handle(w)
      case Reporting(_, _) => Report(w)
      case Marshalling(_, _) => Marshal(w)
      case Emitting(_, _) => Emit(w)
      case Exited => Count
    else assert s.workers[0].Exited?; WorkersDone
  }

  lemma {:induction false} RunsCount(c: Config, item: nat, run: nat, p: Pair)
    ensures RunsFrom(c, item, run)[p] == if p.item == item && run <= p.run < c.runs then 1 else 0
    decreases c.runs - run
  {
    if run < c.runs { RunsCount(c, item, run + 1, p); }
  }

  lemma {:induction false} ItemsCount(c: Config, item: nat, p: Pair)
    ensures ItemsFrom(c, item)[p] == if item <= p.item < c.items && p.run < c.runs then 1 else 0
    decreases c.items - item
  {
    if item < c.items {
      RunsCount(c, item, 0, p);
      ItemsCount(c, item + 1, p);
    }
  }

  /** When Process returns, every decoded object has been handled exactly as often as asked, and each result that
      marshals has been written exactly once, and nothing else. */
  lemma ProcessReturns(c: Config, s: State, p: Pair)
    requires Inv(c, s) && s.main.Returned?
    ensures s.handled[p] == if p.item < c.items && p.run < c.runs then 1 else 0
    ensures multiset(s.written)[p] == if p.item < c.items && p.run < c.runs && c.marshals(p.item, p.run) then 1 else 0
    ensures s.success + s.failure + |Held(s.counter)| + |s.statuses| == s.reported
  {
    IdleWorkers(c, s.workers);
    ItemsCount(c, 0, p);
    assert s.handled == multiset(s.written) + s.dropped;
    assert p in multiset(s.written) ==> p in s.written;
    assert s.handled[p] == multiset(s.written)[p] + s.dropped[p];
  }

  // ---- Every run ends

  /** An upper bound on how many steps are left for one run of an item, by where it is. */
  const COST: nat := 9

  ghost function ItemCost(c: Config): nat {
    5 + COST * c.runs
  }

  ghost function WorkerCost(c: Config, w: Worker): nat {
    match w
    case Idle => 1
    case Handling(_, r) => 2 + COST * Left(c, r)
    case Reporting(_, r) => 2 + COST * Left(c, r + 1) + 8
    case Marshalling(_, r) => 2 + COST * Left(c, r + 1) + 5
    case Emitting(_, r) => 2 + COST * Left(c, r + 1) + 4
    case Exited => 0
  }

  function Left(c: Config, run: nat): nat {
    if run < c.runs then c.runs - run else 0
  }

  ghost function WorkersCost(c: Config, ws: seq<Worker>): nat {
    if ws == [] then 0 else WorkerCost(c, ws[0]) + WorkersCost(c, ws[1..])
  }

  lemma {:induction false} CostUpdate(c: Config, ws: seq<Worker>, k: nat, x: Worker)
    requires k < |ws|
    ensures WorkersCost(c, ws[k := x]) + WorkerCost(c, ws[k]) == WorkersCost(c, ws) + WorkerCost(c, x)
  {
    if k == 0 {
      assert ws[0 := x][1..] == ws[1..];
    } else {
      assert ws[k := x][1..] == ws[1..][k - 1 := x];
      CostUpdate(c, ws[1..], k - 1, x);
    }
  }

  ghost function MainCost(c: Config, m: Main): nat {
    match m
    case Reading => 3
    case Sending(_) => 3 + ItemCost(c) - 1
    case AwaitingWorkers => 2
    case AwaitingOutput => 1
    case Returned => 0
  }

  function Times(a: nat, b: nat): nat {
    if a == 0 then 0 else b + Times(a - 1, b)
  }

  ghost function QueueCost(c: Config): nat {
    3 + COST * c.runs
  }

  ghost function WriterCost(w: Writer): nat {
    match w case Waiting => 1 case Writing(_) => 2 case Stopped => 0
  }

  ghost function CounterCost(k: Counter): nat {
    match k case Listening => 1 case Holding(_) => 2 case Finished => 0
  }

  /** Every step makes this smaller. */
  ghost function StepsLeft(c: Config, s: State): nat {
    Times(if s.next < c.items then c.items - s.next else 0, ItemCost(c)) + MainCost(c, s.main) + Times(|s.queue|, QueueCost(c))
    + WorkersCost(c, s.workers) + 2 * |s.output| + WriterCost(s.writer) + 2 * |s.statuses| + CounterCost(s.counter)
  }

  lemma ReceiveShortens(c: Config, s: State, e: Step)
    requires Enabled(c, s, e) && e.Receive?
    ensures StepsLeft(c, Apply(c, s, e)) < StepsLeft(c, s)
  {
    hide WorkersCost, ItemCost;
    var t := Apply(c, s, e);
    CostUpdate(c, s.workers, e.w, t.workers[e.w]);
    assert t.workers == s.workers[e.w := t.workers[e.w]];
  }

  /** A worker's step takes more from the worker's cost than it adds to the channels. */
  lemma WorkerPays(c: Config, s: State, t: State, w: nat)
    requires w < |s.workers| == |t.workers| && t.workers == s.workers[w := t.workers[w]]
    requires t.next == s.next && t.main == s.main && t.queue == s.queue && t.writer == s.writer && t.counter == s.counter
    requires WorkerCost(c, t.workers[w]) + 2 * |t.output| + 2 * |t.statuses| < WorkerCost(c, s.workers[w]) + 2 * |s.output| + 2 * |s.statuses|
    ensures StepsLeft(c, t) < StepsLeft(c, s)
  {
    hide WorkersCost, WorkerCost, ItemCost, QueueCost, Times, MainCost, WriterCost, CounterCost;
    CostUpdate(c, s.workers, w, t.workers[w]);
  }

  lemma WorkerShortens(c: Config, s: State, e: Step)
    requires Enabled(c, s, e) && OfWorker(e) && !e.Receive? && (s.workers[e.w].Handling? ==> s.workers[e.w].run < c.runs)
    ensures StepsLeft(c, Apply(c, s, e)) < StepsLeft(c, s)
  {
    hide StepsLeft;
    WorkerPays(c, s, Apply(c, s, e), e.w);
  }

  lemma StepShortens(c: Config, s: State, e: Step)
    requires Ordered(c, s) && Enabled(c, s, e)
    ensures StepsLeft(c, Apply(c, s, e)) < StepsLeft(c, s)
  {
    hide WorkersCost, WorkerCost;
    if e.Receive? {
      ReceiveShortens(c, s, e);
    } else if OfWorker(e) {
      WorkerShortens(c, s, e);
    }
  }

  /** A run: every state but the first comes from the one before it by an enabled step. */
  ghost predicate IsRun(c: Config, trace: seq<State>) {
    trace != [] && trace[0] == Init(c) && forall i :: 0 <= i < |trace| - 1 ==> Follows(c, trace[i], trace[i + 1])
  }

  ghost predicate Follows(c: Config, s: State, t: State) {
    exists e :: Enabled(c, s, e) && t == Apply(c, s, e)
  }

  /** Every state of every run keeps the invariants, and no run is longer than the first state allows: since
      some step can be taken until then, every schedule makes Process return. */
  lemma {:induction false} RunsEnd(c: Config, trace: seq<State>)
    requires c.workers > 0 && IsRun(c, trace)
    ensures Inv(c, trace[|trace| - 1])
    ensures |trace| + StepsLeft(c, trace[|trace| - 1]) <= 1 + StepsLeft(c, Init(c))
    decreases |trace|
  {
    hide Conserved, Sorted, Ordered, Counted, Enabled, Apply, StepsLeft;
    if |trace| == 1 {
      InitInv(c);
    } else {
      var before := trace[..|trace| - 1];
      forall i | 0 <= i < |before| - 1 ensures Follows(c, before[i], before[i + 1]) {
        assert Follows(c, trace[i], trace[i + 1]);
      }
      RunsEnd(c, before);
      var s := before[|before| - 1];
      assert Follows(c, trace[|trace| - 2], trace[|trace| - 1]);
      var e :| Enabled(c, s, e) && trace[|trace| - 1] == Apply(c, s, e);
      StepInv(c, s, e);
      StepShortens(c, s, e);
    }
  }
}
