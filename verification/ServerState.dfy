/** What a server connection keeps about its streams, its windows and its writing, as a value, and the
    invariants of that value. */
module ServerStates {
  import opened GoInt
  import opened Options

  datatype Phase = Idle | Open | HalfClosedLocal | HalfClosedRemote | Closed

  datatype Stream = Stream(
    phase: Phase, flow: Int32, hasBody: bool, resetQueued: bool, gotTrailerHeader: bool, wroteHeaders: bool)

  /** The frames a server writes; DATA is reduced to its length. */
  datatype Write =
    | Data(n: nat, endStream: bool)
    | ResHeaders(endStream: bool)
    | Continue100
    | StreamError(id: nat)
    | HandlerPanicRST
    | WindowUpdate(n: nat)
    | PushPromise
    | PingAck
    | Settings
    | SettingsAck
    | GoAway(maxStreamID: nat, code: nat)
    | Flush

  /** stream is the stream on which the frame is written, or 0. */
  datatype Request = Request(write: Write, stream: nat) {
    function StreamID(): nat {
      if stream == 0 && write.StreamError? then write.id else stream
    }

    /** Writing this frame ends the local half of the stream. */
    predicate Ends() {
      (write.Data? || write.ResHeaders?) && write.endStream
    }

    /** Frames that may follow the end of the local half. */
    predicate AfterEnd() {
      write.StreamError? || write.HandlerPanicRST? || write.WindowUpdate?
    }

    predicate Metered() {
      write.Data? && write.n > 0
    }

    /** The kinds of frames that a stream writes carry it, and the others do not. */
    predicate WellFormed() {
      match write
      case Data(_, _) => stream > 0
      case ResHeaders(_) => stream > 0
      case Continue100 => stream > 0
      case HandlerPanicRST => stream > 0
      case PushPromise => stream > 0
      case StreamError(id) => stream == 0 && id > 0
      case WindowUpdate(n) => n > 0
      case _ => stream == 0
    }

    /** A frame that is queued, rather than wanted by a flag of the scheduling loop. */
    predicate Queueable() {
      WellFormed() && !write.GoAway? && !write.Flush?
    }

    function Size(): nat {
      if write.Data? then write.n else 0
    }
  }

  /** The history of a window: the initial size last applied to it, the increments accepted since the
      window exists and the bytes sent. */
  datatype Account = Account(base: int, accepted: nat, sent: nat) {
    function Balance(): int {
      base + accepted - sent
    }
  }

  /** The streams made so far, those still registered, and the counts and the highest numbers of each side. */
  datatype Registration = Registration(
    records: map<nat, Stream>, streams: set<nat>, curClientStreams: int, curPushedStreams: int,
    maxClientStreamID: nat, maxPushPromiseID: nat, advMaxStreams: nat)

  /** The send window of the connection, the settings that bound DATA, and the histories of the windows;
      refused tells that a SETTINGS frame was refused. */
  datatype Windowing = Windowing(
    flow: Int32, initialWindowSize: Int32, maxFrameSize: Int32, acct: map<nat, Account>, connAcct: Account, refused: bool)

  /** The writing side; inFlight is the frame being written. */
  datatype Output = Output(
    writingFrame: bool, writingFrameAsync: bool, needsFrameFlush: bool, inFrameScheduleLoop: bool,
    needToSendSettingsAck: bool, inFlight: Option<Request>)

  datatype Leaving = Leaving(inGoAway: bool, needToSendGoAway: bool, goAwayCode: nat)

  datatype State = State(reg: Registration, queues: map<nat, seq<Request>>, win: Windowing, out: Output, away: Leaving) {
    /** The numbers fit the fields of a connection. */
    predicate FitsFields() {
      && 0 <= reg.curClientStreams < TWO_32 && 0 <= reg.curPushedStreams < TWO_32 && reg.maxClientStreamID < TWO_32
      && reg.maxPushPromiseID < TWO_32 && reg.advMaxStreams < TWO_32 && away.goAwayCode < TWO_32
    }
  }

  // ---- Reading a state

  /** The phase of a stream as the protocol sees it: a stream that is not registered is closed if its
      number is not above the highest one used by its initiator. */
  function PhaseOf(s: State, id: nat): Phase {
    if id in s.reg.streams && id in s.reg.records then s.reg.records[id].phase
    else if id <= (if id % 2 == 1 then s.reg.maxClientStreamID else s.reg.maxPushPromiseID) then Closed
    else Idle
  }

  function QueueOf(s: State, id: nat): seq<Request> {
    if id in s.queues then s.queues[id] else []
  }

  predicate Busy(s: State) {
    s.out.writingFrame || s.out.inFrameScheduleLoop
  }

  /** After a GOAWAY with an error no more frames are taken from the queues. */
  predicate Mute(s: State) {
    s.away.inGoAway && s.away.goAwayCode != 0
  }

  /** How many bytes of DATA the stream id may send now. */
  function Allowed(s: State, id: nat): (a: Int32) {
    if id !in s.reg.records then 0
    else
      var f := s.reg.records[id].flow;
      var b := if s.win.flow < f then s.win.flow else f;
      if s.win.maxFrameSize < b then s.win.maxFrameSize else b
  }

  predicate Sendable(s: State, r: Request) {
    r.Metered() ==> Allowed(s, r.stream) > 0
  }

  predicate Ready(s: State, id: nat) {
    QueueOf(s, id) != [] && Sendable(s, QueueOf(s, id)[0])
  }

  ghost predicate Poppable(s: State) {
    exists id :: id in s.queues && Ready(s, id)
  }

  /** There is something to write. */
  ghost predicate Pending(s: State) {
    s.away.needToSendGoAway || s.out.needToSendSettingsAck || s.out.needsFrameFlush || (!Mute(s) && Poppable(s))
  }

  /** One frame is being written, or there is nothing to write. */
  ghost predicate Settled(s: State) {
    s.out.writingFrameAsync || !Pending(s)
  }

  /** The serve loop is between two events. */
  ghost predicate AtRest(s: State) {
    !s.out.inFrameScheduleLoop && s.out.writingFrame == s.out.writingFrameAsync
  }

  // ---- The invariants

  function Odd(S: set<nat>): set<nat> {
    set id | id in S && id % 2 == 1
  }

  function Even(S: set<nat>): set<nat> {
    set id | id in S && id % 2 == 0
  }

  /** The registry: the counters count, the highest numbers bound, and exactly the streams that are
      not closed are registered. */
  ghost predicate Registry(s: State) {
    && s.reg.streams <= s.reg.records.Keys
    && (forall id :: id in s.reg.records ==> id > 0 && !s.reg.records[id].phase.Idle? && (id in s.reg.streams <==> !s.reg.records[id].phase.Closed?))
    && (forall id :: id in s.reg.records ==> id <= if id % 2 == 1 then s.reg.maxClientStreamID else s.reg.maxPushPromiseID)
    && s.reg.curClientStreams == |Odd(s.reg.streams)| && s.reg.curPushedStreams == |Even(s.reg.streams)|
    && s.reg.curClientStreams <= s.reg.advMaxStreams < TWO_32
    && s.reg.maxClientStreamID < 0x8000_0000 && s.reg.maxPushPromiseID < 0x8000_0000 && s.reg.maxPushPromiseID % 2 == 0
  }

  /** The windows are what their histories say, and a registered stream has the current initial size as its
      base; once a SETTINGS frame was refused half way this is so for the connection's window only. */
  ghost predicate Windows(s: State) {
    && s.win.acct.Keys == s.reg.records.Keys
    && (forall id :: id in s.reg.records && id in s.win.acct && !s.win.refused ==> Explained(s.reg.records[id].flow, s.win.acct[id]))
    && (forall id :: id in s.reg.streams && id in s.win.acct && !s.win.refused ==> s.win.acct[id].base == s.win.initialWindowSize)
    && s.win.initialWindowSize >= 0 && s.win.maxFrameSize > 0
    && s.win.flow == s.win.connAcct.Balance() && s.win.connAcct.base == 65535 && s.win.flow >= 0
  }

  /** The window n has the history a, and has never paid more than its initial size and what it was granted. */
  ghost predicate Explained(n: int, a: Account) {
    n == a.Balance() && 0 <= a.base <= MAX_INT32 && a.sent - a.accepted <= MAX_INT32
  }

  /** After a frame that ends the stream come only frames that may follow it. */
  ghost predicate Orderly(q: seq<Request>) {
    forall i, j :: 0 <= i < j < |q| && q[i].Ends() ==> q[j].AfterEnd()
  }

  ghost predicate AllAfterEnd(q: seq<Request>) {
    forall r :: r in q ==> r.AfterEnd()
  }

  ghost predicate AllStreamless(q: seq<Request>) {
    forall r :: r in q ==> r.stream == 0
  }

  /** The queues hold only frames that may still be sent, except those of streams in X that have closed. */
  ghost predicate Queues(s: State, X: set<nat>) {
    && (forall id :: id in s.queues ==> forall r :: r in s.queues[id] ==>
      r.StreamID() == id && r.Queueable() && (r.stream != 0 ==> r.stream in s.reg.records))
    && (forall id :: id in s.queues ==> Orderly(s.queues[id]))
    && (forall id :: id in s.reg.records && id in s.queues && s.reg.records[id].phase.Closed? && id !in X ==> AllStreamless(s.queues[id]))
    && (forall id :: id in s.reg.records && id in s.queues && s.reg.records[id].phase.HalfClosedLocal? ==> AllAfterEnd(s.queues[id]))
  }

  /** The frame being written is a good one, and nothing unfit is queued behind it. */
  ghost predicate Writing(s: State) {
    && (s.out.writingFrameAsync ==> s.out.writingFrame) && (s.out.inFlight.Some? <==> s.out.writingFrame)
    && (s.out.inFlight.Some? ==>
      var r := s.out.inFlight.value;
      && r.WellFormed() && (r.stream != 0 ==> r.stream in s.reg.records)
      && (r.Ends() ==> AllAfterEnd(QueueOf(s, r.stream)) && !s.reg.records[r.stream].phase.HalfClosedLocal?))
    && (s.away.needToSendGoAway ==> s.away.inGoAway)
  }

  /** A reset has been queued for every stream, outside U, that is closed on our side only or has no
      body to receive. */
  ghost predicate Marked(s: State, U: set<nat>) {
    forall id :: id in s.reg.records && id !in U ==>
      && (s.reg.records[id].phase.HalfClosedLocal? ==> s.reg.records[id].resetQueued)
      && (s.reg.records[id].phase.Open? && !s.reg.records[id].hasBody ==> s.reg.records[id].resetQueued)
  }

  ghost predicate Inv(s: State, X: set<nat>, U: set<nat>) {
    Registry(s) && Windows(s) && Queues(s, X) && Writing(s) && Marked(s, U)
  }

  /** The part of a queue that begins with its first frame that has a stream. */
  function Own(q: seq<Request>): (p: seq<Request>)
    ensures p != [] ==> p[0] in q && p[0].stream != 0
  {
    if q == [] || q[0].stream != 0 then q else Own(q[1..])
  }

  /** Nothing that has a stream will be taken from the queue of id before the queue is dropped. */
  ghost predicate Harmless(s: State, id: nat) {
    || s.out.writingFrameAsync || s.away.needToSendGoAway || Mute(s)
    || Own(QueueOf(s, id)) == [] || !Sendable(s, Own(QueueOf(s, id))[0])
  }

  ghost predicate Safe(s: State, X: set<nat>) {
    forall id :: id in X && id in s.reg.records && s.reg.records[id].phase.Closed? ==> Harmless(s, id)
  }

  // ---- The relations between an earlier and a later state

  /** Nothing is forgotten: closed streams stay closed, new streams have new numbers, histories grow. */
  ghost predicate Later(s: State, t: State) {
    && s.reg.records.Keys <= t.reg.records.Keys && t.reg.advMaxStreams == s.reg.advMaxStreams
    && (forall id :: id in s.reg.records && id in t.reg.records && s.reg.records[id].phase.Closed? ==> t.reg.records[id].phase.Closed?)
    && (forall id :: id in s.reg.records && id in t.reg.records && s.reg.records[id].hasBody ==> t.reg.records[id].hasBody)
    && (forall id :: id in t.reg.records && id !in s.reg.records ==> id > if id % 2 == 1 then s.reg.maxClientStreamID else s.reg.maxPushPromiseID)
    && s.reg.maxClientStreamID <= t.reg.maxClientStreamID && s.reg.maxPushPromiseID <= t.reg.maxPushPromiseID
    && (s.away.inGoAway ==> t.away.inGoAway && t.away.goAwayCode == s.away.goAwayCode)
    && (s.win.refused ==> t.win.refused)
    && (forall id :: id in s.win.acct ==> id in t.win.acct && s.win.acct[id].accepted <= t.win.acct[id].accepted && s.win.acct[id].sent <= t.win.acct[id].sent)
    && s.win.connAcct.accepted <= t.win.connAcct.accepted && s.win.connAcct.sent <= t.win.connAcct.sent
  }

  lemma LaterTransitive(s: State, t: State, u: State)
    requires Later(s, t) && Later(t, u)
    ensures Later(s, u)
  {
  }

  /** A stream that is closed is never again idle or open. */
  lemma ClosedForever(s: State, t: State, id: nat)
    requires Registry(s) && Registry(t) && Later(s, t) && PhaseOf(s, id).Closed?
    ensures PhaseOf(t, id).Closed?
  {
  }

  /** A number once used, or skipped, is never idle again. */
  lemma NeverIdleAgain(s: State, t: State, id: nat)
    requires Registry(s) && Registry(t) && Later(s, t) && !PhaseOf(s, id).Idle?
    ensures !PhaseOf(t, id).Idle?
  {
  }

  /** The queue of id holds only window updates, or its first frame is blocked. */
  ghost predicate Calm(s: State, id: nat) {
    Mute(s) || (forall r :: r in QueueOf(s, id) ==> r.write.WindowUpdate?) || (QueueOf(s, id) != [] && !Ready(s, id))
  }

  /** What the frame scheduler may do to a state: the settings stand, no window grows, and a calm stream
      stays in its phase. */
  ghost predicate Scheduled(s: State, t: State) {
    && Later(s, t)
    && t.win.initialWindowSize == s.win.initialWindowSize && t.win.maxFrameSize == s.win.maxFrameSize && t.win.refused == s.win.refused
    && (forall id :: id in s.win.acct && id in t.win.acct ==> t.win.acct[id].base == s.win.acct[id].base && t.win.acct[id].accepted == s.win.acct[id].accepted)
    && t.win.connAcct.accepted == s.win.connAcct.accepted
    && (forall id :: id in s.reg.records && Calm(s, id) ==> id in t.reg.records && Calm(t, id) && t.reg.records[id].phase == s.reg.records[id].phase)
  }

  lemma ScheduledTransitive(s: State, t: State, u: State)
    requires Scheduled(s, t) && Scheduled(t, u)
    ensures Scheduled(s, u)
  {
    hide Calm;
    LaterTransitive(s, t, u);
  }

  lemma ScheduledReflexive(s: State)
    ensures Scheduled(s, s)
  {
    hide Calm;
  }

  // ---- The measure that the scheduling loop decreases

  ghost function Weight(q: seq<Request>): nat {
    if q == [] then 0 else q[0].Size() + 1 + Weight(q[1..])
  }

  lemma {:induction false} WeightAppend(q: seq<Request>, r: Request)
    ensures Weight(q + [r]) == Weight(q) + r.Size() + 1
  {
    if q == [] {
      assert [r][1..] == [];
    } else {
      assert (q + [r])[1..] == q[1..] + [r];
      WeightAppend(q[1..], r);
    }
  }

  ghost function Total(m: map<nat, seq<Request>>): nat
    decreases |m|
  {
    if m == map[] then 0
    else
      var k :| k in m;
      Weight(m[k]) + Total(m - {k})
  }

  lemma {:induction false} TotalAt(m: map<nat, seq<Request>>, k: nat)
    requires k in m
    ensures Total(m) == Weight(m[k]) + Total(m - {k})
    decreases |m|
  {
    var j :| j in m && Total(m) == Weight(m[j]) + Total(m - {j});
    if j != k {
      TotalAt(m - {j}, k);
      TotalAt(m - {k}, j);
      assert m - {j} - {k} == m - {k} - {j};
    }
  }

  lemma TotalUpdate(m: map<nat, seq<Request>>, k: nat, q: seq<Request>)
    requires k in m
    ensures Total(m[k := q]) + Weight(m[k]) == Total(m) + Weight(q)
  {
    TotalAt(m, k);
    TotalAt(m[k := q], k);
    assert m[k := q] - {k} == m - {k};
  }

  ghost function OpenSet(s: State): set<nat> {
    set id | id in s.reg.streams && id in s.reg.records && s.reg.records[id].phase.Open?
  }

  ghost function AckPending(s: State): nat {
    if s.out.needToSendSettingsAck then 1 else 0
  }

  /** In the order of streams registered, streams open, acknowledgements owed and work queued, t is
      below s, with at least drop less work queued if all else is equal. */
  ghost predicate Below(s: State, t: State, drop: nat) {
    var a, b := |s.reg.streams|, |OpenSet(s)|;
    var c, d := |t.reg.streams|, |OpenSet(t)|;
    c < a || (c == a && (d < b || (d == b && (AckPending(t) < AckPending(s)
      || (AckPending(t) == AckPending(s) && Total(t.queues) + drop <= Total(s.queues))))))
  }

  // ---- What the invariants depend on

  ghost predicate SameRegistry(s: State, t: State) {
    && t.reg.streams == s.reg.streams && t.reg.records.Keys == s.reg.records.Keys && t.reg.advMaxStreams == s.reg.advMaxStreams
    && t.reg.curClientStreams == s.reg.curClientStreams && t.reg.curPushedStreams == s.reg.curPushedStreams
    && t.reg.maxClientStreamID == s.reg.maxClientStreamID && t.reg.maxPushPromiseID == s.reg.maxPushPromiseID
    && forall id :: id in s.reg.records && id in t.reg.records ==> t.reg.records[id].phase == s.reg.records[id].phase
  }

  lemma RegistryKept(s: State, t: State)
    requires Registry(s) && SameRegistry(s, t)
    ensures Registry(t)
  {
    hide Odd, Even;
  }

  ghost predicate SameWindows(s: State, t: State) {
    && t.reg.records.Keys == s.reg.records.Keys && t.reg.streams <= s.reg.streams && t.win.acct == s.win.acct && t.win.connAcct == s.win.connAcct
    && t.win.flow == s.win.flow && t.win.initialWindowSize == s.win.initialWindowSize && t.win.maxFrameSize == s.win.maxFrameSize && t.win.refused == s.win.refused
    && forall id :: id in s.reg.records && id in t.reg.records ==> t.reg.records[id].flow == s.reg.records[id].flow
  }

  lemma WindowsKept(s: State, t: State)
    requires Windows(s) && SameWindows(s, t)
    ensures Windows(t)
  {
  }

  lemma QueuesKept(s: State, t: State, X: set<nat>)
    requires Queues(s, X) && SameRegistry(s, t) && SameWriting(s, t)
    ensures Queues(t, X)
  {
    hide Orderly, AllStreamless, AllAfterEnd;
  }

  lemma WritingKept(s: State, t: State)
    requires Writing(s) && SameRegistry(s, t)
    requires SameWriting(s, t)
    ensures Writing(t)
  {
    hide AllAfterEnd;
    assert forall id :: QueueOf(t, id) == QueueOf(s, id);
  }

  lemma MarkedKept(s: State, t: State, U: set<nat>)
    requires Marked(s, U) && SameRegistry(s, t)
    requires SameMarks(s, t)
    ensures Marked(t, U)
  {
  }

  /** Calm depends on the queue, the windows and the muting alone. */
  lemma CalmKept(s: State, t: State, id: nat)
    requires Calm(s, id) && id in s.reg.records && id in t.reg.records && QueueOf(t, id) == QueueOf(s, id)
    requires t.reg.records[id].flow <= s.reg.records[id].flow && t.win.flow <= s.win.flow && t.win.maxFrameSize <= s.win.maxFrameSize
    requires Mute(s) ==> Mute(t)
    requires forall r :: r in QueueOf(s, id) ==> r.stream == 0 || r.stream == id
    requires forall r :: r in QueueOf(s, id) ==> r.WellFormed()
    ensures Calm(t, id)
  {
    if QueueOf(s, id) != [] {
      var r := QueueOf(s, id)[0];
      assert r in QueueOf(s, id);
    }
  }

  lemma OwnQueue(s: State, id: nat, X: set<nat>)
    requires Queues(s, X)
    ensures forall r :: r in QueueOf(s, id) ==> (r.stream == 0 || r.stream == id) && r.WellFormed() && r.Queueable() && r.StreamID() == id
    ensures Orderly(QueueOf(s, id))
    ensures id in s.reg.records && s.reg.records[id].phase.Closed? && id !in X ==> AllStreamless(QueueOf(s, id))
    ensures id in s.reg.records && s.reg.records[id].phase.HalfClosedLocal? ==> AllAfterEnd(QueueOf(s, id))
  {
  }

  /** The flags of the streams are only set, never cleared. */
  ghost predicate SameMarks(s: State, t: State) {
    forall id :: id in s.reg.records && id in t.reg.records ==>
      && (s.reg.records[id].resetQueued ==> t.reg.records[id].resetQueued) && (s.reg.records[id].hasBody ==> t.reg.records[id].hasBody)
  }

  /** The writing side is the same. */
  ghost predicate SameWriting(s: State, t: State) {
    && t.out.writingFrame == s.out.writingFrame && t.out.writingFrameAsync == s.out.writingFrameAsync && t.out.inFlight == s.out.inFlight
    && t.away.needToSendGoAway == s.away.needToSendGoAway && t.away.inGoAway == s.away.inGoAway && t.queues == s.queues
  }

  lemma SameInv(s: State, t: State, X: set<nat>, U: set<nat>)
    requires Inv(s, X, U) && SameRegistry(s, t) && SameWindows(s, t) && SameMarks(s, t) && SameWriting(s, t)
    ensures Inv(t, X, U)
  {
    hide *;
    assert Registry(s) && Windows(s) && Queues(s, X) && Writing(s) && Marked(s, U) by { InvParts(s, X, U); }
    RegistryKept(s, t);
    WindowsKept(s, t);
    QueuesKept(s, t, X);
    WritingKept(s, t);
    MarkedKept(s, t, U);
    InvWhole(t, X, U);
  }

  lemma InvParts(s: State, X: set<nat>, U: set<nat>)
    requires Inv(s, X, U)
    ensures Registry(s) && Windows(s) && Queues(s, X) && Writing(s) && Marked(s, U)
  {
  }

  lemma InvWhole(s: State, X: set<nat>, U: set<nat>)
    requires Registry(s) && Windows(s) && Queues(s, X) && Writing(s) && Marked(s, U)
    ensures Inv(s, X, U)
  {
  }
}
