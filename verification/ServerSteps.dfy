/** The steps of a server connection, each a function of its state, and what they preserve. */
module ServerSteps {
  import opened GoInt
  import opened Options
  import opened FlowControl
  import opened ServerStates

  // ---- The steps

  function Pushed(s: State, r: Request): State {
    s.(queues := s.queues[r.StreamID() := QueueOf(s, r.StreamID()) + [r]])
  }

  /** Frames for closed streams, other than resets, are dropped, and so is a 100 after the headers. */
  predicate Ignored(s: State, r: Request) {
    || (r.StreamID() != 0 && PhaseOf(s, r.StreamID()).Closed? && !r.write.StreamError?)
    || (r.write.Continue100? && r.stream in s.reg.records && s.reg.records[r.stream].wroteHeaders)
  }

  function Noted(s: State, r: Request): State {
    if r.write.ResHeaders? && r.stream in s.reg.records
    then s.(reg := s.reg.(records := s.reg.records[r.stream := s.reg.records[r.stream].(wroteHeaders := true)]))
    else s
  }

  /** A frame is handed over for writing. */
  function Offer(s: State, r: Request): State {
    if Ignored(s, r) then Noted(s, r) else Pushed(Noted(s, r), r)
  }

  /** A frame may be handed over: its stream exists and has not been ended by an earlier frame. */
  ghost predicate MayOffer(s: State, r: Request) {
    && r.Queueable() && (r.stream != 0 ==> r.stream in s.reg.records)
    && (Ignored(s, r) || r.stream == 0 || r.AfterEnd() || NotEnded(s, r.stream))
  }

  /** No frame that ends the stream has been written, is being written or is queued. */
  ghost predicate NotEnded(s: State, id: nat) {
    && id in s.reg.records && !s.reg.records[id].phase.HalfClosedLocal?
    && (forall r :: r in QueueOf(s, id) ==> !r.Ends())
    && (s.out.inFlight.Some? && s.out.inFlight.value.stream == id ==> !s.out.inFlight.value.Ends())
  }

  lemma OrderlyAppend(q: seq<Request>, r: Request)
    requires Orderly(q) && (r.AfterEnd() || forall x :: x in q ==> !x.Ends())
    ensures Orderly(q + [r])
  {
  }

  // ---- Handing a frame over

  lemma PushedQueues(s: State, r: Request, X: set<nat>)
    requires Queues(s, X) && Registry(s) && MayOffer(s, r) && !Ignored(s, r)
    ensures Queues(Pushed(s, r), X)
  {
    hide Odd, Even;
    var t := Pushed(s, r);
    var id := r.StreamID();
    var q := QueueOf(s, id);
    assert forall x :: x in q + [r] ==> x in q || x == r;
    assert r.stream != 0 ==> PhaseOf(s, r.stream) == s.reg.records[r.stream].phase;
    OrderlyAppend(q, r) by {
      if !r.AfterEnd() && r.stream == 0 {
        assert forall x :: x in q ==> !x.Ends();
      }
    }
  }

  lemma PushedInv(s: State, r: Request, X: set<nat>, U: set<nat>)
    requires Inv(s, X, U) && MayOffer(s, r) && !Ignored(s, r)
    ensures Inv(Pushed(s, r), X, U)
  {
    hide Odd, Even, Queues, Orderly, AllStreamless, Ignored, Registry, Windows;
    var t := Pushed(s, r);
    RegistryKept(s, t);
    WindowsKept(s, t);
    PushedQueues(s, r, X);
    assert Writing(t) by {
      assert forall x :: x in QueueOf(s, r.StreamID()) + [r] ==> x in QueueOf(s, r.StreamID()) || x == r;
    }
    MarkedKept(s, t, U);
  }

  lemma NotedSame(s: State, r: Request)
    ensures var t := Noted(s, r); SameRegistry(s, t) && SameWindows(s, t) && SameMarks(s, t) && SameWriting(s, t) && Mute(t) == Mute(s) && t.out.inFrameScheduleLoop == s.out.inFrameScheduleLoop
  {
    if r.write.ResHeaders? && r.stream in s.reg.records {
      var x := s.reg.records[r.stream].(wroteHeaders := true);
      var m := s.reg.records[r.stream := x];
      var t := s.(reg := s.reg.(records := m));
      assert m.Keys == s.reg.records.Keys;
      assert Noted(s, r) == t;
      assert SameRegistry(s, t);
      assert SameWindows(s, t);
      assert SameMarks(s, t);
      assert SameWriting(s, t);
    }
  }

  lemma OfferInv(s: State, r: Request, X: set<nat>, U: set<nat>)
    requires Inv(s, X, U) && MayOffer(s, r)
    ensures Inv(Offer(s, r), X, U)
  {
    hide Inv;
    NotedSame(s, r);
    SameInv(s, Noted(s, r), X, U);
    if !Ignored(s, r) {
      PushedInv(Noted(s, r), r, X, U);
    }
  }

  // ---- Writing a frame

  /** The frame r may be given to the writer. */
  ghost predicate CanStart(s: State, r: Request) {
    && r.WellFormed()
    && (r.stream != 0 ==> r.stream in s.reg.records && !s.reg.records[r.stream].phase.Closed? && (s.reg.records[r.stream].phase.HalfClosedLocal? ==> r.AfterEnd()))
    && (r.Ends() ==> AllAfterEnd(QueueOf(s, r.stream)))
  }

  function Begun(s: State, r: Request, async: bool): State {
    s.(out := s.out.(writingFrame := true, writingFrameAsync := async, needsFrameFlush := true, inFlight := Some(r)))
  }

  function Finished(s: State): State {
    s.(out := s.out.(writingFrame := false, writingFrameAsync := false, inFlight := None))
  }

  lemma BegunInv(s: State, r: Request, async: bool, X: set<nat>, U: set<nat>)
    requires Inv(s, X, U) && CanStart(s, r)
    ensures Inv(Begun(s, r, async), X, U)
  {
    hide Queues, Registry, Windows, Marked;
    var t := Begun(s, r, async);
    RegistryKept(s, t);
    WindowsKept(s, t);
    QueuesSame(s, t, X);
    MarkedKept(s, t, U);
  }

  lemma QueuesSame(s: State, t: State, X: set<nat>)
    requires Queues(s, X) && t.queues == s.queues && t.reg.records == s.reg.records
    ensures Queues(t, X)
  {
  }

  lemma FinishedInv(s: State, X: set<nat>, U: set<nat>)
    requires Inv(s, X, U)
    ensures Inv(Finished(s), X, U)
  {
    hide Queues, Registry, Windows, Marked;
    var t := Finished(s);
    RegistryKept(s, t);
    WindowsKept(s, t);
    QueuesSame(s, t, X);
    MarkedKept(s, t, U);
  }

  function GoneAway(s: State, code: nat): State {
    if s.away.inGoAway then s else s.(away := Leaving(true, true, code))
  }

  lemma GoneAwayInv(s: State, code: nat, X: set<nat>, U: set<nat>)
    requires Inv(s, X, U)
    ensures Inv(GoneAway(s, code), X, U)
    ensures !s.away.inGoAway ==> Safe(GoneAway(s, code), X)
  {
    hide Queues, Registry, Windows, Marked;
    var t := GoneAway(s, code);
    RegistryKept(s, t);
    WindowsKept(s, t);
    QueuesSame(s, t, X);
    MarkedKept(s, t, U);
  }

  // ---- Ending a stream

  function WithPhase(s: State, id: nat, phase: Phase): State
    requires id in s.reg.records
  {
    s.(reg := s.reg.(records := s.reg.records[id := s.reg.records[id].(phase := phase)]))
  }

  lemma PhaseRegistry(s: State, id: nat, phase: Phase)
    requires Registry(s) && id in s.reg.streams && id in s.reg.records && !phase.Idle? && !phase.Closed?
    ensures Registry(WithPhase(s, id, phase))
  {
    hide Odd, Even;
  }

  lemma HalfCloseInv(s: State, id: nat, X: set<nat>, U: set<nat>)
    requires Inv(s, X, U) && id in s.reg.streams && id in s.reg.records && s.reg.records[id].phase.Open? && AllAfterEnd(QueueOf(s, id)) && s.out.inFlight == None
    ensures Inv(WithPhase(s, id, HalfClosedLocal), X, U + {id})
    ensures Below(s, WithPhase(s, id, HalfClosedLocal), 0)
  {
    hide Registry, Orderly, AllStreamless, AllAfterEnd, Windows, Total, Request.WellFormed;
    var t := WithPhase(s, id, HalfClosedLocal);
    PhaseRegistry(s, id, HalfClosedLocal);
    assert t.reg.records.Keys == s.reg.records.Keys;
    assert OpenSet(t) == OpenSet(s) - {id} && id in OpenSet(s);
    WindowsKept(s, t);
  }

  /** endStream: the client will send no more. */
  lemma EndedInv(s: State, id: nat)
    requires Inv(s, {}, {}) && id in s.reg.streams && id in s.reg.records
    ensures Inv(WithPhase(s, id, HalfClosedRemote), {}, {})
  {
    hide Registry, Orderly, AllStreamless, AllAfterEnd, Windows, Request.WellFormed;
    var t := WithPhase(s, id, HalfClosedRemote);
    PhaseRegistry(s, id, HalfClosedRemote);
    assert t.reg.records.Keys == s.reg.records.Keys;
    WindowsKept(s, t);
  }

  /** The stream is closed and leaves the registry. */
  function Unlisted(s: State, id: nat): State
    requires id in s.reg.records
  {
    s.(reg := s.reg.(
      records := s.reg.records[id := s.reg.records[id].(phase := Closed)],
      streams := s.reg.streams - {id},
      curClientStreams := if id % 2 == 0 then s.reg.curClientStreams else s.reg.curClientStreams - 1,
      curPushedStreams := if id % 2 == 0 then s.reg.curPushedStreams - 1 else s.reg.curPushedStreams))
  }

  lemma LessOne(S: set<nat>, id: nat)
    requires id in S
    ensures |Odd(S - {id})| == |Odd(S)| - id % 2 && |Even(S - {id})| == |Even(S)| - (1 - id % 2)
  {
    if id % 2 == 0 {
      assert id in Even(S) && Even(S - {id}) == Even(S) - {id} && Odd(S - {id}) == Odd(S);
    } else {
      assert id in Odd(S) && Odd(S - {id}) == Odd(S) - {id} && Even(S - {id}) == Even(S);
    }
  }

  lemma UnlistedRegistry(s: State, id: nat)
    requires Registry(s) && id in s.reg.streams && id in s.reg.records
    ensures Registry(Unlisted(s, id))
    ensures if id % 2 == 0 then s.reg.curPushedStreams > 0 else s.reg.curClientStreams > 0
  {
    hide Odd, Even;
    LessOne(s.reg.streams, id);
  }

  lemma UnlistedInv(s: State, id: nat, X: set<nat>, U: set<nat>)
    requires Inv(s, X, U) && id in s.reg.streams && id in s.reg.records
    ensures Inv(Unlisted(s, id), X + {id}, U)
  {
    hide Odd, Even, Orderly, AllStreamless, AllAfterEnd, Windows, Request.WellFormed;
    var t := Unlisted(s, id);
    assert t.reg.records.Keys == s.reg.records.Keys;
    UnlistedRegistry(s, id);
    WindowsKept(s, t);
  }

  function Dropped(s: State, id: nat): State {
    s.(queues := s.queues - {id})
  }

  lemma DroppedInv(s: State, id: nat, X: set<nat>, U: set<nat>)
    requires Inv(s, X + {id}, U)
    ensures Inv(Dropped(s, id), X, U)
  {
    hide Orderly, Registry, Windows, Marked, Request.WellFormed;
    var t := Dropped(s, id);
    RegistryKept(s, t);
    WindowsKept(s, t);
    MarkedKept(s, t, U);
  }

  /** A reset has been queued for the stream, if it is still registered. */
  function Reset(s: State, id: nat): State {
    if id in s.reg.streams && id in s.reg.records then s.(reg := s.reg.(records := s.reg.records[id := s.reg.records[id].(resetQueued := true)])) else s
  }

  lemma ResetInv(s: State, id: nat, X: set<nat>, U: set<nat>)
    requires Inv(s, X, U + {id})
    ensures Inv(Reset(s, id), X, U)
  {
    hide Queues, Windows, Writing, Odd, Even;
    var t := Reset(s, id);
    if id in s.reg.streams {
      assert t.reg.records.Keys == s.reg.records.Keys;
      assert SameRegistry(s, t) && SameWindows(s, t) && SameMarks(s, t) && SameWriting(s, t);
      SameInv(s, t, X, U + {id});
    }
    assert Marked(t, U);
  }

  // ---- Making a stream

  /** newStream, in the given phase. */
  function Made(s: State, id: nat, phase: Phase, hasBody: bool): State {
    s.(reg := Counted(s.reg.(records := s.reg.records[id := Stream(phase, s.win.initialWindowSize, hasBody, false, false, false)],
         streams := s.reg.streams + {id}), id),
       win := s.win.(acct := s.win.acct[id := Account(s.win.initialWindowSize, 0, 0)]))
  }

  /** The stream id is one more of its initiator's, and the latest. */
  function Counted(r: Registration, id: nat): Registration {
    if id % 2 == 0 then r.(curPushedStreams := r.curPushedStreams + 1, maxPushPromiseID := id)
    else r.(curClientStreams := r.curClientStreams + 1, maxClientStreamID := id)
  }

  /** A number that its initiator has not reached. */
  predicate Fresh(s: State, id: nat) {
    (if id % 2 == 1 then s.reg.maxClientStreamID else s.reg.maxPushPromiseID) < id < 0x8000_0000
  }

  lemma OneMore(S: set<nat>, id: nat)
    requires id !in S
    ensures |Odd(S + {id})| == |Odd(S)| + id % 2 && |Even(S + {id})| == |Even(S)| + (1 - id % 2)
  {
    if id % 2 == 0 {
      assert Even(S + {id}) == Even(S) + {id} && Odd(S + {id}) == Odd(S);
    } else {
      assert Odd(S + {id}) == Odd(S) + {id} && Even(S + {id}) == Even(S);
    }
  }

  /** Fewer numbers of one parity than half the largest. */
  lemma {:induction false} FewNumbers(S: set<nat>, max: nat)
    requires forall id :: id in S ==> 0 < id <= max
    ensures |Odd(S)| <= (max + 1) / 2 && |Even(S)| <= max / 2
    decreases max
  {
    if max == 0 {
      assert S == {};
      assert Odd(S) == {} && Even(S) == {};
    } else if max in S {
      FewNumbers(S - {max}, max - 1);
      LessOne(S, max);
    } else {
      FewNumbers(S, max - 1);
    }
  }

  /** The counters stay far from the top of a uint32, so that adding one to them never wraps. */
  lemma CountersFit(s: State)
    requires Registry(s)
    ensures 0 <= s.reg.curClientStreams <= 0x4000_0000 && 0 <= s.reg.curPushedStreams <= 0x4000_0000
    ensures s.reg.maxPushPromiseID % 2 == 0 && s.reg.maxPushPromiseID < 0x8000_0000
  {
    hide Odd, Even;
    FewNumbers(s.reg.streams, 0x7FFF_FFFF);
  }

  lemma MadeRegistry(s: State, id: nat, phase: Phase, hasBody: bool)
    requires Registry(s) && Fresh(s, id) && !phase.Idle? && !phase.Closed?
    requires id % 2 == 1 ==> s.reg.curClientStreams < s.reg.advMaxStreams
    ensures id !in s.reg.records && Registry(Made(s, id, phase, hasBody))
  {
    hide Odd, Even;
    OneMore(s.reg.streams, id);
  }

  lemma MadeWindows(s: State, id: nat, phase: Phase, hasBody: bool)
    requires Windows(s) && id !in s.reg.records
    ensures Windows(Made(s, id, phase, hasBody))
  {
  }

  lemma MadeQueues(s: State, id: nat, phase: Phase, hasBody: bool, X: set<nat>)
    requires Queues(s, X) && !phase.HalfClosedLocal? && !phase.Closed? && id !in s.reg.records
    ensures Queues(Made(s, id, phase, hasBody), X)
  {
    hide Orderly, AllStreamless, AllAfterEnd, Request.WellFormed;
  }

  lemma MadeInv(s: State, id: nat, phase: Phase, hasBody: bool, X: set<nat>, U: set<nat>)
    requires Inv(s, X, U) && Fresh(s, id) && (phase.HalfClosedRemote? || phase.Open?)
    requires id % 2 == 1 ==> s.reg.curClientStreams < s.reg.advMaxStreams
    ensures id !in s.reg.records && Inv(Made(s, id, phase, hasBody), X, if phase.Open? && !hasBody then U + {id} else U)
  {
    hide Queues, Registry, Windows, AllAfterEnd, Request.WellFormed, Odd, Even;
    MadeRegistry(s, id, phase, hasBody);
    MadeWindows(s, id, phase, hasBody);
    MadeQueues(s, id, phase, hasBody, X);
  }

  // ---- Taking a frame from a queue

  /** The frame that a pop of the queue id hands out: its first request or, of DATA, as much as is allowed. */
  function Part(s: State, id: nat): Request
    requires Ready(s, id)
  {
    var r := QueueOf(s, id)[0];
    if r.Metered() && r.write.n > Allowed(s, r.stream) then Request(Data(Allowed(s, r.stream), false), r.stream) else r
  }

  function Rest(s: State, id: nat): seq<Request>
    requires Ready(s, id)
  {
    var q := QueueOf(s, id);
    var r := q[0];
    if r.Metered() && r.write.n > Allowed(s, r.stream)
    then [Request(Data(r.write.n - Allowed(s, r.stream), r.write.endStream), r.stream)] + q[1..]
    else q[1..]
  }

  /** Both windows pay for the DATA taken. */
  function Paid(s: State, id: nat, k: nat): State
    requires k > 0 ==> k <= Allowed(s, id)
  {
    if k == 0 || id !in s.reg.records || id !in s.win.acct then s
    else
      s.(reg := s.reg.(records := s.reg.records[id := s.reg.records[id].(flow := s.reg.records[id].flow - k)]),
         win := s.win.(acct := s.win.acct[id := s.win.acct[id].(sent := s.win.acct[id].sent + k)],
           flow := s.win.flow - k, connAcct := s.win.connAcct.(sent := s.win.connAcct.sent + k)))
  }

  lemma PaidInv(s: State, id: nat, k: nat, X: set<nat>, U: set<nat>)
    requires Inv(s, X, U) && (k > 0 ==> k <= Allowed(s, id))
    ensures Inv(Paid(s, id, k), X, U)
  {
    hide Registry, Queues, Windows, AllAfterEnd, Request.WellFormed;
    if k > 0 {
      var t := Paid(s, id, k);
      assert s.win.acct.Keys == s.reg.records.Keys by { PaidWindows(s, id, k); }
      assert t.reg.records.Keys == s.reg.records.Keys;
      RegistryKept(s, t);
      PaidWindows(s, id, k);
      QueuesKept(s, t, X);
    }
  }

  lemma PaidWindows(s: State, id: nat, k: nat)
    requires Windows(s) && 0 < k <= Allowed(s, id)
    ensures Windows(Paid(s, id, k)) && s.win.acct.Keys == s.reg.records.Keys
  {
  }

  function Popped(s: State, id: nat): State
    requires Ready(s, id)
  {
    Paid(s, Part(s, id).stream, Part(s, id).Size()).(queues := s.queues[id := Rest(s, id)])
  }

  /** The rest of a queue keeps what the queue promises, and ends the stream no sooner. */
  lemma RestGood(s: State, id: nat, X: set<nat>)
    requires Queues(s, X) && Ready(s, id)
    ensures forall r :: r in Rest(s, id) ==> r.StreamID() == id && r.Queueable() && (r.stream != 0 ==> r.stream in s.reg.records)
    ensures Orderly(Rest(s, id))
    ensures AllStreamless(QueueOf(s, id)) ==> AllStreamless(Rest(s, id))
    ensures AllAfterEnd(QueueOf(s, id)) ==> AllAfterEnd(Rest(s, id)) && Part(s, id) == QueueOf(s, id)[0]
    ensures Part(s, id).Ends() ==> Part(s, id) == QueueOf(s, id)[0] && AllAfterEnd(Rest(s, id))
    ensures Part(s, id).StreamID() == id && Part(s, id).WellFormed() && Part(s, id).stream == QueueOf(s, id)[0].stream
    ensures Part(s, id).stream != 0 ==> Part(s, id).stream == id && id in s.reg.records
    ensures Part(s, id).Size() > 0 ==> Part(s, id).Size() <= Allowed(s, Part(s, id).stream)
    ensures Weight(Rest(s, id)) < Weight(QueueOf(s, id))
  {
    hide Orderly, AllAfterEnd, AllStreamless, Weight;
    OwnQueue(s, id, X);
    var q, p := QueueOf(s, id), Rest(s, id);
    assert q[0] in q;
    assert forall r :: r in q[1..] ==> r in q;
    assert forall r :: r in p ==> r == p[0] || r in q[1..];
    RestOrdered(s, id);
  }

  lemma RestOrdered(s: State, id: nat)
    requires Ready(s, id) && Orderly(QueueOf(s, id))
    ensures Orderly(Rest(s, id)) && Weight(Rest(s, id)) < Weight(QueueOf(s, id))
    ensures AllStreamless(QueueOf(s, id)) ==> AllStreamless(Rest(s, id))
    ensures AllAfterEnd(QueueOf(s, id)) ==> AllAfterEnd(Rest(s, id)) && Part(s, id) == QueueOf(s, id)[0]
    ensures Part(s, id).Ends() ==> Part(s, id) == QueueOf(s, id)[0] && AllAfterEnd(Rest(s, id))
  {
    var q, p := QueueOf(s, id), Rest(s, id);
    assert q[0] in q;
    assert forall r :: r in q[1..] ==> r in q;
    assert forall r :: r in p ==> r == p[0] || r in q[1..];
    assert q[0] != Part(s, id) ==> p[1..] == q[1..];
  }

  function Unqueued(s: State, id: nat): State
    requires Ready(s, id)
  {
    s.(queues := s.queues[id := Rest(s, id)])
  }

  lemma UnqueuedInv(s: State, id: nat, X: set<nat>, U: set<nat>)
    requires Inv(s, X, U) && Ready(s, id) && !s.out.writingFrame
    ensures Inv(Unqueued(s, id), X, U)
  {
    hide Registry, Windows, Marked, AllAfterEnd, AllStreamless, Orderly, Rest, Part, Sendable, Request.WellFormed, Weight;
    var t := Unqueued(s, id);
    RestGood(s, id, X);
    RegistryKept(s, t);
    WindowsKept(s, t);
    MarkedKept(s, t, U);
  }

  lemma PoppedInv(s: State, id: nat, X: set<nat>, U: set<nat>)
    requires Inv(s, X, U) && Ready(s, id) && !s.out.writingFrame
    ensures Inv(Popped(s, id), X, U)
  {
    hide Inv, Rest, Part, Sendable, Request.WellFormed;
    UnqueuedInv(s, id, X, U);
    PartAllowed(s, id, X, U);
    PaidInv(Unqueued(s, id), Part(s, id).stream, Part(s, id).Size(), X, U);
  }

  lemma PartAllowed(s: State, id: nat, X: set<nat>, U: set<nat>)
    requires Inv(s, X, U) && Ready(s, id)
    ensures Part(s, id).Size() > 0 ==> Part(s, id).Size() <= Allowed(s, Part(s, id).stream)
  {
    hide Registry, Windows, Marked;
    RestGood(s, id, X);
  }

  /** The frame r is for a stream that has closed: starting it is a panic. */
  ghost predicate OnClosed(s: State, r: Request) {
    r.stream != 0 && r.stream in s.reg.records && s.reg.records[r.stream].phase.Closed?
  }

  /** What is handed out may be written, unless its stream is one of X that has closed. */
  lemma PoppedMayStart(s: State, id: nat, X: set<nat>, U: set<nat>)
    requires Inv(s, X, U) && Ready(s, id) && !s.out.writingFrame
    ensures CanStart(Popped(s, id), Part(s, id)) || OnClosed(Popped(s, id), Part(s, id))
    ensures OnClosed(Popped(s, id), Part(s, id)) ==> !CanStart(Popped(s, id), Part(s, id))
  {
    hide Registry, Windows, Marked, Orderly, Rest, Part, Sendable, Weight, Own, Mute;
    RestGood(s, id, X);
    OwnQueue(s, id, X);
    var r := QueueOf(s, id)[0];
    assert r in QueueOf(s, id);
    PaidPhases(s, Part(s, id).stream, Part(s, id).Size());
  }

  /** The streams of X that are safe hand out nothing that may not be written. */
  lemma PoppedCanStart(s: State, id: nat, X: set<nat>, U: set<nat>)
    requires Inv(s, X, U) && Safe(s, X) && Ready(s, id) && !s.out.writingFrame && !s.away.needToSendGoAway && !Mute(s)
    ensures CanStart(Popped(s, id), Part(s, id))
  {
    hide Registry, Windows, Marked, Orderly, Rest, Part, Sendable, Weight, Harmless, Own, Mute;
    RestGood(s, id, X);
    OwnQueue(s, id, X);
    var r := QueueOf(s, id)[0];
    assert r in QueueOf(s, id);
    if id in X && id in s.reg.records && s.reg.records[id].phase.Closed? && !s.out.writingFrameAsync { HarmlessHead(s, id); }
    PaidPhases(s, Part(s, id).stream, Part(s, id).Size());
  }

  lemma PaidPhases(s: State, id: nat, k: nat)
    requires k > 0 ==> k <= Allowed(s, id)
    ensures Paid(s, id, k).reg.records.Keys == s.reg.records.Keys
    ensures forall j :: j in s.reg.records ==> j in Paid(s, id, k).reg.records && Paid(s, id, k).reg.records[j].phase == s.reg.records[j].phase
  {
  }

  lemma PoppedBelow(s: State, id: nat, X: set<nat>)
    requires Queues(s, X) && Ready(s, id)
    ensures Below(s, Popped(s, id), 1)
  {
    hide Queues, Rest, Part, Sendable, Weight, Total, Registry;
    RestGood(s, id, X);
    TotalUpdate(s.queues, id, Rest(s, id));
    PaidPhases(s, Part(s, id).stream, Part(s, id).Size());
    assert OpenSet(Popped(s, id)) == OpenSet(s);
  }

  // ---- What writing one frame may do

  ghost predicate Closes(s: State, t: State, j: nat) {
    j in t.reg.records && t.reg.records[j].phase.Closed? && !(j in s.reg.records && s.reg.records[j].phase.Closed?)
  }

  /** Writing r touches the phase and the queue of its own stream at most, and none at all if r is a window
      update; a stream that closes loses its queue. */
  ghost predicate Effect(s: State, t: State, r: Request) {
    && Later(s, t)
    && t.win.initialWindowSize == s.win.initialWindowSize && t.win.maxFrameSize == s.win.maxFrameSize && t.win.flow == s.win.flow
    && t.win.connAcct == s.win.connAcct && t.win.refused == s.win.refused
    && (forall j :: j in s.win.acct ==> j in t.win.acct && t.win.acct[j] == s.win.acct[j])
    && (forall j :: j in s.reg.records ==> j in t.reg.records && t.reg.records[j].flow == s.reg.records[j].flow)
    && (forall j :: j in s.reg.records && j in t.reg.records && (j != r.StreamID() || r.write.WindowUpdate? || s.reg.records[j].phase.Closed?) ==>
      t.reg.records[j].phase == s.reg.records[j].phase && QueueOf(t, j) == QueueOf(s, j))
    && (forall j :: j in t.reg.records && Closes(s, t, j) ==> QueueOf(t, j) == [])
  }

  lemma EffectTransitive(s: State, t: State, u: State, r: Request)
    requires Effect(s, t, r) && Effect(t, u, r)
    ensures Effect(s, u, r)
  {
    hide Later, QueueOf;
    LaterTransitive(s, t, u);
    forall j | j in u.reg.records && Closes(s, u, j) ensures QueueOf(u, j) == [] {
      if j in t.reg.records && t.reg.records[j].phase.Closed? {
        assert Closes(s, t, j);
      } else {
        assert Closes(t, u, j);
      }
    }
  }

  /** Only the writing side differs. */
  lemma EffectOfWriting(s: State, t: State, r: Request)
    requires t == s.(out := t.out)
    ensures Effect(s, t, r)
  {
  }

  /** Taking a frame pays for it, and changes no queue but its own. */
  ghost predicate Pays(s: State, t: State) {
    && Later(s, t)
    && t.win.initialWindowSize == s.win.initialWindowSize && t.win.maxFrameSize == s.win.maxFrameSize && t.win.flow <= s.win.flow && t.win.refused == s.win.refused
    && (forall j :: j in s.win.acct ==> j in t.win.acct && t.win.acct[j].base == s.win.acct[j].base && t.win.acct[j].accepted == s.win.acct[j].accepted)
    && t.win.connAcct.accepted == s.win.connAcct.accepted && t.reg.records.Keys == s.reg.records.Keys
    && (forall j :: j in s.reg.records && j in t.reg.records ==> t.reg.records[j].phase == s.reg.records[j].phase && t.reg.records[j].flow <= s.reg.records[j].flow)
  }

  lemma PaidPays(s: State, id: nat, k: nat)
    requires k > 0 ==> k <= Allowed(s, id)
    ensures Pays(s, Paid(s, id, k))
  {
  }

  lemma PoppedPays(s: State, id: nat, X: set<nat>, U: set<nat>)
    requires Inv(s, X, U) && Ready(s, id)
    ensures Pays(s, Popped(s, id)) && forall j :: j != id ==> QueueOf(Popped(s, id), j) == QueueOf(s, j)
  {
    hide Inv, Rest, Part, Sendable, Weight, Calm, Paid, Later;
    PartAllowed(s, id, X, U);
    PaidPays(s, Part(s, id).stream, Part(s, id).Size());
    RequeuedPays(s, Paid(s, Part(s, id).stream, Part(s, id).Size()), Popped(s, id));
  }

  lemma RequeuedPays(s: State, t: State, u: State)
    requires Pays(s, t) && u == t.(queues := u.queues)
    ensures Pays(s, u)
  {
  }

  lemma CalmTurn(s: State, id: nat, t: State, X: set<nat>, j: nat)
    requires Queues(s, X) && Ready(s, id) && !Mute(s) && Calm(s, j) && j > 0 && j in s.reg.records && j in t.reg.records
    requires j != id ==> QueueOf(t, j) == QueueOf(s, j)
    requires Part(s, id).write.WindowUpdate? ==> QueueOf(t, j) == if j == id then Rest(s, id) else QueueOf(s, j)
    requires t.reg.records[j].flow <= s.reg.records[j].flow && t.win.flow <= s.win.flow && t.win.maxFrameSize <= s.win.maxFrameSize
    ensures Calm(t, j) && (j == id ==> Part(s, id).write.WindowUpdate?)
  {
    hide Queues, Orderly, AllAfterEnd, AllStreamless;
    OwnQueue(s, j, X);
    if j == id {
      assert QueueOf(s, j)[0] in QueueOf(s, j);
      assert forall r :: r in QueueOf(s, j)[1..] ==> r in QueueOf(s, j);
    } else {
      CalmKept(s, t, j);
    }
  }

  /** One turn of the scheduling loop that takes a frame from the queue id. */
  lemma TurnScheduled(s: State, id: nat, t: State, X: set<nat>, U: set<nat>)
    requires Inv(s, X, U) && Ready(s, id) && !Mute(s) && Effect(Popped(s, id), t, Part(s, id))
    ensures Scheduled(s, t)
  {
    hide Marked, Writing, Windows, Queues, Orderly, Rest, Part, Sendable, Weight, Calm, Mute, Popped, Later;
    RestGood(s, id, X);
    var p := Popped(s, id);
    PoppedPays(s, id, X, U);
    PoppedQueue(s, id);
    LaterTransitive(s, p, t);
    forall j | j in s.reg.records && Calm(s, j) ensures j in t.reg.records && Calm(t, j) && t.reg.records[j].phase == s.reg.records[j].phase {
      CalmTurn(s, id, t, X, j);
    }
  }

  lemma PoppedQueue(s: State, id: nat)
    requires Ready(s, id) && (Part(s, id).Size() > 0 ==> Part(s, id).Size() <= Allowed(s, Part(s, id).stream))
    ensures QueueOf(Popped(s, id), id) == Rest(s, id)
  {
  }

  /** A turn takes nothing from the queue of a stream of X that has closed, and a stream that closes leaves no queue. */
  lemma TurnSafe(s: State, id: nat, t: State, X: set<nat>, U: set<nat>)
    requires Inv(s, X, U) && Safe(s, X) && Ready(s, id) && !Mute(s) && !s.away.needToSendGoAway && !s.out.writingFrameAsync
    requires Effect(Popped(s, id), t, Part(s, id))
    ensures Safe(t, X)
  {
    hide Marked, Writing, Windows, Queues, Orderly, Rest, Part, Weight, Calm, Mute, Popped, Later, Harmless, Own;
    var p := Popped(s, id);
    RestGood(s, id, X);
    PoppedPays(s, id, X, U);
    PoppedQueue(s, id);
    forall j | j in X && j in t.reg.records && t.reg.records[j].phase.Closed? ensures Harmless(t, j) {
      if j !in s.reg.records || !s.reg.records[j].phase.Closed? {
        assert Closes(p, t, j);
        HarmlessEmpty(t, j);
      } else {
        assert Harmless(s, j);
        OwnQueue(s, j, X);
        if j == id { HarmlessPopped(s, t, j); } else { HarmlessShrunk(s, t, j); }
      }
    }
  }

  /** A queue that is harmless gives up only frames without a stream. */
  lemma HarmlessHead(s: State, id: nat)
    requires Harmless(s, id) && Ready(s, id) && !Mute(s) && !s.away.needToSendGoAway && !s.out.writingFrameAsync
    requires forall r :: r in QueueOf(s, id) ==> r.WellFormed()
    ensures QueueOf(s, id)[0].stream == 0 && Part(s, id) == QueueOf(s, id)[0] && Rest(s, id) == QueueOf(s, id)[1..]
    ensures Own(QueueOf(s, id)) == Own(QueueOf(s, id)[1..])
  {
    assert QueueOf(s, id)[0] in QueueOf(s, id);
  }

  lemma HarmlessPopped(s: State, t: State, id: nat)
    requires Harmless(s, id) && Ready(s, id) && !Mute(s) && !s.away.needToSendGoAway && !s.out.writingFrameAsync
    requires forall r :: r in QueueOf(s, id) ==> (r.stream == 0 || r.stream == id) && r.WellFormed()
    requires QueueOf(t, id) == Rest(s, id)
    requires id in s.reg.records && id in t.reg.records && t.reg.records[id].flow <= s.reg.records[id].flow
    requires t.win.flow <= s.win.flow && t.win.maxFrameSize <= s.win.maxFrameSize
    ensures Harmless(t, id)
  {
    hide Own, Rest, Part;
    HarmlessHead(s, id);
    var q := Own(QueueOf(s, id));
    if q != [] { SendableShrunk(s, t, q[0], id); }
  }

  lemma HarmlessShrunk(s: State, t: State, id: nat)
    requires Harmless(s, id) && !Mute(s) && !s.away.needToSendGoAway && !s.out.writingFrameAsync && QueueOf(t, id) == QueueOf(s, id)
    requires forall r :: r in QueueOf(s, id) ==> (r.stream == 0 || r.stream == id) && r.WellFormed()
    requires id in s.reg.records && id in t.reg.records && t.reg.records[id].flow <= s.reg.records[id].flow
    requires t.win.flow <= s.win.flow && t.win.maxFrameSize <= s.win.maxFrameSize
    ensures Harmless(t, id)
  {
    hide Own;
    var q := Own(QueueOf(s, id));
    if q != [] { SendableShrunk(s, t, q[0], id); }
  }

  /** What is blocked stays blocked when the windows shrink. */
  lemma SendableShrunk(s: State, t: State, r: Request, id: nat)
    requires !Sendable(s, r) && (r.stream == 0 || r.stream == id) && r.WellFormed()
    requires id in s.reg.records && id in t.reg.records && t.reg.records[id].flow <= s.reg.records[id].flow
    requires t.win.flow <= s.win.flow && t.win.maxFrameSize <= s.win.maxFrameSize
    ensures !Sendable(t, r)
  {
  }

  /** A turn of the loop that writes a frame of no stream. */
  lemma PlainTurn(s: State, t: State, r: Request, X: set<nat>, U: set<nat>)
    requires Inv(s, X, U) && Effect(s, t, r) && r.StreamID() == 0
    ensures Scheduled(s, t)
    ensures Safe(s, X) && !s.out.writingFrameAsync && !s.away.needToSendGoAway ==> Safe(t, X)
  {
    hide Marked, Writing, Windows, Queues, Orderly, Calm, Mute, Later, Harmless, Odd, Even, AllStreamless;
    forall j | j in s.reg.records && Calm(s, j) ensures j in t.reg.records && Calm(t, j) && t.reg.records[j].phase == s.reg.records[j].phase {
      OwnQueue(s, j, X);
      LaterMute(s, t);
      CalmKept(s, t, j);
    }
    if Safe(s, X) && !s.out.writingFrameAsync && !s.away.needToSendGoAway {
      forall j | j in X && j in t.reg.records && t.reg.records[j].phase.Closed? ensures Harmless(t, j) {
        LaterMute(s, t);
        if Closes(s, t, j) { HarmlessEmpty(t, j); } else { OwnQueue(s, j, X); HarmlessKept(s, t, j); }
      }
    }
  }

  lemma LaterMute(s: State, t: State)
    requires Later(s, t)
    ensures Mute(s) ==> Mute(t)
  {
  }

  lemma HarmlessEmpty(s: State, id: nat)
    requires QueueOf(s, id) == []
    ensures Harmless(s, id)
  {
  }

  lemma HarmlessKept(s: State, t: State, id: nat)
    requires Harmless(s, id) && !s.out.writingFrameAsync && (s.away.needToSendGoAway ==> t.away.needToSendGoAway) && QueueOf(t, id) == QueueOf(s, id)
    requires id in s.reg.records && id in t.reg.records && t.reg.records[id].flow <= s.reg.records[id].flow
    requires t.win.flow <= s.win.flow && t.win.maxFrameSize <= s.win.maxFrameSize && (Mute(s) ==> Mute(t))
    requires forall r :: r in QueueOf(s, id) ==> (r.stream == 0 || r.stream == id) && r.WellFormed()
    ensures Harmless(t, id)
  {
    hide Own;
    if !Mute(s) && !s.away.needToSendGoAway { HarmlessShrunk(s, t, id); }
  }

  // ---- What the steps do to later states

  lemma OfferLater(s: State, r: Request)
    ensures Later(s, Offer(s, r))
  {
    hide Ignored;
    if r.write.ResHeaders? && r.stream in s.reg.records {
      var m := s.reg.records[r.stream := s.reg.records[r.stream].(wroteHeaders := true)];
      assert m.Keys == s.reg.records.Keys;
      assert Later(s, s.(reg := s.reg.(records := m)));
      assert Noted(s, r) == s.(reg := s.reg.(records := m));
    }
    assert Later(s, Noted(s, r));
  }

  lemma GoneAwayLater(s: State, code: nat)
    ensures Later(s, GoneAway(s, code))
  {
  }

  /** Handing over a window update leaves calm streams calm. */
  lemma UpdateScheduled(s: State, r: Request, X: set<nat>)
    requires Queues(s, X) && r.write.WindowUpdate? && r.WellFormed()
    ensures Scheduled(s, Offer(s, r))
  {
    hide Queues, Later, Ignored, Orderly, AllAfterEnd, AllStreamless;
    OfferLater(s, r);
    var t := Offer(s, r);
    if !Ignored(s, r) {
      forall j | j in s.reg.records && Calm(s, j) ensures Calm(t, j) {
        OwnQueue(s, j, X);
        if j == r.StreamID() {
          assert QueueOf(t, j) == QueueOf(s, j) + [r];
        } else {
          CalmKept(s, t, j);
        }
      }
    } else {
      forall j | j in s.reg.records && Calm(s, j) ensures Calm(t, j) {
      }
    }
  }

  lemma HarmlessAppend(s: State, t: State, id: nat, r: Request)
    requires Harmless(s, id) && r.stream == 0 && QueueOf(t, id) == QueueOf(s, id) + [r]
    requires t.reg.records.Keys == s.reg.records.Keys && forall j :: j in s.reg.records && j in t.reg.records ==> t.reg.records[j].flow == s.reg.records[j].flow
    requires t.win.flow == s.win.flow && t.win.maxFrameSize == s.win.maxFrameSize && Mute(s) == Mute(t)
    requires t.out.writingFrameAsync == s.out.writingFrameAsync && t.away.needToSendGoAway == s.away.needToSendGoAway
    ensures Harmless(t, id)
  {
    hide Own;
    OwnAppend(QueueOf(s, id), r);
    var q := Own(QueueOf(s, id));
    if q != [] { assert Sendable(t, q[0]) == Sendable(s, q[0]); }
  }

  lemma {:induction false} OwnAppend(q: seq<Request>, r: Request)
    requires r.stream == 0
    ensures Own(q + [r]) == if Own(q) == [] then [] else Own(q) + [r]
  {
    if q != [] && q[0].stream == 0 {
      assert (q + [r])[1..] == q[1..] + [r];
      OwnAppend(q[1..], r);
    } else if q == [] {
      assert [r][1..] == [];
    }
  }

  lemma SafeSame(s: State, t: State, X: set<nat>)
    requires Safe(s, X) && SameRegistry(s, t) && SameWindows(s, t) && SameWriting(s, t) && Mute(t) == Mute(s)
    ensures Safe(t, X)
  {
    hide Harmless, Mute;
    forall id | id in X && id in t.reg.records && t.reg.records[id].phase.Closed? ensures Harmless(t, id) {
      HarmlessSame(s, t, id);
    }
  }

  lemma PushedSafe(s: State, r: Request, X: set<nat>)
    requires Registry(s) && Safe(s, X) && r.WellFormed() && !Ignored(s, r)
    ensures Safe(Pushed(s, r), X)
  {
    hide Registry, Harmless, Ignored, Mute, Request.WellFormed;
    var t := Pushed(s, r);
    assert Mute(t) == Mute(s) by { PushedMute(s, r); }
    forall id | id in X && id in t.reg.records && t.reg.records[id].phase.Closed? ensures Harmless(t, id) {
      if r.StreamID() == id {
        ClosedIgnored(s, r);
        HarmlessAppend(s, t, id, r);
      } else {
        HarmlessSame(s, t, id);
      }
    }
  }

  lemma NotedIgnored(s: State, r: Request)
    ensures Ignored(Noted(s, r), r) == Ignored(s, r)
  {
  }

  lemma PushedMute(s: State, r: Request)
    ensures Mute(Pushed(s, r)) == Mute(s)
  {
  }

  /** Handing over a frame keeps the queues of closed streams harmless. */
  lemma OfferSafe(s: State, r: Request, X: set<nat>, U: set<nat>)
    requires Inv(s, X, U) && Safe(s, X) && MayOffer(s, r)
    ensures Safe(Offer(s, r), X)
  {
    hide Inv, Safe, Noted, Registry, Pushed;
    NotedSame(s, r);
    NotedIgnored(s, r);
    SafeSame(s, Noted(s, r), X);
    if !Ignored(s, r) {
      SameInv(s, Noted(s, r), X, U);
      InvParts(Noted(s, r), X, U);
      PushedSafe(Noted(s, r), r, X);
    }
  }

  lemma ClosedIgnored(s: State, r: Request)
    requires Registry(s) && r.WellFormed() && !Ignored(s, r) && r.StreamID() in s.reg.records && s.reg.records[r.StreamID()].phase.Closed?
    ensures r.stream == 0
  {
    hide Odd, Even;
  }

  lemma HarmlessSame(s: State, t: State, id: nat)
    requires Harmless(s, id) && QueueOf(t, id) == QueueOf(s, id)
    requires t.reg.records.Keys == s.reg.records.Keys && forall j :: j in s.reg.records && j in t.reg.records ==> t.reg.records[j].flow == s.reg.records[j].flow
    requires t.win.flow == s.win.flow && t.win.maxFrameSize == s.win.maxFrameSize && Mute(s) == Mute(t)
    requires t.out.writingFrameAsync == s.out.writingFrameAsync && t.away.needToSendGoAway == s.away.needToSendGoAway
    ensures Harmless(t, id)
  {
    hide Own;
    var q := Own(QueueOf(s, id));
    if q != [] { assert Sendable(t, q[0]) == Sendable(s, q[0]); }
  }

  // ---- The flags of the scheduling loop

  /** Only the flags that the loop itself sets and clears differ. */
  ghost predicate LoopFlags(s: State, t: State) {
    && t == s.(away := t.away, out := t.out) && t.away == s.away.(needToSendGoAway := t.away.needToSendGoAway)
    && t.out == s.out.(needsFrameFlush := t.out.needsFrameFlush, inFrameScheduleLoop := t.out.inFrameScheduleLoop,
      needToSendSettingsAck := t.out.needToSendSettingsAck)
  }

  lemma FlagsScheduled(s: State, t: State)
    requires LoopFlags(s, t)
    ensures Scheduled(s, t)
  {
  }

  /** The flags of the loop itself matter to no invariant, and clearing the wish to send a GOAWAY harms none. */
  lemma FlagsChange(s: State, t: State, X: set<nat>, U: set<nat>)
    requires Inv(s, X, U) && (t.away.needToSendGoAway ==> s.away.needToSendGoAway)
    requires LoopFlags(s, t)
    ensures Inv(t, X, U) && Scheduled(s, t)
    ensures Safe(s, X) && t.away.needToSendGoAway == s.away.needToSendGoAway ==> Safe(t, X)
    ensures Settled(s) && t == s.(out := s.out.(inFrameScheduleLoop := t.out.inFrameScheduleLoop)) ==> Settled(t)
  {
    hide Queues, Registry, Windows, Marked, Scheduled, Harmless, Settled;
    if Settled(s) && t == s.(out := s.out.(inFrameScheduleLoop := t.out.inFrameScheduleLoop)) {
      SettledSame(s, t);
    }
    FlagsScheduled(s, t);
    RegistryKept(s, t);
    WindowsKept(s, t);
    QueuesSame(s, t, X);
    MarkedKept(s, t, U);
    if Safe(s, X) && t.away.needToSendGoAway == s.away.needToSendGoAway {
      forall id | id in X && id in t.reg.records && t.reg.records[id].phase.Closed? ensures Harmless(t, id) {
        HarmlessSame(s, t, id);
      }
    }
  }

  /** Control frames may always be written. */
  lemma PlainStart(s: State, r: Request)
    requires r.stream == 0 && (r.write.GoAway? || r.write.SettingsAck? || r.write.Flush?)
    ensures CanStart(s, r)
  {
  }

  /** A turn that clears one of the loop's flags and writes the frame it asks for. */
  lemma ClearedTurn(s: State, u: State, t: State, r: Request, X: set<nat>, U: set<nat>)
    requires Inv(s, X, U) && Inv(u, X, U) && Effect(u, t, r) && r.StreamID() == 0 && (u.away.needToSendGoAway ==> s.away.needToSendGoAway)
    requires u == s.(away := u.away, out := u.out) && u.away == s.away.(needToSendGoAway := u.away.needToSendGoAway) && u.out == s.out.(needToSendSettingsAck := u.out.needToSendSettingsAck)
    requires t.out.writingFrameAsync || !s.away.needToSendGoAway
    requires !s.out.writingFrameAsync
    ensures Scheduled(s, t) && (Safe(s, X) ==> Safe(t, X))
  {
    hide Inv, Effect, Scheduled, Harmless;
    FlagsChange(s, u, X, U);
    PlainTurn(u, t, r, X, U);
    ScheduledTransitive(s, u, t);
    if t.out.writingFrameAsync {
      forall id | id in X && id in t.reg.records && t.reg.records[id].phase.Closed? ensures Harmless(t, id) {
        AsyncHarmless(t, id);
      }
    }
  }

  lemma AsyncHarmless(s: State, id: nat)
    requires s.out.writingFrameAsync
    ensures Harmless(s, id)
  {
  }

  lemma ScheduledLater(s: State, t: State)
    requires Scheduled(s, t)
    ensures Later(s, t)
  {
  }

  lemma ScheduledKeys(s: State, t: State)
    requires Scheduled(s, t)
    ensures s.reg.records.Keys <= t.reg.records.Keys
  {
  }

  // ---- Finishing a frame

  lemma FinishedEffect(s: State, r: Request)
    ensures Effect(s, Finished(s), r) && Below(s, Finished(s), 0)
  {
    hide Later, Total;
    EffectOfWriting(s, Finished(s), r);
    assert OpenSet(Finished(s)) == OpenSet(s);
  }

  /** Having written wr closes its stream. */
  ghost predicate EndCloses(s: State, wr: Request) {
    var id := wr.StreamID();
    id in s.reg.streams && id in s.reg.records &&
    (wr.write.StreamError? || wr.write.HandlerPanicRST? || (wr.Ends() && s.reg.records[id].phase.HalfClosedRemote?))
  }

  /** Closing the stream id, of whose body unread bytes are left, returns window to the connection while frames
      of the stream are queued that would be sent. */
  ghost predicate ClosePanics(s: State, id: nat, unread: nat) {
    id in s.reg.records && s.reg.records[id].hasBody && unread > 0 && !Harmless(s, id)
  }

  /** Finishing wr can end in a panic: the stream that a handler's panic should reset has closed already, or
      closing the stream can. */
  ghost predicate EndPanics(s: State, wr: Request, unread: nat) {
    || (wr.write.HandlerPanicRST? && wr.StreamID() !in s.reg.streams)
    || (EndCloses(s, wr) && ClosePanics(s, wr.StreamID(), unread))
  }

  /** wr has just been written. */
  ghost predicate Written(s: State, wr: Request) {
    var id := wr.StreamID();
    && s.reg.streams <= s.reg.records.Keys
    && (wr.write.StreamError? || wr.write.HandlerPanicRST? || wr.Ends() ==> id > 0 && !wr.write.WindowUpdate?)
    && (wr.Ends() ==> id in s.reg.records && !s.reg.records[id].phase.HalfClosedLocal? && AllAfterEnd(QueueOf(s, id)))
    && (wr.Ends() ==> (id in s.reg.streams <==> !s.reg.records[id].phase.Closed?))
  }

  /** The queue of st may have grown; nothing else has changed. */
  ghost predicate Grown(s: State, t: State, st: nat) {
    t == s.(queues := t.queues) && forall j :: j != st ==> QueueOf(t, j) == QueueOf(s, j)
  }

  /** The stream id has been closed while the scheduling loop or a writer was busy. */
  ghost predicate Shut(s: State, t: State, id: nat)
    requires id in s.reg.records
  {
    && t == Unlisted(s, id).(queues := t.queues, away := t.away)
    && (s.away.inGoAway ==> t.away.inGoAway && t.away.goAwayCode == s.away.goAwayCode)
    && (forall j :: j > 0 ==> QueueOf(t, j) == if j == id then [] else QueueOf(s, j))
  }

  /** What is known of a frame that has just been written. */
  lemma WrittenFacts(s: State, wr: Request, X: set<nat>, U: set<nat>)
    requires Inv(s, X, U) && s.out.inFlight == Some(wr)
    ensures Written(Finished(s), wr)
  {
    hide Windows, Marked, Queues, Odd, Even;
  }

  lemma WithPhaseLater(s: State, id: nat, phase: Phase)
    requires id in s.reg.records && (s.reg.records[id].phase.Closed? ==> phase.Closed?)
    ensures Later(s, WithPhase(s, id, phase))
  {
    assert WithPhase(s, id, phase).reg.records.Keys == s.reg.records.Keys;
  }

  lemma ResetLater(s: State, id: nat, X: set<nat>)
    ensures Later(s, Reset(s, id))
    ensures Settled(s) ==> Settled(Reset(s, id))
    ensures Safe(s, X) ==> Safe(Reset(s, id), X)
  {
    var t := Reset(s, id);
    if id in s.reg.streams && id in s.reg.records {
      ResetSame(s, id);
      if Safe(s, X) { SafeSame(s, t, X); }
      if Settled(s) { SettledSame(s, t); }
    }
  }

  lemma ResetSame(s: State, id: nat)
    requires id in s.reg.streams && id in s.reg.records
    ensures var t := Reset(s, id); SameRegistry(s, t) && SameWindows(s, t) && SameMarks(s, t) && SameWriting(s, t) && Mute(t) == Mute(s)
    ensures Later(s, Reset(s, id))
  {
    assert Reset(s, id).reg.records.Keys == s.reg.records.Keys;
  }

  /** Whether anything is left to write depends on the flags, the queues and the windows. */
  lemma SettledSame(s: State, t: State)
    requires Settled(s) && t.reg.records.Keys == s.reg.records.Keys && t.win.flow == s.win.flow && t.win.maxFrameSize == s.win.maxFrameSize
    requires t.out.writingFrameAsync == s.out.writingFrameAsync && t.away.needToSendGoAway == s.away.needToSendGoAway && Mute(t) == Mute(s)
    requires t.out.needToSendSettingsAck == s.out.needToSendSettingsAck && t.out.needsFrameFlush == s.out.needsFrameFlush
    requires forall j :: j in t.queues ==> j in s.queues && t.queues[j] == s.queues[j]
    requires forall j :: j in s.reg.records && j in t.reg.records ==> t.reg.records[j].flow == s.reg.records[j].flow
    ensures Settled(t)
  {
    forall j | j in t.queues && Ready(t, j) ensures Ready(s, j) {
    }
  }

  lemma UnlistedSettled(s: State, id: nat)
    requires id in s.reg.records
    ensures Settled(s) ==> Settled(Unlisted(s, id))
  {
    hide Settled;
    assert Unlisted(s, id).reg.records.Keys == s.reg.records.Keys;
    if Settled(s) { SettledSame(s, Unlisted(s, id)); }
  }

  lemma DroppedSettled(s: State, id: nat)
    ensures Settled(s) ==> Settled(Dropped(s, id))
  {
    hide Settled;
    if Settled(s) { SettledSame(s, Dropped(s, id)); }
  }

  lemma StartFacts(s: State, r: Request)
    ensures CanStart(s, r) ==> !OnClosed(s, r) && r.WellFormed()
    ensures OnClosed(s, r) <==> r.stream != 0 && r.stream in s.reg.records && s.reg.records[r.stream].phase.Closed?
  {
  }

  lemma StartedOpen(s: State, r: Request, X: set<nat>, U: set<nat>)
    requires Inv(s, X, U) && CanStart(s, r)
    ensures r.write.HandlerPanicRST? ==> r.stream in s.reg.streams
  {
    hide Windows, Marked, Queues, Odd, Even;
  }

  /** Ending the stream on our side while the loop is running: its reset is queued and no more. */
  lemma HalfEffect(s: State, id: nat, wr: Request, X: set<nat>, U: set<nat>)
    requires Inv(s, X, U) && id in s.reg.streams && id in s.reg.records && s.reg.records[id].phase.Open? && wr.StreamID() == id && wr.Ends()
    ensures var t := Reset(Offer(WithPhase(s, id, HalfClosedLocal), Request(StreamError(id), 0)), id);
      Effect(s, t, wr) && Below(s, t, 0)
  {
    hide Inv, Registry, Below, Total;
    var h := WithPhase(s, id, HalfClosedLocal);
    var e := Request(StreamError(id), 0);
    var t := Reset(Pushed(h, e), id);
    assert !Ignored(h, e);
    var x := s.reg.records[id].(phase := HalfClosedLocal, resetQueued := true);
    assert t.reg.records == s.reg.records[id := x];
    HalfOpen(s, t, id, x);
  }

  lemma HalfOpen(s: State, t: State, id: nat, x: Stream)
    requires id in s.reg.streams && id in s.reg.records && s.reg.records[id].phase.Open? && !x.phase.Open?
    requires t.reg.streams == s.reg.streams && t.reg.records == s.reg.records[id := x]
    ensures Below(s, t, 0)
  {
    assert OpenSet(t) == OpenSet(s) - {id} && id in OpenSet(s);
  }

  lemma ShutEffect(s: State, t: State, id: nat, wr: Request, X: set<nat>, U: set<nat>)
    requires Inv(s, X, U) && id in s.reg.streams && id in s.reg.records && Shut(s, t, id) && wr.StreamID() == id && !wr.write.WindowUpdate?
    ensures Effect(s, t, wr) && Below(s, t, 0)
  {
    hide Windows, Marked, Queues, Odd, Even, Total, Orderly, OpenSet;
    assert Unlisted(s, id).reg.records.Keys == s.reg.records.Keys;
  }

  // ---- Promising a stream

  lemma PushUnmade(s: State, wr: Request)
    ensures Effect(s, s, wr) && Below(s, s, 0)
  {
  }

  lemma PushUnmadeAway(s: State, wr: Request)
    requires CanStart(s, wr)
    ensures var t := GoneAway(s, 0); Effect(s, t, wr) && Below(s, t, 0) && CanStart(t, wr)
  {
    hide Total;
    assert OpenSet(GoneAway(s, 0)) == OpenSet(s);
  }

  lemma PushMade(s: State, wr: Request, X: set<nat>, U: set<nat>)
    requires Inv(s, X, U) && CanStart(s, wr) && s.reg.maxPushPromiseID + 2 < 0x8000_0000
    ensures var id := s.reg.maxPushPromiseID + 2; var t := Made(s, id, HalfClosedRemote, false);
      id !in s.reg.records && Inv(t, X, U) && Effect(s, t, wr) && CanStart(t, wr)
  {
    hide Inv, Windows, Marked, Queues, Odd, Even, Total, Orderly, AllAfterEnd, Effect;
    var id := s.reg.maxPushPromiseID + 2;
    InvParts(s, X, U);
    MadeInv(s, id, HalfClosedRemote, false, X, U);
    MadeEffect(s, id, wr, X);
  }

  lemma MadeEffect(s: State, id: nat, wr: Request, X: set<nat>)
    requires Fresh(s, id) && id !in s.reg.records && Windows(s)
    ensures Effect(s, Made(s, id, HalfClosedRemote, false), wr)
  {
    hide Later;
    WindowKeys(s);
    PushedLater(s, id);
  }

  lemma PushedLater(s: State, id: nat)
    requires Fresh(s, id) && id !in s.reg.records && Windows(s)
    ensures Later(s, Made(s, id, HalfClosedRemote, false))
  {
    WindowKeys(s);
  }

  lemma WindowKeys(s: State)
    requires Windows(s)
    ensures s.win.acct.Keys == s.reg.records.Keys && s.win.initialWindowSize >= 0
  {
  }

  lemma FirstWindow(n: Int32)
    requires n >= 0
    ensures Grow(0, n) == n
  {
  }

  lemma OfferFlags(s: State, r: Request)
    ensures var t := Offer(s, r);
      && t.out.writingFrame == s.out.writingFrame && t.out.inFrameScheduleLoop == s.out.inFrameScheduleLoop && t.out.writingFrameAsync == s.out.writingFrameAsync
      && (t.reg.records.Keys == s.reg.records.Keys)
  {
    hide Ignored, Noted;
    NotedSame(s, r);
  }

  lemma OfferGrown(s: State, r: Request)
    requires r.write.WindowUpdate?
    ensures Grown(s, Offer(s, r), r.stream)
  {
    hide Ignored;
  }

  lemma AllowedBounds(s: State, id: nat)
    requires Allowed(s, id) > 0
    ensures id in s.reg.records && Allowed(s, id) <= s.win.flow && Allowed(s, id) <= s.reg.records[id].flow
  {
  }

  lemma BegunBelow(s: State, r: Request, async: bool)
    ensures Below(s, Begun(s, r, async), 0)
  {
    hide Total;
    assert OpenSet(Begun(s, r, async)) == OpenSet(s);
  }

  lemma AsyncSettled(s: State, X: set<nat>)
    requires s.out.writingFrameAsync
    ensures Settled(s) && Safe(s, X)
  {
    hide Pending;
  }

  lemma LaterReflexive(s: State)
    ensures Later(s, s)
  {
  }

  /** What sending window updates does: the stream st may be owed some, and everything queued may be sent. */
  ghost predicate Updated(s: State, t: State, st: nat, X: set<nat>) {
    && Scheduled(s, t)
    && (Busy(s) ==> Grown(s, t, st))
    && (s.out.inFrameScheduleLoop || AtRest(s))
    && (s.out.inFrameScheduleLoop ==> t.out.inFrameScheduleLoop)
    && (AtRest(s) ==> AtRest(t) && (Safe(s, X) ==> Safe(t, X)) && (Settled(s) ==> Settled(t)))
    && (st == 0 || st in t.reg.records)
  }

  lemma UpdatedReflexive(s: State, st: nat, X: set<nat>)
    requires (s.out.inFrameScheduleLoop || AtRest(s)) && (st == 0 || st in s.reg.records)
    ensures Updated(s, s, st, X)
  {
    hide Safe, Settled, Scheduled;
    ScheduledReflexive(s);
  }

  lemma UpdatedTransitive(s: State, t: State, u: State, st: nat, X: set<nat>)
    requires Updated(s, t, st, X) && Updated(t, u, st, X)
    ensures Updated(s, u, st, X)
  {
    hide Safe, Settled, Scheduled;
    ScheduledTransitive(s, t, u);
  }

  lemma UpdatedMaySchedule(s: State, t: State, st: nat, X: set<nat>)
    requires Updated(s, t, st, X)
    ensures (t.out.inFrameScheduleLoop || AtRest(t)) && (st == 0 || st in t.reg.records)
    ensures AtRest(s) ==> AtRest(t) && (Safe(s, X) ==> Safe(t, X))
    ensures s.out.inFrameScheduleLoop ==> t.out.inFrameScheduleLoop
  {
    hide Safe, Settled, Scheduled;
  }

  lemma UpdatedMade(s: State, t: State, st: nat, X: set<nat>)
    requires Scheduled(s, t) && (Busy(s) ==> Grown(s, t, st))
    requires s.out.inFrameScheduleLoop || AtRest(s)
    requires AtRest(s) ==> AtRest(t) && (Safe(s, X) ==> Safe(t, X)) && Settled(t)
    requires st == 0 || st in s.reg.records
    ensures Updated(s, t, st, X)
  {
    hide Safe, Settled, Scheduled;
    ScheduledKeys(s, t);
  }

  lemma UpdatedMeans(s: State, t: State, st: nat, X: set<nat>)
    requires Updated(s, t, st, X)
    ensures Scheduled(s, t) && (Busy(s) ==> Grown(s, t, st))
    ensures AtRest(s) ==> AtRest(t) && (Safe(s, X) ==> Safe(t, X)) && (Settled(s) ==> Settled(t))
  {
  }

  lemma SafeNone(s: State)
    ensures Safe(s, {})
  {
  }

  lemma EffectLater(s: State, t: State, r: Request)
    requires Effect(s, t, r)
    ensures Later(s, t)
  {
  }

  lemma BelowTransitive(s: State, t: State, u: State, drop: nat)
    requires Below(s, t, 0) && Below(t, u, drop)
    ensures Below(s, u, drop)
  {
    hide OpenSet, Total, AckPending;
  }

  lemma BelowTransitiveDrop(s: State, t: State, u: State)
    requires Below(s, t, 1) && Below(t, u, 0)
    ensures Below(s, u, 1)
  {
    hide OpenSet, Total, AckPending;
  }

  /** The loop is at the start of a turn. */
  ghost predicate AtTurn(s: State) {
    s.out.inFrameScheduleLoop && !s.out.writingFrame && !s.out.writingFrameAsync
  }

  /** u is s after the loop has cleared the flag that asks for the control frame wr. */
  ghost predicate ClearedBy(s: State, u: State, wr: Request) {
    if wr.write.GoAway? then u == s.(away := s.away.(needToSendGoAway := false))
    else if wr.write.SettingsAck? then !s.away.needToSendGoAway && s.out.needToSendSettingsAck && u == s.(out := s.out.(needToSendSettingsAck := false))
    else !s.away.needToSendGoAway && u == s
  }

  lemma ClearedFlags(s: State, u: State, wr: Request)
    requires ClearedBy(s, u, wr)
    ensures LoopFlags(s, u) && (u.away.needToSendGoAway ==> s.away.needToSendGoAway)
    ensures u == s.(away := u.away, out := u.out) && u.away == s.away.(needToSendGoAway := u.away.needToSendGoAway) && u.out == s.out.(needToSendSettingsAck := u.out.needToSendSettingsAck)
  {
  }

  /** An acknowledgement owed is one less. */
  lemma AckBelow(s: State, u: State, t: State)
    requires s.out.needToSendSettingsAck && u == s.(out := s.out.(needToSendSettingsAck := false)) && Below(u, t, 0)
    ensures Below(s, t, 1)
  {
    hide Total;
    assert OpenSet(u) == OpenSet(s);
  }

  lemma NothingWritten(s: State, wr: Request)
    ensures Effect(s, s, wr) && Below(s, s, 0) && Later(s, s)
  {
    hide OpenSet, Total;
  }

  /** Closing a stream whose queue is harmless leaves it harmless. */
  lemma UnlistedSafe(s: State, id: nat, X: set<nat>)
    requires id in s.reg.records
    ensures X == {} && Harmless(s, id) ==> Safe(Unlisted(s, id), X + {id})
  {
    hide Harmless;
    var t := Unlisted(s, id);
    assert t.reg.records.Keys == s.reg.records.Keys && Mute(t) == Mute(s);
    if X == {} && Harmless(s, id) { HarmlessSame(s, t, id); }
  }

  lemma CloseFacts(s: State, id: nat, X: set<nat>, U: set<nat>)
    requires Inv(s, X, U) && id in s.reg.streams && id in s.reg.records
    ensures Inv(Unlisted(s, id), X + {id}, U)
    ensures if id % 2 == 0 then s.reg.curPushedStreams > 0 else s.reg.curClientStreams > 0
    ensures Settled(s) ==> Settled(Unlisted(s, id))
    ensures X == {} && Harmless(s, id) ==> Safe(Unlisted(s, id), X + {id})
    ensures Unlisted(s, id).out == s.out && Unlisted(s, id).away == s.away
  {
    hide Inv, Settled, Harmless, Safe;
    InvParts(s, X, U);
    UnlistedInv(s, id, X, U);
    UnlistedRegistry(s, id);
    UnlistedSettled(s, id);
    UnlistedSafe(s, id, X);
  }

  lemma UpdatedNone(s: State, X: set<nat>)
    ensures s.out.inFrameScheduleLoop || AtRest(s) ==> Updated(s, s, 0, X)
    ensures Grown(s, s, 0) && Scheduled(s, s)
  {
    hide Safe, Scheduled, Updated;
    ScheduledReflexive(s);
    if s.out.inFrameScheduleLoop || AtRest(s) { UpdatedReflexive(s, 0, X); }
  }

  /** The end of closing the stream id, from v after it left the registry to w before its queue is dropped. */
  lemma CloseEnds(s: State, id: nat, v: State, w: State, X: set<nat>)
    requires id in s.reg.records && Later(Unlisted(s, id), v) && (w == v || Updated(v, w, 0, X))
    requires Busy(s) ==> v == Unlisted(s, id) || v == GoneAway(Unlisted(s, id), 0)
    requires AtRest(s) ==> AtRest(v) && (Settled(s) ==> Settled(v))
    ensures Later(s, Dropped(w, id))
    ensures id in w.reg.records && w.reg.records[id].phase.Closed?
    ensures Busy(s) ==> Shut(s, Dropped(w, id), id)
    ensures AtRest(s) ==> AtRest(Dropped(w, id)) && (Settled(s) ==> Settled(Dropped(w, id)))
  {
    hide Later, Scheduled, Settled, Safe, Shut;
    UpdatedNone(v, X);
    if w != v { UpdatedMeans(v, w, 0, X); }
    ClosedStays(Unlisted(s, id), v, id);
    ScheduledLater(v, w);
    ClosedStays(v, w, id);
    CloseLater(s, id, v, w);
    if Busy(s) { ShutChain(s, id, v, w); }
    DroppedSettled(w, id);
  }

  lemma CloseLater(s: State, id: nat, v: State, w: State)
    requires id in s.reg.records && Later(Unlisted(s, id), v) && Scheduled(v, w)
    ensures Later(s, Dropped(w, id))
  {
    hide Later;
    assert Later(s, Unlisted(s, id)) by { UnlistedLater(s, id); }
    ScheduledLater(v, w);
    LaterTransitive(s, Unlisted(s, id), v);
    LaterTransitive(s, v, w);
    DroppedLater(w, id);
    LaterTransitive(s, w, Dropped(w, id));
  }

  lemma UnlistedLater(s: State, id: nat)
    requires id in s.reg.records
    ensures Later(s, Unlisted(s, id))
  {
    assert Unlisted(s, id).reg.records.Keys == s.reg.records.Keys;
  }

  lemma DroppedLater(s: State, id: nat)
    ensures Later(s, Dropped(s, id))
  {
  }

  /** Closing while busy: the three parts together. */
  lemma ShutChain(s: State, id: nat, v: State, w: State)
    requires id in s.reg.records && (v == Unlisted(s, id) || v == GoneAway(Unlisted(s, id), 0)) && Grown(v, w, 0)
    ensures Shut(s, Dropped(w, id), id)
  {
    forall j | j > 0 ensures QueueOf(Dropped(w, id), j) == if j == id then [] else QueueOf(s, j) {
      assert QueueOf(w, j) == QueueOf(v, j);
    }
  }

  // ---- What the client does to the windows

  function Granted(s: State, id: nat, k: nat): State
    requires id in s.reg.records && id in s.win.acct
  {
    s.(reg := s.reg.(records := s.reg.records[id := s.reg.records[id].(flow := Wrap32(s.reg.records[id].flow + k))]),
       win := s.win.(acct := s.win.acct[id := s.win.acct[id].(accepted := s.win.acct[id].accepted + k)]))
  }

  function ConnGranted(s: State, k: nat): State
    requires 0 <= s.win.flow + k <= MAX_INT32
  {
    s.(win := s.win.(flow := s.win.flow + k, connAcct := s.win.connAcct.(accepted := s.win.connAcct.accepted + k)))
  }

  /** A window with a history accepts a window update, or a new initial size, if and only if it is not
      negative and the sum is within the limit; the sum is then exact. */
  lemma ReachableAccepts(n: Int32, a: Account, k: Int32)
    requires Explained(n, a) && (k > 0 || a.base + k >= 0)
    ensures Accepts(n, k) <==> 0 <= n && n + k <= MAX_INT32
    ensures Accepts(n, k) ==> Wrap32(n + k) == n + k
  {
  }

  lemma StreamAdds(s: State, id: nat, k: Int32)
    requires Inv(s, {}, {}) && id in s.reg.records && k > 0
    ensures id in s.win.acct
    ensures !s.win.refused ==>
      (Accepts(s.reg.records[id].flow, k) <==> 0 <= s.reg.records[id].flow && s.reg.records[id].flow + k <= MAX_INT32)
    ensures Accepts(s.reg.records[id].flow, k) ==> Inv(Granted(s, id, k), {}, {}) && Later(s, Granted(s, id, k))
  {
    hide Inv, Registry, Queues, Windows, Accepts, Writing, Marked, Wrap32, Explained, Later;
    InvParts(s, {}, {});
    WindowKeys(s);
    GrantedWindow(s, id, k);
    if Accepts(s.reg.records[id].flow, k) {
      var t := Granted(s, id, k);
      assert t.reg.records.Keys == s.reg.records.Keys;
      RegistryKept(s, t);
      QueuesKept(s, t, {});
      WritingKept(s, t);
      MarkedKept(s, t, {});
      InvWhole(t, {}, {});
    }
  }

  lemma GrantedWindow(s: State, id: nat, k: Int32)
    requires Windows(s) && id in s.reg.records && k > 0
    ensures id in s.win.acct
    ensures !s.win.refused ==>
      (Accepts(s.reg.records[id].flow, k) <==> 0 <= s.reg.records[id].flow && s.reg.records[id].flow + k <= MAX_INT32)
    ensures Accepts(s.reg.records[id].flow, k) ==> Windows(Granted(s, id, k)) && Later(s, Granted(s, id, k))
  {
    hide Accepts, Wrap32, Explained;
    var n, a := s.reg.records[id].flow, s.win.acct[id];
    if !s.win.refused { GrantExplained(n, a, k); }
    if Accepts(n, k) {
      assert Granted(s, id, k).reg.records.Keys == s.reg.records.Keys;
    }
  }

  lemma GrantExplained(n: Int32, a: Account, k: Int32)
    requires Explained(n, a) && k > 0
    ensures Accepts(n, k) <==> 0 <= n && n + k <= MAX_INT32
    ensures Accepts(n, k) ==> Explained(Wrap32(n + k), a.(accepted := a.accepted + k))
  {
    ReachableAccepts(n, a, k);
  }

  lemma ConnAdds(s: State, k: Int32)
    requires Inv(s, {}, {}) && k > 0
    ensures Accepts(s.win.flow, k) <==> s.win.flow + k <= MAX_INT32
    ensures Accepts(s.win.flow, k) ==>
      && 0 <= s.win.flow && Wrap32(s.win.flow + k) == s.win.flow + k
      && Inv(ConnGranted(s, k), {}, {}) && Later(s, ConnGranted(s, k))
  {
    hide Registry, Queues, Writing, Marked;
    if Accepts(s.win.flow, k) {
      var t := ConnGranted(s, k);
      RegistryKept(s, t);
      QueuesKept(s, t, {});
      WritingKept(s, t);
      MarkedKept(s, t, {});
    }
  }

  lemma RegisteredNotIdle(s: State, id: nat)
    requires Registry(s)
    ensures id in s.reg.streams ==> id in s.reg.records && !PhaseOf(s, id).Idle? && !PhaseOf(s, id).Closed? && PhaseOf(s, id) == s.reg.records[id].phase
  {
    hide Odd, Even;
  }

  lemma MoreExempt(s: State, U: set<nat>)
    requires Inv(s, {}, {})
    ensures Inv(s, {}, U)
  {
    hide Registry, Windows, Queues, Writing;
  }

  lemma SettledHarmless(s: State, id: nat)
    requires Settled(s) && Queues(s, {})
    ensures Harmless(s, id)
  {
    OwnQueue(s, id, {});
    if QueueOf(s, id) != [] { assert QueueOf(s, id)[0] in QueueOf(s, id); }
  }

  lemma FrameSizeInv(s: State, n: Int32)
    requires Inv(s, {}, {}) && n > 0
    ensures var t := s.(win := s.win.(maxFrameSize := n)); Inv(t, {}, {}) && Later(s, t)
  {
    hide Registry, Queues, Writing, Marked;
    var t := s.(win := s.win.(maxFrameSize := n));
    RegistryKept(s, t);
    QueuesKept(s, t, {});
    WritingKept(s, t);
    MarkedKept(s, t, {});
  }

  /** The state t is s on the way to a new initial window size: the streams of todo still have theirs. */
  ghost predicate Resizing(s: State, t: State, todo: set<nat>, val: Int32) {
    && t == s.(reg := s.reg.(records := t.reg.records), win := s.win.(acct := t.win.acct, initialWindowSize := val))
    && t.reg.records.Keys == s.reg.records.Keys && t.win.acct.Keys == s.win.acct.Keys
    && (forall id :: id in s.reg.records && id in t.reg.records ==>
      t.reg.records[id] == if id in s.reg.streams && id !in todo then Resized(s.reg.records[id], Growth(s, val)) else s.reg.records[id])
    && (forall id :: id in s.win.acct && id in t.win.acct ==>
      t.win.acct[id] == if id in s.reg.streams && id !in todo then s.win.acct[id].(base := val) else s.win.acct[id])
    && forall id :: id in s.reg.streams && id in s.reg.records && id !in todo ==> Accepts(s.reg.records[id].flow, Growth(s, val))
  }

  function Growth(s: State, val: Int32): Int32 {
    Wrap32(val - s.win.initialWindowSize)
  }

  lemma GrowthIs(s: State, val: Int32)
    ensures Growth(s, val) == Wrap32(val - s.win.initialWindowSize)
  {
  }

  function Resized(st: Stream, k: Int32): Stream {
    st.(flow := Wrap32(st.flow + k))
  }

  /** The window of the stream id has been moved by growth, to the new initial size val. */
  function Moved(t: State, id: nat, growth: Int32, val: Int32): State
    requires id in t.reg.records && id in t.win.acct
  {
    t.(reg := t.reg.(records := t.reg.records[id := Resized(t.reg.records[id], growth)]),
       win := t.win.(acct := t.win.acct[id := t.win.acct[id].(base := val)]))
  }

  lemma ResizingBegins(s: State, val: Int32)
    requires s.reg.streams <= s.reg.records.Keys
    ensures Resizing(s, s.(win := s.win.(initialWindowSize := val)), s.reg.streams, val)
  {
    hide Accepts, Wrap32;
  }

  lemma ResizingStep(s: State, t: State, todo: set<nat>, val: Int32, id: nat)
    requires Resizing(s, t, todo, val) && id in todo && todo <= s.reg.streams && s.win.acct.Keys == s.reg.records.Keys && s.reg.streams <= s.reg.records.Keys
    ensures id in t.reg.records && id in t.win.acct && t.reg.records[id] == s.reg.records[id]
    ensures Accepts(s.reg.records[id].flow, Growth(s, val)) ==>
      Resizing(s, Moved(t, id, Growth(s, val), val), todo - {id}, val)
  {
    hide Accepts, Growth, Wrap32, Resized;
  }

  lemma ResizingFlags(s: State, t: State, todo: set<nat>, val: Int32)
    requires Resizing(s, t, todo, val)
    ensures t.out == s.out && t.away == s.away && t.reg.streams == s.reg.streams && t.win.refused == s.win.refused
    ensures t.reg.records.Keys == s.reg.records.Keys && t.win.acct.Keys == s.win.acct.Keys
    ensures Growth(s, val) == Wrap32(val - s.win.initialWindowSize)
  {
    hide Accepts, Resized, Wrap32;
  }

  lemma ResizedWindow(s: State, val: Int32, id: nat)
    requires Windows(s) && id in s.reg.streams && id in s.reg.records && !s.win.refused && val >= 0
    ensures Accepts(s.reg.records[id].flow, Growth(s, val)) <==>
      0 <= s.reg.records[id].flow && s.reg.records[id].flow + (val - s.win.initialWindowSize) <= MAX_INT32
    ensures Accepts(s.reg.records[id].flow, Growth(s, val)) ==>
      && Resized(s.reg.records[id], Growth(s, val)).flow == s.reg.records[id].flow + (val - s.win.initialWindowSize)
      && Explained(Resized(s.reg.records[id], Growth(s, val)).flow, s.win.acct[id].(base := val))
  {
    ReachableAccepts(s.reg.records[id].flow, s.win.acct[id], Growth(s, val));
  }

  /** Whether it stops half way (todo is not empty, and the change counts as refused) or not, a change of
      the initial window size keeps the invariants. */
  lemma ResizingEnds(s: State, t: State, todo: set<nat>, val: Int32, refused: bool)
    requires Resizing(s, t, todo, val) && Inv(s, {}, {}) && val >= 0 && (refused || (todo == {} && t.win.refused == s.win.refused))
    ensures var u := t.(win := t.win.(refused := s.win.refused || refused)); Inv(u, {}, {}) && Later(s, u)
  {
    hide Registry, Windows, Queues, Writing, Marked, Accepts, Growth, Explained;
    var u := t.(win := t.win.(refused := s.win.refused || refused));
    assert s.reg.streams <= s.reg.records.Keys by { InvParts(s, {}, {}); RegistryKeys(s); }
    RegistryKept(s, u);
    QueuesKept(s, u, {});
    WritingKept(s, u);
    MarkedKept(s, u, {});
    ResizedWindows(s, t, todo, val, refused);
  }

  lemma ResizedWindows(s: State, t: State, todo: set<nat>, val: Int32, refused: bool)
    requires Resizing(s, t, todo, val) && Windows(s) && val >= 0 && (refused || (todo == {} && t.win.refused == s.win.refused))
    ensures Windows(t.(win := t.win.(refused := s.win.refused || refused)))
  {
    hide Accepts, Growth, Explained;
    var u := t.(win := t.win.(refused := s.win.refused || refused));
    if !u.win.refused {
      forall id | id in u.reg.records && id in u.win.acct ensures Explained(u.reg.records[id].flow, u.win.acct[id]) {
        if id in s.reg.streams { ResizedWindow(s, val, id); }
      }
    }
  }

  /** Every registered stream's window accepts the change to the initial size val. */
  ghost predicate AllAccept(s: State, val: Int32) {
    forall id :: id in s.reg.streams && id in s.reg.records ==> Accepts(s.reg.records[id].flow, Growth(s, val))
  }

  /** Every registered stream's window has moved by exactly the change, and was not negative before nor is above the limit after. */
  ghost predicate AllMoved(s: State, t: State, val: Int32) {
    forall id :: id in s.reg.streams && id in s.reg.records ==>
      && id in t.reg.records && t.reg.records[id].flow == s.reg.records[id].flow + (val - s.win.initialWindowSize)
      && 0 <= s.reg.records[id].flow && t.reg.records[id].flow <= MAX_INT32
  }

  lemma ResizingMoved(s: State, t: State, val: Int32)
    requires Resizing(s, t, {}, val) && Windows(s) && val >= 0
    ensures AllAccept(s, val)
    ensures !s.win.refused ==> AllMoved(s, t, val)
  {
    hide Accepts, Growth, Resized, Explained, Windows;
    if !s.win.refused {
      forall id | id in s.reg.streams && id in s.reg.records
        ensures id in t.reg.records && t.reg.records[id].flow == s.reg.records[id].flow + (val - s.win.initialWindowSize)
        ensures 0 <= s.reg.records[id].flow && t.reg.records[id].flow <= MAX_INT32
      {
        ResizedWindow(s, val, id);
      }
    }
  }

  lemma RegistryKeys(s: State)
    requires Registry(s)
    ensures s.reg.streams <= s.reg.records.Keys
  {
  }

  lemma ClosedStays(s: State, t: State, id: nat)
    requires Later(s, t)
    ensures id in s.reg.records && s.reg.records[id].phase.Closed? ==> id in t.reg.records && t.reg.records[id].phase.Closed?
    ensures s.away.inGoAway ==> t.away.inGoAway
  {
  }

  // ---- Streams as the client sees them

  /** Between two events a stream's queue is calm. */
  lemma SettledCalm(s: State, id: nat)
    requires Settled(s) && !s.out.writingFrameAsync
    ensures Calm(s, id)
  {
  }

  lemma AckInv(s: State)
    requires Inv(s, {}, {})
    ensures var t := s.(out := s.out.(needToSendSettingsAck := true)); Inv(t, {}, {}) && Later(s, t)
  {
    hide Inv, Later;
    var t := s.(out := s.out.(needToSendSettingsAck := true));
    FlagsChange(s, t, {}, {});
    ScheduledLater(s, t);
  }

  /** A stream that may receive DATA has somewhere to put it, and has not been ended on our side. */
  lemma OpenHasBody(s: State, id: nat)
    requires Inv(s, {}, {}) && id in s.reg.streams && id in s.reg.records && !s.reg.records[id].resetQueued
    ensures s.reg.records[id].phase.Open? ==> s.reg.records[id].hasBody
    ensures !s.reg.records[id].phase.HalfClosedLocal?
  {
    hide Registry, Queues, Windows, Writing;
  }

  lemma EndedLater(s: State, id: nat)
    requires Inv(s, {}, {}) && id in s.reg.streams && id in s.reg.records
    ensures Later(s, WithPhase(s, id, HalfClosedRemote))
    ensures Settled(s) ==> Settled(WithPhase(s, id, HalfClosedRemote))
  {
    hide Settled, Queues, Windows, Writing, Marked, Later, Odd, Even;
    WithPhaseLater(s, id, HalfClosedRemote);
    assert WithPhase(s, id, HalfClosedRemote).reg.records.Keys == s.reg.records.Keys;
    if Settled(s) { SettledSame(s, WithPhase(s, id, HalfClosedRemote)); }
  }

  /** The trailers of the stream have been seen. */
  function Trailed(s: State, id: nat): State
    requires id in s.reg.records
  {
    s.(reg := s.reg.(records := s.reg.records[id := s.reg.records[id].(gotTrailerHeader := true)]))
  }

  /** The stream has a body to receive. */
  function WithBody(s: State, id: nat): State
    requires id in s.reg.records
  {
    s.(reg := s.reg.(records := s.reg.records[id := s.reg.records[id].(hasBody := true)]))
  }

  /** Noting something about a stream other than its phase and its window. */
  lemma RecordChange(s: State, t: State, id: nat, st: Stream, U: set<nat>)
    requires Inv(s, {}, U) && id in s.reg.records && t == s.(reg := s.reg.(records := s.reg.records[id := st]))
    requires var a := s.reg.records[id];
      st.phase == a.phase && st.flow == a.flow && (a.resetQueued ==> st.resetQueued) && (a.hasBody ==> st.hasBody)
    ensures Inv(t, {}, U) && Later(s, t) && (Settled(s) ==> Settled(t))
  {
    hide Inv, Settled;
    assert t.reg.records.Keys == s.reg.records.Keys;
    SameInv(s, t, {}, U);
    if Settled(s) { SettledSame(s, t); }
  }

  /** A stream that has a body, or has been ended by the client, needs no reset. */
  lemma NeedsNoReset(s: State, id: nat)
    requires Inv(s, {}, {id}) && id in s.reg.records
    requires !s.reg.records[id].phase.HalfClosedLocal? && (s.reg.records[id].phase.Open? ==> s.reg.records[id].hasBody)
    ensures Inv(s, {}, {})
  {
    hide Registry, Queues, Windows, Writing;
  }

  lemma MadeLater(s: State, id: nat, phase: Phase, hasBody: bool)
    requires Inv(s, {}, {}) && Fresh(s, id)
    ensures Later(s, Made(s, id, phase, hasBody)) && (Settled(s) ==> Settled(Made(s, id, phase, hasBody)))
  {
    hide Registry, Queues, Windows, Writing, Marked, Orderly, AllAfterEnd, AllStreamless;
    FreshUnknown(s, id);
    WindowKeys(s);
    var t := Made(s, id, phase, hasBody);
    if Settled(s) {
      forall j | j in t.queues && Ready(t, j) ensures Ready(s, j) {
        OwnQueue(s, j, {});
        HeadKnown(s, j, {});
      }
    }
  }

  lemma HeadKnown(s: State, j: nat, X: set<nat>)
    requires Queues(s, X) && j in s.queues && s.queues[j] != []
    ensures var r := s.queues[j][0]; r.Metered() ==> r.stream in s.reg.records
  {
    assert s.queues[j][0] in s.queues[j];
  }

  lemma FreshUnknown(s: State, id: nat)
    requires Registry(s) && Fresh(s, id)
    ensures id !in s.reg.records
  {
    hide Odd, Even;
  }

  lemma RegisteredBelow(s: State, id: nat)
    requires Registry(s) && id in s.reg.streams
    ensures id <= if id % 2 == 1 then s.reg.maxClientStreamID else s.reg.maxPushPromiseID
  {
    hide Odd, Even;
  }

  /** A client's number that is skipped, because no more streams are allowed, counts as used. */
  lemma SkippedInv(s: State, id: nat)
    requires Inv(s, {}, {}) && id % 2 == 1 && s.reg.maxClientStreamID < id < 0x8000_0000
    ensures var t := s.(reg := s.reg.(maxClientStreamID := id));
      Inv(t, {}, {id}) && Later(s, t) && (Settled(s) ==> Settled(t)) && PhaseOf(t, id).Closed?
  {
    hide Odd, Even, Queues, Windows, Settled, AllAfterEnd, Request.WellFormed;
    var t := s.(reg := s.reg.(maxClientStreamID := id));
    WindowsKept(s, t);
    QueuesSame(s, t, {});
    if Settled(s) { SettledSame(s, t); }
  }

  lemma WeakerExempt(s: State, U: set<nat>, V: set<nat>)
    requires Inv(s, {}, U) && U <= V
    ensures Inv(s, {}, V)
  {
    hide Registry, Windows, Queues, Writing;
  }

  /** Returning receive window to the client leaves the phase of every calm stream. */
  lemma UpdatedPhase(s: State, t: State, st: nat, id: nat)
    requires Updated(s, t, st, {}) && id in s.reg.records
    ensures id in t.reg.records && (Settled(s) ==> t.reg.records[id].phase == s.reg.records[id].phase)
    ensures s.reg.records[id].hasBody ==> t.reg.records[id].hasBody
  {
    hide Calm, Safe;
    if Settled(s) && !s.out.writingFrameAsync { SettledCalm(s, id); }
  }

  lemma StillRegistered(s: State, id: nat)
    requires Registry(s) && id in s.reg.records
    ensures id in s.reg.streams <==> !s.reg.records[id].phase.Closed?
  {
    hide Odd, Even;
  }

  lemma KnownStream(s: State, id: nat)
    requires Registry(s) && id in s.reg.records
    ensures id > 0
  {
    hide Odd, Even;
  }

  lemma ClosedIsIgnored(s: State, r: Request)
    requires Inv(s, {}, {}) && r.stream in s.reg.records && r.WellFormed()
    ensures s.reg.records[r.stream].phase.Closed? ==> Ignored(s, r)
  {
    hide Queues, Windows, Writing, Marked, Odd, Even;
  }

  /** The current initial window size is the base of every registered stream's window. */
  ghost predicate AllBased(s: State) {
    forall id :: id in s.reg.streams && id in s.win.acct ==> s.win.acct[id].base == s.win.initialWindowSize
  }

  lemma SomeUnbased(s: State, t: State, todo: set<nat>, val: Int32, id: nat)
    requires Resizing(s, t, todo, val) && Windows(s) && !s.win.refused && id in todo && todo <= s.reg.streams && s.reg.streams <= s.reg.records.Keys
    ensures AllBased(t.(win := t.win.(refused := true))) <==> val == s.win.initialWindowSize
  {
    hide Accepts, Growth, Resized, Explained;
  }

  /** The stream id refuses the change. */
  lemma ResizingStops(s: State, t: State, todo: set<nat>, val: Int32, id: nat)
    requires Resizing(s, t, todo, val) && Inv(s, {}, {}) && val >= 0 && id in todo && todo <= s.reg.streams
    requires id in s.reg.records && !Accepts(s.reg.records[id].flow, Growth(s, val))
    ensures var u := t.(win := t.win.(refused := true));
      Inv(u, {}, {}) && Later(s, u) && !AllAccept(s, val) && (!s.win.refused ==> (AllBased(u) <==> val == s.win.initialWindowSize))
  {
    hide Inv, Resizing, Later, Accepts, Growth, AllBased, Windows, Registry;
    InvParts(s, {}, {});
    RegistryKeys(s);
    ResizingEnds(s, t, todo, val, true);
    if !s.win.refused { SomeUnbased(s, t, todo, val, id); }
  }

  /** No stream refused the change. */
  lemma ResizingDone(s: State, t: State, val: Int32)
    requires Resizing(s, t, {}, val) && Inv(s, {}, {}) && val >= 0
    ensures Inv(t, {}, {}) && Later(s, t) && AllBased(t) && AllAccept(s, val)
    ensures !s.win.refused ==> !t.win.refused && AllMoved(s, t, val)
  {
    hide Inv, Later, Accepts, Growth, Resized, AllAccept, AllMoved, Windows, Registry;
    InvParts(s, {}, {});
    ResizingFlags(s, t, {}, val);
    ResizingEnds(s, t, {}, val, false);
    assert t == t.(win := t.win.(refused := s.win.refused));
    ResizingMoved(s, t, val);
    WindowKeys(s);
  }

  /** What a server connection that has refused no SETTINGS knows about its send windows. */
  lemma WindowEquation(s: State, id: nat)
    requires Inv(s, {}, {}) && !s.win.refused
    ensures id in s.reg.streams ==> id in s.reg.records && id in s.win.acct
    ensures id in s.reg.streams ==> s.reg.records[id].flow == s.win.initialWindowSize + s.win.acct[id].accepted - s.win.acct[id].sent
    ensures s.win.flow == 65535 + s.win.connAcct.accepted - s.win.connAcct.sent && s.win.flow >= 0
  {
    hide Queues, Marked, Writing, Odd, Even;
  }

  /** What an event keeps: nothing is forgotten, and a settled connection stays settled. */
  ghost predicate Kept(s: State, t: State) {
    Later(s, t) && (Settled(s) ==> Settled(t))
  }

  lemma KeptSelf(s: State)
    ensures Kept(s, s)
  {
    LaterReflexive(s);
  }

  lemma KeptOn(s: State, t: State, u: State)
    requires Kept(s, t) && Kept(t, u)
    ensures Kept(s, u)
  {
    LaterTransitive(s, t, u);
  }
}
