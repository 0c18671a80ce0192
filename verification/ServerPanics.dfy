/** Where the serve loop does panic, and where a refused SETTINGS frame leaves frames waiting: each condition
    shown to be exact, and each at a state that keeps all the invariants. */
module ServerPanics {
  import opened GoInt
  import opened Options
  import opened FlowControl
  import opened ServerStates
  import opened ServerSteps
  import opened ServerQuiet
  import opened ServerReceives
  import opened ServerSettings
  import opened ServerConns

  // ---- Closing a stream that still has something to send

  /** The first frame of the queue id, which has no stream, has been written within the buffer. */
  ghost function WrittenFirst(s: State, id: nat): State
    requires QueueOf(s, id) != []
  {
    Finished(Begun(s.(queues := s.queues[id := QueueOf(s, id)[1..]]), QueueOf(s, id)[0], false))
  }

  /** All frames at the front of the queue id that have no stream have been written, one after the other. */
  ghost function Drained(s: State, id: nat): State
    decreases |QueueOf(s, id)|
  {
    if QueueOf(s, id) == [] || QueueOf(s, id)[0].stream != 0 then s else Drained(WrittenFirst(s, id), id)
  }

  /** Each of these frames stays within the buffer, and writing it is a turn of the loop like any other. */
  lemma DrainIsTurn(s: State, id: nat, X: set<nat>, U: set<nat>)
    requires Inv(s, X, U) && QueueOf(s, id) != [] && QueueOf(s, id)[0].stream == 0 && AtTurn(s)
    requires id != 0 ==> id !in s.reg.streams
    ensures Ready(s, id) && Part(s, id) == QueueOf(s, id)[0] && CanStart(Popped(s, id), Part(s, id))
    ensures StaysWithinBuffer(Part(s, id).write, true)
    ensures WrittenFirst(s, id) == Finished(Begun(Popped(s, id), Part(s, id), false))
    ensures !EndCloses(Popped(s, id), Part(s, id)) && !Part(s, id).Ends()
  {
    hide Registry, Windows, Writing, Marked, Queues;
    InvParts(s, X, U);
    OwnQueue(s, id, X);
    var r := QueueOf(s, id)[0];
    assert r in QueueOf(s, id);
    RestGood(s, id, X);
  }

  lemma {:induction false} DrainedMeans(s: State, id: nat)
    ensures var t := Drained(s, id);
      && t.reg == s.reg && t.win == s.win && t.away == s.away
      && QueueOf(t, id) == Own(QueueOf(s, id)) && (forall j :: j != id ==> QueueOf(t, j) == QueueOf(s, j))
      && t.out.inFrameScheduleLoop == s.out.inFrameScheduleLoop && (AtTurn(s) ==> AtTurn(t))
    decreases |QueueOf(s, id)|
  {
    if QueueOf(s, id) != [] && QueueOf(s, id)[0].stream == 0 {
      DrainedMeans(WrittenFirst(s, id), id);
    }
  }

  /** The scheduling loop, entered when the stream id has left the registry and a window update for its unread
      bytes is queued, after it has acknowledged settings and written what has no stream. */
  ghost function LoopWhileClosing(s: State, id: nat, unread: nat): State
    requires id in s.reg.records && unread > 0
  {
    var u := Offer(Unlisted(s, id), Request(WindowUpdate(Min(unread, MAX_INT32)), 0));
    Drained(Drained(u.(out := u.out.(inFrameScheduleLoop := true, needToSendSettingsAck := false)), 0), id)
  }

  /** The loop gets there, and the next frame it may take is one of the stream that has closed. */
  ghost predicate ReachesClosed(s: State, id: nat, unread: nat)
    requires id in s.reg.records && unread > 0
  {
    var t := LoopWhileClosing(s, id, unread);
    && !s.out.writingFrameAsync && !t.away.needToSendGoAway && !Mute(t)
    && QueueOf(t, 0) == [] && Ready(t, id) && OnClosed(Popped(t, id), Part(t, id))
  }

  /** Closing a stream can panic exactly where the contracts of CloseStream and WroteFrame allow it: if unread
      bytes are left and a frame of the stream would be sent. */
  lemma ClosePanicsExactly(s: State, id: nat, unread: nat)
    requires Inv(s, {}, {}) && AtRest(s) && id in s.reg.streams && id in s.reg.records && unread > 0 && s.reg.records[id].hasBody
    ensures ClosePanics(s, id, unread) <==> ReachesClosed(s, id, unread)
  {
    hide Registry, Windows, Writing, Marked, Queues, Popped, Part, Drained, Own, Mute, Request.Queueable;
    InvParts(s, {}, {});
    StreamPositive(s, id);
    var wr := Request(WindowUpdate(Min(unread, MAX_INT32)), 0);
    var u := Offer(Unlisted(s, id), wr);
    var v := u.(out := u.out.(inFrameScheduleLoop := true, needToSendSettingsAck := false));
    var w := Drained(v, 0);
    var t := Drained(w, id);
    DrainedMeans(v, 0);
    DrainedMeans(w, id);
    OwnQueue(s, 0, {});
    OwnQueue(s, id, {});
    AllDrain(QueueOf(s, 0) + [wr]);
    assert QueueOf(v, 0) == QueueOf(s, 0) + [wr];
    assert QueueOf(t, 0) == [];
    assert QueueOf(t, id) == Own(QueueOf(s, id));
    MuteSame(s, t);
    if Own(QueueOf(s, id)) != [] {
      var r := Own(QueueOf(s, id))[0];
      assert Sendable(t, r) == Sendable(s, r) by { SendableSame(s, t, r); }
      if Ready(t, id) { FirstPart(t, id); }
    }
  }

  lemma AllDrain(q: seq<Request>)
    requires forall r :: r in q ==> r.stream == 0
    ensures Own(q) == []
  {
  }

  lemma StreamPositive(s: State, id: nat)
    requires Registry(s) && id in s.reg.records
    ensures id > 0
  {
  }

  lemma MuteSame(s: State, t: State)
    requires t.away == s.away
    ensures Mute(t) == Mute(s)
  {
  }

  lemma SendableSame(s: State, t: State, r: Request)
    requires t.reg.records.Keys == s.reg.records.Keys && t.win.flow == s.win.flow && t.win.maxFrameSize == s.win.maxFrameSize
    requires forall j :: j in s.reg.records && j in t.reg.records ==> t.reg.records[j].flow == s.reg.records[j].flow
    ensures Sendable(t, r) == Sendable(s, r)
  {
  }

  lemma FirstPart(t: State, id: nat)
    requires Ready(t, id) && QueueOf(t, id)[0].stream == id && id > 0 && id in t.reg.records && t.reg.records[id].phase.Closed?
    requires QueueOf(t, id)[0].WellFormed()
    ensures OnClosed(Popped(t, id), Part(t, id))
  {
  }

  /** The loop when it writes, again and again, the first frame of the queue j, as long as that has no stream. */
  method DrainQueue(c: ServerConn, j: nat, ghost X: set<nat>)
    requires !c.panicked && AtTurn(c.Snap()) && Inv(c.Snap(), X, {}) && (j != 0 ==> j !in c.streams)
    modifies c
    ensures !c.panicked && AtTurn(c.Snap()) && Inv(c.Snap(), X, {}) && c.Snap() == Drained(old(c.Snap()), j)
  {
    hide Inv, Drained, Begun, Finished, Popped, Part, Inert;
    DrainStep(c.Snap(), j);
    while j in c.queues && c.queues[j] != [] && c.queues[j][0].stream == 0
      invariant !c.panicked && AtTurn(c.Snap()) && Inv(c.Snap(), X, {}) && c.streams == old(c.streams)
      invariant Drained(c.Snap(), j) == Drained(old(c.Snap()), j)
      decreases |QueueOf(c.Snap(), j)|
    {
      ghost var s := c.Snap();
      DrainIsTurn(s, j, X, {});
      DrainStep(s, j);
      PoppedInv(s, j, X, {});
      QueueKnown(s, j, X);
      var wr := c.TakeFrom(j);
      assert Inert(c.streams, wr) by { DrainInert(s, j, X); }
      c.WriteHere(wr, X, {});
    }
    DrainStep(c.Snap(), j);
  }

  lemma DrainStep(s: State, j: nat)
    ensures Drained(s, j) == if QueueOf(s, j) == [] || QueueOf(s, j)[0].stream != 0 then s else Drained(WrittenFirst(s, j), j)
    ensures QueueOf(s, j) != [] ==> QueueOf(WrittenFirst(s, j), j) == QueueOf(s, j)[1..] && WrittenFirst(s, j).reg == s.reg
    ensures QueueOf(s, j) != [] && AtTurn(s) ==> AtTurn(WrittenFirst(s, j))
  {
  }

  lemma QueueKnown(s: State, j: nat, X: set<nat>)
    requires Inv(s, X, {})
    ensures s.win.acct.Keys == s.reg.records.Keys && forall r :: r in QueueOf(s, j) ==> r.Metered() ==> r.stream in s.reg.records
  {
    hide Registry, Writing, Marked;
    InvParts(s, X, {});
  }

  lemma DrainInert(s: State, j: nat, X: set<nat>)
    requires Inv(s, X, {}) && QueueOf(s, j) != [] && QueueOf(s, j)[0].stream == 0 && AtTurn(s) && (j != 0 ==> j !in s.reg.streams)
    ensures Ready(s, j) && Inert(s.reg.streams, Part(s, j))
  {
    hide Registry, Windows, Writing, Marked;
    InvParts(s, X, {});
    DrainIsTurn(s, j, X, {});
    OwnQueue(s, j, X);
    assert QueueOf(s, j)[0] in QueueOf(s, j);
  }

  /** t is a state of the scheduling loop that was entered to give back what the stream id, closed in s, had not read. */
  ghost predicate Closing(s: State, t: State, id: nat)
    requires id in s.reg.records
  {
    && AtTurn(t) && Inv(t, {id}, {}) && t.reg == Unlisted(s, id).reg && t.win == s.win && t.away == s.away
    && id > 0 && id !in t.reg.streams && Own(QueueOf(t, id)) == Own(QueueOf(s, id))
  }

  lemma ClosingBegins(s: State, id: nat, wr: Request)
    requires Inv(s, {}, {}) && AtRest(s) && id in s.reg.streams && id in s.reg.records && !s.out.writingFrame
    requires wr.write.WindowUpdate? && wr.WellFormed() && wr.stream == 0
    ensures var u := Offer(Unlisted(s, id), wr); Closing(s, u.(out := u.out.(inFrameScheduleLoop := true)), id)
  {
    hide Inv, Own, Registry, Queues, Windows, Writing, Marked;
    InvParts(s, {}, {});
    StreamPositive(s, id);
    CloseFacts(s, id, {}, {});
    assert {} + {id} == {id};
    OfferInv(Unlisted(s, id), wr, {id}, {});
    var u := Offer(Unlisted(s, id), wr);
    FlagsChange(u, u.(out := u.out.(inFrameScheduleLoop := true)), {id}, {});
  }

  /** Steps that touch only the writing side, or the queues without streams. */
  lemma ClosingOn(s: State, t: State, u: State, id: nat)
    requires id in s.reg.records && Closing(s, t, id) && AtTurn(u) && Inv(u, {id}, {})
    requires u.reg == t.reg && u.win == t.win && u.away == t.away && Own(QueueOf(u, id)) == Own(QueueOf(t, id))
    ensures Closing(s, u, id)
  {
  }

  lemma ClosingMeans(s: State, t: State, id: nat)
    requires id in s.reg.records && Closing(s, t, id)
    ensures AtTurn(t) && Inv(t, {id}, {}) && id > 0 && id !in t.reg.streams
    ensures var r := Request(SettingsAck, 0); CanStart(t, r) && Inert(t.reg.streams, r) && StaysWithinBuffer(r.write, true)
  {
    hide Inv, Own, Unlisted;
  }

  lemma ClosingAcknowledges(s: State, t: State, id: nat)
    requires id in s.reg.records && Closing(s, t, id)
    ensures Closing(s, t.(out := t.out.(needToSendSettingsAck := false)), id)
  {
    hide Inv, Own, Unlisted;
    var u := t.(out := t.out.(needToSendSettingsAck := false));
    FlagsChange(t, u, {id}, {});
    ClosingOn(s, t, u, id);
  }

  /** When the stream's own frames come first in its queue, starting the first is a panic. */
  lemma ClosingEnds(s: State, t: State, id: nat, unread: nat)
    requires Inv(s, {}, {}) && AtRest(s) && id in s.reg.records && ClosePanics(s, id, unread) && Closing(s, t, id) && QueueOf(t, id) == Own(QueueOf(s, id))
    ensures Ready(t, id) && OnClosed(Popped(t, id), Part(t, id))
  {
    hide Registry, Windows, Writing, Marked, Queues, Popped, Part, Own, Mute, Request.Queueable;
    InvParts(s, {}, {});
    OwnQueue(s, id, {});
    var r := Own(QueueOf(s, id))[0];
    assert Sendable(t, r) == Sendable(s, r) by { SendableSame(s, t, r); }
    FirstPart(t, id);
  }

  /** From every state that ClosePanics describes, closing the stream by the steps of CloseStream, with the frames
      taken from the queues in this order, does panic. */
  method ClosePanicsRun(s: State, id: nat, unread: nat) returns (c: ServerConn)
    requires Inv(s, {}, {}) && AtRest(s) && s.FitsFields() && id in s.reg.streams && ClosePanics(s, id, unread)
    ensures fresh(c) && c.panicked
  {
    hide Inv, Drained, Inert, Own, Harmless, Popped, Part, OnClosed, Closing, CanStart, QueueOf, Registry, Windows;
    assert !s.out.writingFrame by { NotHarmless(s, id); }
    c := EnterLoop(s, id, unread);
    Acknowledge(c, s, id);
    DrainBoth(c, s, id);
    ClosingEnds(s, c.Snap(), id, unread);
    ClosingMeans(s, c.Snap(), id);
    QueueKnown(c.Snap(), id, {id});
    PoppedInv(c.Snap(), id, {id}, {});
    var wr := c.TakeFrom(id);
    c.StartFrameWrite(wr, {id}, {});
  }

  lemma NotHarmless(s: State, id: nat)
    requires !Harmless(s, id) && AtRest(s)
    ensures !s.out.writingFrame
  {
  }

  method EnterLoop(s: State, id: nat, unread: nat) returns (c: ServerConn)
    requires Inv(s, {}, {}) && AtRest(s) && s.FitsFields() && id in s.reg.streams && id in s.reg.records && unread > 0 && !s.out.writingFrame
    ensures fresh(c) && !c.panicked && Closing(s, c.Snap(), id)
  {
    hide Inv, Offer, Unlisted, Closing, Registry, Windows;
    CloseFacts(s, id, {}, {});
    c := new ServerConn.In(s);
    c.Unlist(id);
    var wr := Request(WindowUpdate(Min(unread, MAX_INT32)), 0);
    c.Enqueue(wr);
    c.inFrameScheduleLoop := true;
    ClosingBegins(s, id, wr);
  }

  method Acknowledge(c: ServerConn, ghost s: State, id: nat)
    requires !c.panicked && id in s.reg.records && Closing(s, c.Snap(), id)
    modifies c
    ensures !c.panicked && Closing(s, c.Snap(), id)
  {
    hide Inv, Begun, Finished, Closing, CanStart, Inert, QueueOf, Own;
    if c.needToSendSettingsAck {
      ClosingAcknowledges(s, c.Snap(), id);
      c.needToSendSettingsAck := false;
      ghost var t := c.Snap();
      ClosingMeans(s, t, id);
      c.WriteHere(Request(SettingsAck, 0), {id}, {});
      WrittenSides(t, Request(SettingsAck, 0), id);
      ClosingOn(s, t, c.Snap(), id);
    }
  }

  lemma WrittenSides(t: State, r: Request, id: nat)
    ensures var u := Finished(Begun(t, r, false)); u.reg == t.reg && u.win == t.win && u.away == t.away && QueueOf(u, id) == QueueOf(t, id)
    ensures AtTurn(t) ==> AtTurn(Finished(Begun(t, r, false)))
  {
  }

  /** Empties the queue of control frames, and the stream's of what has no stream. */
  method DrainBoth(c: ServerConn, ghost s: State, id: nat)
    requires !c.panicked && id in s.reg.records && Closing(s, c.Snap(), id)
    modifies c
    ensures !c.panicked && Closing(s, c.Snap(), id) && QueueOf(c.Snap(), id) == Own(QueueOf(s, id))
  {
    hide Inv, Drained, Own, Closing, QueueOf;
    ghost var v := c.Snap();
    ClosingMeans(s, v, id);
    DrainQueue(c, 0, {id});
    ghost var w := c.Snap();
    DrainedMeans(v, 0);
    ClosingOn(s, v, w, id);
    ClosingMeans(s, w, id);
    DrainQueue(c, id, {id});
    DrainedMeans(w, id);
    OwnTwice(QueueOf(w, id));
    ClosingOn(s, w, c.Snap(), id);
    ClosingOwn(s, w, id);
  }

  lemma ClosingOwn(s: State, t: State, id: nat)
    requires id in s.reg.records && Closing(s, t, id)
    ensures Own(QueueOf(t, id)) == Own(QueueOf(s, id))
  {
  }

  lemma {:induction false} OwnTwice(q: seq<Request>)
    ensures Own(Own(q)) == Own(q)
  {
    if q != [] && q[0].stream == 0 { OwnTwice(q[1..]); }
  }

  // ---- Witnesses

  /** A connection with one stream of the client's, in the given phase, that has sent what acct says. */
  function OneStream(phase: Phase, hasBody: bool, a: Account, q: seq<Request>, frame: Option<Request>, away: bool): State
    requires -0x8000_0000 <= a.Balance() < 0x8000_0000 && a.sent <= 65535 && 0 <= a.base < 0x8000_0000
  {
    State(
      Registration(map[1 := Stream(phase, a.Balance(), hasBody, false, false, true)], if phase.Closed? then {} else {1},
        if phase.Closed? then 0 else 1, 0, 1, 0, 100),
      map[1 := q],
      Windowing(65535 - a.sent, a.base, 16384, map[1 := a], Account(65535, 0, a.sent), false),
      Output(frame.Some?, frame.Some?, false, false, false, frame), Leaving(away, false, 0))
  }

  lemma OneStreamInv(phase: Phase, hasBody: bool, a: Account, q: seq<Request>, frame: Option<Request>, away: bool)
    requires (phase.HalfClosedRemote? || phase.Closed? || (phase.Open? && hasBody)) && Explained(a.Balance(), a)
    requires -0x8000_0000 <= a.Balance() < 0x8000_0000 && a.sent <= 65535 && 0 <= a.base < 0x8000_0000
    requires forall r :: r in q ==> r.StreamID() == 1 && r.Queueable() && r.AfterEnd() == !r.Metered()
    requires Orderly(q) && (phase.Closed? ==> q == [])
    requires frame.Some? ==> frame.value.WellFormed() && frame.value.stream == 1 && (frame.value.Ends() ==> AllAfterEnd(q))
    ensures var s := OneStream(phase, hasBody, a, q, frame, away); Inv(s, {}, {}) && AtRest(s)
  {
    hide Registry, Windows, Queues, Writing, Marked, Explained, Orderly, AllAfterEnd;
    var s := OneStream(phase, hasBody, a, q, frame, away);
    assert Registry(s) by { OneStreamRegistry(phase, hasBody, a, q, frame, away); }
    assert Windows(s) by { OneStreamWindows(phase, hasBody, a, q, frame, away); }
    assert Queues(s, {}) && Writing(s) && Marked(s, {}) by { OneStreamQueues(phase, hasBody, a, q, frame, away); }
  }

  lemma OneStreamRegistry(phase: Phase, hasBody: bool, a: Account, q: seq<Request>, frame: Option<Request>, away: bool)
    requires (phase.HalfClosedRemote? || phase.Closed? || (phase.Open? && hasBody))
    requires -0x8000_0000 <= a.Balance() < 0x8000_0000 && a.sent <= 65535 && 0 <= a.base < 0x8000_0000
    ensures Registry(OneStream(phase, hasBody, a, q, frame, away))
  {
    assert Odd({1}) == {1} && Even({1}) == {} && Odd({}) == {} && Even({}) == {};
  }

  lemma OneStreamWindows(phase: Phase, hasBody: bool, a: Account, q: seq<Request>, frame: Option<Request>, away: bool)
    requires Explained(a.Balance(), a)
    requires -0x8000_0000 <= a.Balance() < 0x8000_0000 && a.sent <= 65535 && 0 <= a.base < 0x8000_0000
    ensures Windows(OneStream(phase, hasBody, a, q, frame, away))
  {
  }

  lemma OneStreamQueues(phase: Phase, hasBody: bool, a: Account, q: seq<Request>, frame: Option<Request>, away: bool)
    requires -0x8000_0000 <= a.Balance() < 0x8000_0000 && a.sent <= 65535 && 0 <= a.base < 0x8000_0000
    requires forall r :: r in q ==> r.StreamID() == 1 && r.Queueable() && r.AfterEnd() == !r.Metered()
    requires Orderly(q) && (phase.Closed? ==> q == []) && (phase.HalfClosedRemote? || phase.Closed? || (phase.Open? && hasBody))
    requires frame.Some? ==> frame.value.WellFormed() && frame.value.stream == 1 && (frame.value.Ends() ==> AllAfterEnd(q))
    ensures var s := OneStream(phase, hasBody, a, q, frame, away); Queues(s, {}) && Writing(s) && Marked(s, {})
  {
    hide Orderly;
  }

  /** A stream whose request has no body. */
  function Bodiless(): State {
    OneStream(HalfClosedRemote, false, Account(65535, 0, 0), [], None, false)
  }

  lemma BodilessSettled()
    ensures Settled(Bodiless()) && AtRest(Bodiless())
  {
    hide Poppable;
    NothingReady(Bodiless()) by { NoFrames(); }
  }

  lemma NoFrames()
    ensures forall id :: id in Bodiless().queues ==> !Ready(Bodiless(), id)
  {
  }

  lemma BodilessPanics()
    ensures HeadersPanic(Bodiless(), HeadersFrame(1, true, None, false, false))
  {
  }

  /** A second header block with END_STREAM for such a stream. */
  lemma HeadersTwice()
    ensures var s := Bodiless(); Inv(s, {}, {}) && AtRest(s) && Settled(s) && FramePanics(s, HeadersFrame(1, true, None, false, false), 0)
  {
    hide Inv, Settled, AtRest, HeadersPanic, ClosePanics, OneStream;
    OneStreamInv(HalfClosedRemote, false, Account(65535, 0, 0), [], None, false);
    BodilessSettled();
    BodilessPanics();
  }

  method HeadersTwiceRun() returns (c: ServerConn)
    ensures fresh(c) && c.panicked
  {
    hide Inv, Settled;
    HeadersTwice();
    c := new ServerConn.In(Bodiless());
    var p := c.ProcessHeaders(HeadersFrame(1, true, None, false, false));
  }

  lemma NothingReady(s: State)
    requires forall id :: id in s.queues ==> !Ready(s, id)
    ensures !Poppable(s)
  {
  }

  /** The reset for a handler that has panicked is being written, and the client has reset the stream itself. */
  function ResetTwice(): State {
    OneStream(Closed, true, Account(65535, 0, 0), [], Some(Request(HandlerPanicRST, 1)), false)
  }

  lemma HandlerPanicTwice()
    ensures var s := ResetTwice(); Inv(s, {}, {}) && AtRest(s) && Settled(s) && EventPanics(s, FrameDone(0))
  {
    hide Inv, Settled, EventPanics, OneStream;
    OneStreamInv(Closed, true, Account(65535, 0, 0), [], Some(Request(HandlerPanicRST, 1)), false);
    ResetTwicePanics();
  }

  method HandlerPanicTwiceRun() returns (c: ServerConn)
    ensures fresh(c) && c.panicked
  {
    hide Inv, Settled, EventPanics;
    HandlerPanicTwice();
    c := new ServerConn.In(ResetTwice());
    c.WroteFrame(Request(HandlerPanicRST, 1), 0, {}, {});
  }

  lemma ResetTwicePanics()
    ensures Settled(ResetTwice()) && EventPanics(ResetTwice(), FrameDone(0))
  {
    hide Pending, ClosePanics;
  }

  /** The last DATA of a response is being written, and padding that was received meanwhile has queued a window
      update for the stream. */
  function UpdateQueued(): State {
    OneStream(HalfClosedRemote, true, Account(65535, 0, 10), [Request(WindowUpdate(3), 1)], Some(Request(Data(10, true), 1)), false)
  }

  /** The stream then closes with five unread bytes. */
  lemma UpdateBehindTheEnd()
    ensures var s := UpdateQueued();
      Inv(s, {}, {}) && AtRest(s) && Settled(s) && EventPanics(s, FrameDone(5)) && 1 in s.reg.records && ReachesClosed(Finished(s), 1, 5)
  {
    hide Inv, Pending, ReachesClosed;
    var q := [Request(WindowUpdate(3), 1)];
    var s := UpdateQueued();
    OneStreamInv(HalfClosedRemote, true, Account(65535, 0, 10), q, Some(Request(Data(10, true), 1)), false);
    FinishedInv(s, {}, {});
    assert Own(q) == q;
    ClosePanicsExactly(Finished(s), 1, 5);
  }

  /** When the last DATA has been written, the stream closes and the queued update is started. */
  method UpdateBehindTheEndRun() returns (c: ServerConn)
    ensures fresh(c) && c.panicked
  {
    hide Inv;
    UpdateBehindTheEnd();
    FinishedInv(UpdateQueued(), {}, {});
    UpdateOpen();
    c := ClosePanicsRun(Finished(UpdateQueued()), 1, 5);
  }

  lemma UpdateOpen()
    ensures var s := Finished(UpdateQueued()); s.FitsFields() && 1 in s.reg.streams && ClosePanics(s, 1, 5) && AtRest(s)
  {
    assert Own(QueueOf(Finished(UpdateQueued()), 1)) == [Request(WindowUpdate(3), 1)];
  }

  /** Stream 1 has used up a window of 10, and the connection is going away. */
  function UsedUp(): State {
    OneStream(Open, true, Account(10, 0, 10), [Request(Data(5, true), 1)], None, true)
  }

  /** The initial window is raised to 20, and then comes a setting that is refused. */
  function RaiseThenFail(): seq<Setting> {
    [InitialWindowSize(20), EnablePush(2)]
  }

  lemma UsedUpSettled()
    ensures Inv(UsedUp(), {}, {}) && AtRest(UsedUp()) && Settled(UsedUp()) && !Mute(UsedUp())
  {
    hide Inv;
    OneStreamInv(Open, true, Account(10, 0, 10), [Request(Data(5, true), 1)], None, true);
    NothingReady(UsedUp());
  }

  /** Whatever setting stops these SETTINGS, it is the second, and then the queued frame is free. */
  lemma SecondRefused(k: nat, moved: set<nat>)
    ensures !FirstRefused(UsedUp(), RaiseThenFail(), 2)
    ensures Stopped(UsedUp(), RaiseThenFail(), k, moved) ==> k == 1 && !StaysSettled(UsedUp(), RaiseThenFail(), k, moved)
  {
    hide Accepts, Wrap32;
    var s, xs := UsedUp(), RaiseThenFail();
    assert xs[..0] == [] && xs[..1] == [xs[0]];
    RaisedAccepted();
    assert !TakesEffect(s, xs[..1], xs[1]);
    if Stopped(s, xs, k, moved) {
      assert TakesEffect(s, xs[..0], xs[0]);
      assert k == 1 && moved == {};
      assert Freed(s, 1, xs, 1, {}) by { RaisedFrees(); }
    }
  }

  lemma RaisedAccepted()
    ensures AcceptsAfter(UsedUp(), [], 20, 1) && UsedUp().reg.streams == {1} && UsedUp().reg.records.Keys == {1}
  {
  }

  lemma RaisedFrees()
    ensures Freed(UsedUp(), 1, RaiseThenFail(), 1, {})
  {
    hide FlowAfter, FrameSizeAfter;
    RaisedWindow(RaiseThenFail());
    assert FlowIn(UsedUp(), 1, RaiseThenFail(), 1, {}) == 10;
  }

  lemma RaisedWindow(xs: seq<Setting>)
    requires xs == RaiseThenFail()
    ensures FlowAfter(0, 10, xs[..1]) == 10 && FrameSizeAfter(16384, xs[..1]) == 16384
  {
    hide FlowAfter, FrameSizeAfter;
    assert xs[..1] == [InitialWindowSize(20)];
    OneSetting(0, 10, 16384, 20);
  }

  lemma OneSetting(flow: Int32, size: Int32, max: Int32, val: UInt32)
    requires val <= MAX_INT32
    ensures FlowAfter(flow, size, [InitialWindowSize(val)]) == Wrap32(flow + Wrap32(val - size))
    ensures FrameSizeAfter(max, [InitialWindowSize(val)]) == max
  {
    hide Wrap32;
    var xs := [InitialWindowSize(val)];
    assert xs[..0] == [];
    assert FlowAfter(flow, size, []) == flow && SizeAfter(size, []) == size && FrameSizeAfter(max, []) == max;
  }

  /** The SETTINGS frame leaves a frame that can be sent, and nothing sends it. */
  method RefusedAndReady() returns (c: ServerConn)
    ensures fresh(c) && c.Sane() && !Settled(c.Snap())
  {
    hide Inv, Settled, Later, Stopped, FirstRefused, StaysSettled, UsedUp, OneStream;
    UsedUpSettled();
    UsedUpFits();
    c := new ServerConn.In(UsedUp());
    var stalled;
    ghost var k, moved;
    stalled, k, moved := c.ProcessFrameFromReader(SettingsFrame(false, RaiseThenFail()), 0);
    SecondRefused(k, moved);
  }

  lemma UsedUpFits()
    ensures UsedUp().FitsFields() && UsedUp().away.inGoAway
  {
  }

  // ---- Windows moved half way

  /** Streams 1 and 3 began with windows of 10, and stream 3 has sent 15 bytes: its window had been 20 before the
      client lowered it. */
  function OneNegative(): State {
    State(
      Registration(map[1 := Stream(Open, 10, true, false, false, true), 3 := Stream(Open, -5, true, false, false, true)], {1, 3}, 2, 0, 3, 0, 100),
      map[],
      Windowing(65520, 10, 16384, map[1 := Account(10, 0, 0), 3 := Account(10, 0, 15)], Account(65535, 0, 15), false),
      Output(false, false, false, false, false, None), Leaving(false, false, 0))
  }

  lemma OneNegativeInv()
    ensures Inv(OneNegative(), {}, {}) && AtRest(OneNegative())
  {
    assert Odd({1, 3}) == {1, 3} && Even({1, 3}) == {};
  }

  /** A new initial size of 20 is refused, for no stream but the third; it depends on which stream comes first
      whether the window of the first has moved. */
  lemma HalfMoved()
    ensures var s, xs := OneNegative(), [InitialWindowSize(20)];
      && !Accepts(s.reg.records[3].flow, Growth(s, 20)) && Accepts(s.reg.records[1].flow, Growth(s, 20))
      && Stopped(s, xs, 0, {}) && Stopped(s, xs, 0, {1})
  {
    var s, xs := OneNegative(), [InitialWindowSize(20)];
    assert xs[..0] == [];
    assert !AcceptsAfter(s, [], 20, 3) && AcceptsAfter(s, [], 20, 1);
    assert 3 in s.reg.streams - {1} && 3 in s.reg.streams - {};
  }

  /** The loop over the streams when it comes to stream 1 first. */
  method MoveOne() returns (c: ServerConn)
    ensures fresh(c) && c.initialWindowSize == 20 && c.records.Keys == {1, 3} && c.records[1].flow == 20 && c.records[3].flow == -5
  {
    hide Inv;
    OneNegativeInv();
    HalfMoved();
    c := new ServerConn.In(OneNegative());
    c.initialWindowSize := 20;
    var ok := c.MoveWindow(1, 10, 20);
    ok := c.MoveWindow(3, 10, 20);
  }
}
