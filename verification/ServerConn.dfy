/** The serve loop's side of an HTTP/2 connection: which frame is written next, which streams exist, and
    how large their send windows are. */
module ServerConns {
  import opened GoInt
  import opened Options
  import opened FlowControl
  import opened ServerStates
  import opened ServerSteps
  import opened ServerQuiet
  import opened ServerReceives
  import opened ServerSettings

  /** The frames a server receives. What other parts of the server say of one comes with it: whether the
      request of a header block is refused, whether trailers are bad, whether DATA exceeds the declared
      length, and whether the stream's buffer takes no more because the handler has gone. */
  datatype Frame =
    | SettingsFrame(ack: bool, settings: seq<Setting>)
    | HeadersFrame(id: nat, ended: bool, priority: Option<nat>, refusedRequest: bool, badTrailers: bool)
    | WindowUpdateFrame(id: nat, increment: nat)
    | PingFrame(ack: bool, id: nat)
    | DataFrame(id: nat, length: nat, dataLength: nat, ended: bool, tooLong: bool, writeFails: bool)
    | RSTStreamFrame(id: nat)
    | PriorityFrame(id: nat, dependsOn: nat)
    | GoAwayFrame
    | PushPromiseFrame
    | UnknownFrame
  {
    /** What the framer guarantees: 31-bit stream numbers and increments, no increment of 0, and stream 0
        only where a frame may carry it. */
    predicate Framed() {
      match this
      case HeadersFrame(id, _, _, _, _) => 0 < id < 0x8000_0000
      case WindowUpdateFrame(id, n) => id < 0x8000_0000 && 0 < n < 0x8000_0000
      case DataFrame(id, n, k, _, _, _) => 0 < id < 0x8000_0000 && k <= n < 0x100_0000
      case RSTStreamFrame(id) => 0 < id < 0x8000_0000
      case PriorityFrame(id, _) => 0 < id < 0x8000_0000
      case _ => true
    }
  }

  /** Whether a frame may be written without leaving the buffer, given that its size fits. */
  predicate StaysWithinBuffer(w: Write, fits: bool) {
    fits && !w.GoAway? && !w.Flush? && !w.ResHeaders? && !w.PushPromise?
  }

  class ServerConn {
    var records: map<nat, Stream>
    var streams: set<nat>
    var queues: map<nat, seq<Request>>
    var flow: Int32
    var initialWindowSize: Int32
    var maxFrameSize: Int32
    const advMaxStreams: UInt32
    var clientMaxStreams: UInt32
    var curClientStreams: UInt32
    var curPushedStreams: UInt32
    var maxClientStreamID: UInt32
    var maxPushPromiseID: UInt32
    var pushEnabled: bool
    var unackedSettings: int
    var sawFirstSettings: bool
    var writingFrame: bool
    var writingFrameAsync: bool
    var needsFrameFlush: bool
    var inFrameScheduleLoop: bool
    var inGoAway: bool
    var needToSendGoAway: bool
    var goAwayCode: UInt32
    var needToSendSettingsAck: bool
    /** What the goroutine that writes a frame on its own holds. */
    var inFlight: Option<Request>
    /** The receive window of the connection, and what is known of the bodies that streams receive. */
    var inflow: Int32
    var inbound: map<nat, Inbound>
    /** A receive window has refused an increment, which is a panic; nothing after that matters. */
    var overCredited: bool
    ghost var balance: int
    ghost var lost: nat
    ghost var twice: nat
    ghost var acct: map<nat, Account>
    ghost var connAcct: Account
    ghost var refused: bool
    /** The serve loop has panicked; nothing it does after that matters. */
    var panicked: bool

    ghost function Snap(): State
      reads this`records, this`streams, this`curClientStreams, this`curPushedStreams, this`maxClientStreamID, this`maxPushPromiseID
      reads this`queues, this`flow, this`initialWindowSize, this`maxFrameSize, this`acct, this`connAcct, this`refused
      reads this`writingFrame, this`writingFrameAsync, this`needsFrameFlush, this`inFrameScheduleLoop, this`needToSendSettingsAck
      reads this`inFlight, this`inGoAway, this`needToSendGoAway, this`goAwayCode
    {
      State(
        Registration(records, streams, curClientStreams, curPushedStreams, maxClientStreamID, maxPushPromiseID, advMaxStreams),
        queues,
        Windowing(flow, initialWindowSize, maxFrameSize, acct, connAcct, refused),
        Output(writingFrame, writingFrameAsync, needsFrameFlush, inFrameScheduleLoop, needToSendSettingsAck, inFlight),
        Leaving(inGoAway, needToSendGoAway, goAwayCode))
    }

    ghost function Recv(): Receiving
      reads this`inflow, this`inbound, this`overCredited, this`balance, this`lost, this`twice
    {
      Receiving(inflow, inbound, overCredited, balance, lost, twice)
    }

    function InboundOf(id: nat): (x: Inbound)
      reads this`inbound
    {
      if id in inbound then inbound[id] else Inbound(WINDOW, 0, 0)
    }

    /** A frame may be scheduled: the loop is running, and nothing will happen, or the connection is at rest. */
    ghost predicate MaySchedule()
      reads this
    {
      !panicked && (inFrameScheduleLoop || AtRest(Snap()))
    }

    /** The phase of the stream id as the protocol sees it. */
    function StateOf(id: nat): (r: Phase)
      reads this
      ensures r == PhaseOf(Snap(), id)
    {
      if id in streams && id in records then records[id].phase
      else if id % 2 == 1 then (if id <= maxClientStreamID then Closed else Idle)
      else if id <= maxPushPromiseID then Closed
      else Idle
    }

    /** Hands over a frame and sends it if nothing is being written. Sending panics only if one of the streams X
        that are being closed still has something to send. */
    method WriteFrame(wr: Request, ghost X: set<nat>, ghost U: set<nat>)
      requires Inv(Snap(), X, U) && MayOffer(Snap(), wr) && MaySchedule()
      modifies this
      ensures panicked ==> !old(inFrameScheduleLoop) && !old(Safe(Snap(), X))
      ensures !panicked ==> Inv(Snap(), X, U) && Later(old(Snap()), Snap()) && Scheduled(Offer(old(Snap()), wr), Snap())
      ensures !panicked && old(Busy(Snap())) ==> Snap() == Offer(old(Snap()), wr) && Recv() == old(Recv())
      ensures !panicked && old(AtRest(Snap())) ==> AtRest(Snap()) && Settled(Snap()) && (old(Safe(Snap(), X)) ==> Safe(Snap(), X))
      ensures !panicked ==> Passed(old(Recv()), Recv())
      ensures !panicked && Plain(wr) && Quiet(old(Snap())) ==> Undisturbed(old(Snap()), Snap()) && Recv() == old(Recv())
      decreases if inFrameScheduleLoop then 0 else 1, 1
    {
      hide Passed, Inv, Safe, Later, Scheduled, Settled, MayOffer, Offer, Quiet, Undisturbed, Plain;
      ghost var s := Snap();
      OfferInv(s, wr, X, U);
      OfferLater(s, wr);
      OfferFlags(s, wr);
      if Safe(s, X) { OfferSafe(s, wr, X, U); }
      if Plain(wr) && Quiet(s) { OfferQuiet(s, wr); }
      Enqueue(wr);
      ScheduleFrameWrite(X, U);
      if panicked {
        return;
      }
      if Plain(wr) && Quiet(s) { UndisturbedMeans(s, Offer(s, wr)); UndisturbedOn(s, Offer(s, wr), Snap()); }
      ScheduledLater(Offer(s, wr), Snap());
      LaterTransitive(s, Offer(s, wr), Snap());
    }

    /** The part of WriteFrame before anything is sent. */
    method Enqueue(wr: Request)
      modifies this`records, this`queues
      ensures Snap() == Offer(old(Snap()), wr)
    {
      var ignoreWrite := wr.StreamID() != 0 && StateOf(wr.StreamID()).Closed? && !wr.write.StreamError?;
      if wr.write.ResHeaders? && wr.stream in records {
        records := records[wr.stream := records[wr.stream].(wroteHeaders := true)];
      } else if wr.write.Continue100? && wr.stream in records && records[wr.stream].wroteHeaders {
        ignoreWrite := true;
      }
      if !ignoreWrite {
        var id := wr.StreamID();
        queues := queues[id := (if id in queues then queues[id] else []) + [wr]];
      }
    }

    /** Starts writing frames until one is left to be finished elsewhere or nothing is left to write. */
    method ScheduleFrameWrite(ghost X: set<nat>, ghost U: set<nat>)
      requires Inv(Snap(), X, U) && MaySchedule()
      modifies this
      ensures panicked ==> !old(inFrameScheduleLoop) && !old(Safe(Snap(), X))
      ensures !panicked ==> Inv(Snap(), X, U) && Scheduled(old(Snap()), Snap())
      ensures !panicked && old(Busy(Snap())) ==> Snap() == old(Snap()) && Recv() == old(Recv())
      ensures !panicked && old(AtRest(Snap())) ==> AtRest(Snap()) && Settled(Snap()) && (old(Safe(Snap(), X)) ==> Safe(Snap(), X))
      ensures !panicked ==> Passed(old(Recv()), Recv())
      ensures !panicked && Quiet(old(Snap())) ==> Undisturbed(old(Snap()), Snap()) && Recv() == old(Recv())
      decreases if inFrameScheduleLoop then 0 else 1, 0
    {
      hide Passed, Inv, Safe, Later, Scheduled, Settled, Total, OpenSet, Quiet, Undisturbed;
      ghost var s0, r0 := Snap(), Recv();
      ScheduledReflexive(s0);
      PassedSelf(r0);
      if Quiet(s0) { UndisturbedSelf(s0); }
      if writingFrameAsync { AsyncSettled(s0, X); }
      if writingFrame || inFrameScheduleLoop {
        return;
      }
      inFrameScheduleLoop := true;
      FlagsChange(s0, Snap(), X, U);
      FlagsQuiet(s0, Snap());
      ghost var l := Snap();
      WriteAll(X, U);
      if panicked {
        return;
      }
      ghost var t := Snap();
      ScheduledTransitive(s0, l, t);
      if Quiet(s0) { UndisturbedMeans(s0, l); UndisturbedOn(s0, l, t); }
      inFrameScheduleLoop := false;
      FlagsChange(t, Snap(), X, U);
      if Quiet(s0) { UndisturbedMeans(s0, t); FlagsQuiet(t, Snap()); UndisturbedOn(s0, t, Snap()); }
      ScheduledTransitive(s0, t, Snap());
    }

    /** The scheduling loop. */
    method WriteAll(ghost X: set<nat>, ghost U: set<nat>)
      requires !panicked && AtTurn(Snap()) && Inv(Snap(), X, U)
      modifies this
      ensures panicked ==> !old(Safe(Snap(), X))
      ensures !panicked ==> inFrameScheduleLoop && writingFrame == writingFrameAsync && Inv(Snap(), X, U) && Settled(Snap())
      ensures !panicked ==> (old(Safe(Snap(), X)) ==> Safe(Snap(), X)) && Scheduled(old(Snap()), Snap())
      ensures !panicked && Quiet(old(Snap())) ==> Undisturbed(old(Snap()), Snap()) && Recv() == old(Recv())
      ensures !panicked ==> Passed(old(Recv()), Recv())
      decreases if inFrameScheduleLoop then 0 else 1, 20
    {
      hide Passed, Inv, Safe, Later, Scheduled, Settled, Total, OpenSet, Quiet, Undisturbed;
      ghost var s0, r0 := Snap(), Recv();
      ScheduledReflexive(s0);
      PassedSelf(r0);
      if Quiet(s0) { UndisturbedSelf(s0); }
      while !writingFrameAsync
        invariant !panicked && inFrameScheduleLoop && writingFrame == writingFrameAsync
        invariant Inv(Snap(), X, U) && (Safe(s0, X) ==> Safe(Snap(), X)) && Scheduled(s0, Snap())
        invariant Passed(r0, Recv()) && (Quiet(s0) ==> Undisturbed(s0, Snap()) && Recv() == r0)
        decreases if writingFrameAsync then 0 else 1, |streams|, |OpenSet(Snap())|, AckPending(Snap()), Total(queues)
      {
        ghost var s, r := Snap(), Recv();
        var more := Turn(X, U);
        if panicked {
          return;
        }
        PassedOn(r0, r, Recv());
        if Quiet(s0) { UndisturbedMeans(s0, s); UndisturbedOn(s0, s, Snap()); }
        if !more {
          return;
        }
        ScheduledTransitive(s0, s, Snap());
      }
      AsyncSettled(Snap(), X);
    }

    /** One turn of the loop: a GOAWAY or an acknowledgement that is wanted, or else the next frame of the queues,
        or else a flush that is due. */
    method Turn(ghost X: set<nat>, ghost U: set<nat>) returns (more: bool)
      requires !panicked && AtTurn(Snap()) && Inv(Snap(), X, U)
      modifies this
      ensures panicked ==> !old(Safe(Snap(), X))
      ensures !panicked ==> inFrameScheduleLoop && writingFrame == writingFrameAsync && Inv(Snap(), X, U)
      ensures !panicked ==> (old(Safe(Snap(), X)) ==> Safe(Snap(), X)) && Scheduled(old(Snap()), Snap())
      ensures !panicked && !more ==> Snap() == old(Snap()) && Settled(Snap())
      ensures !panicked && more && !writingFrameAsync ==> Below(old(Snap()), Snap(), 1)
      ensures !panicked ==> Passed(old(Recv()), Recv())
      ensures !panicked && Quiet(old(Snap())) ==> Undisturbed(old(Snap()), Snap()) && Recv() == old(Recv())
      decreases if inFrameScheduleLoop then 0 else 1, 13
    {
      hide Passed, Inv, Safe, Later, Scheduled, Poppable, Below, Quiet, Undisturbed;
      ghost var s := Snap();
      ScheduledReflexive(s);
      PassedSelf(Recv());
      if Quiet(s) { UndisturbedSelf(s); }
      if needToSendGoAway {
        needToSendGoAway := false;
        StartControl(Request(GoAway(maxClientStreamID, goAwayCode), 0), s, X, U);
        return true;
      }
      if needToSendSettingsAck {
        needToSendSettingsAck := false;
        StartControl(Request(SettingsAck, 0), s, X, U);
        return true;
      }
      if !inGoAway || goAwayCode == 0 {
        var ok := StartNext(X, U);
        if ok {
          return true;
        }
      }
      if !needsFrameFlush {
        return false;
      }
      StartFlush(X, U);
      return true;
    }

    /** Starts writing the control frame wr, whose flag the loop has just cleared; s is the state before that. */
    method StartControl(wr: Request, ghost s: State, ghost X: set<nat>, ghost U: set<nat>)
      requires wr.stream == 0 && (wr.write.GoAway? || wr.write.SettingsAck? || wr.write.Flush?)
      requires !panicked && AtTurn(s) && Inv(s, X, U) && ClearedBy(s, Snap(), wr)
      modifies this
      ensures !panicked && inFrameScheduleLoop && writingFrame == writingFrameAsync && Inv(Snap(), X, U)
      ensures (Safe(s, X) ==> Safe(Snap(), X)) && Scheduled(s, Snap())
      ensures writingFrameAsync || (wr.write.SettingsAck? && Below(s, Snap(), 1))
      ensures (Quiet(s) ==> Undisturbed(s, Snap())) && Recv() == old(Recv())
      decreases if inFrameScheduleLoop then 0 else 1, 11
    {
      hide Passed, Inv, Safe, Scheduled, Effect, CanStart, Below, Quiet, Undisturbed, WrittenOut;
      ghost var u := Snap();
      ClearedFlags(s, u, wr);
      FlagsChange(s, u, X, U);
      FlagsQuiet(s, u);
      PlainStart(u, wr);
      StartFrameWrite(wr, X, U);
      if Quiet(s) { UndisturbedMeans(s, u); WrittenQuiet(u, Snap(), wr); UndisturbedOn(s, u, Snap()); }
      ClearedTurn(s, u, Snap(), wr, X, U);
      if !writingFrameAsync { AckBelow(s, u, Snap()); }
    }

    /** Flushes what has been written. */
    method StartFlush(ghost X: set<nat>, ghost U: set<nat>)
      requires !panicked && AtTurn(Snap()) && Inv(Snap(), X, U) && !needToSendGoAway
      modifies this
      ensures !panicked && inFrameScheduleLoop && writingFrame && writingFrameAsync && Inv(Snap(), X, U)
      ensures (old(Safe(Snap(), X)) ==> Safe(Snap(), X)) && Scheduled(old(Snap()), Snap())
      ensures (Quiet(old(Snap())) ==> Undisturbed(old(Snap()), Snap())) && Recv() == old(Recv())
      decreases if inFrameScheduleLoop then 0 else 1, 12
    {
      hide Passed, Inv, Safe, Scheduled, Below, Quiet, Undisturbed;
      ghost var s := Snap();
      StartControl(Request(Flush, 0), s, X, U);
      ghost var t := Snap();
      needsFrameFlush := false;
      FlagsChange(t, Snap(), X, U);
      if Quiet(s) { UndisturbedMeans(s, t); FlagsQuiet(t, Snap()); UndisturbedOn(s, t, Snap()); }
      ScheduledTransitive(s, t, Snap());
    }

    /** Takes a frame from the queues, if one may be taken, and starts writing it. */
    method StartNext(ghost X: set<nat>, ghost U: set<nat>) returns (ok: bool)
      requires !panicked && inFrameScheduleLoop && !writingFrame && !writingFrameAsync && !needToSendGoAway && !Mute(Snap())
      requires Inv(Snap(), X, U)
      modifies this
      ensures ok <==> Poppable(old(Snap()))
      ensures panicked ==> !old(Safe(Snap(), X))
      ensures !panicked ==> inFrameScheduleLoop && writingFrame == writingFrameAsync && Inv(Snap(), X, U)
      ensures !panicked ==> (old(Safe(Snap(), X)) ==> Safe(Snap(), X)) && Scheduled(old(Snap()), Snap())
      ensures !ok ==> !panicked && Snap() == old(Snap()) && Recv() == old(Recv())
      ensures ok && !panicked && !writingFrameAsync ==> Below(old(Snap()), Snap(), 1)
      ensures !panicked ==> Passed(old(Recv()), Recv())
      ensures !panicked && Quiet(old(Snap())) ==> Undisturbed(old(Snap()), Snap()) && Recv() == old(Recv())
      decreases if inFrameScheduleLoop then 0 else 1, 11
    {
      hide Passed, Inv, Safe, Later, Scheduled, Effect, CanStart, OnClosed, Ready, Part, Popped, Poppable, Below, Quiet, Undisturbed, Plain, WrittenOut;
      ghost var s := Snap();
      PassedSelf(Recv());
      if Quiet(s) { UndisturbedSelf(s); }
      var wr;
      ghost var id;
      wr, ok, id := Pop(X, U);
      if ok {
        PoppedMayStart(s, id, X, U);
        if Quiet(s) { QuietPop(s, id, X, U); }
        if Safe(s, X) { PoppedCanStart(s, id, X, U); }
        PoppedBelow(s, id, X) by { InvParts(s, X, U); }
        StartFrameWrite(wr, X, U);
        if panicked {
          return;
        }
        if Quiet(s) { UndisturbedMeans(s, Popped(s, id)); WrittenQuiet(Popped(s, id), Snap(), wr); UndisturbedOn(s, Popped(s, id), Snap()); }
        TurnScheduled(s, id, Snap(), X, U);
        if Safe(s, X) { TurnSafe(s, id, Snap(), X, U); }
        if !writingFrameAsync { BelowTransitiveDrop(s, Popped(s, id), Snap()); }
      } else {
        ScheduledReflexive(s);
      }
    }

    /** How many bytes of DATA the stream id may send now. */
    function AllowedNow(id: nat): (a: Int32)
      requires id in records
      reads this
      ensures a == Allowed(Snap(), id)
    {
      var f := records[id].flow;
      var b := if flow < f then flow else f;
      if maxFrameSize < b then maxFrameSize else b
    }

    predicate CanTake(id: nat)
      reads this
      ensures CanTake(id) <==> id in queues && Ready(Snap(), id)
    {
      id in queues && queues[id] != [] &&
      var r := queues[id][0];
      r.Metered() ==> r.stream in records && AllowedNow(r.stream) > 0
    }

    /** Takes a frame from the queues: a control frame if there is one, or else the first frame of any
        stream that may send it. */
    method Pop(ghost X: set<nat>, ghost U: set<nat>) returns (wr: Request, ok: bool, ghost id: nat)
      requires Inv(Snap(), X, U) && !writingFrame
      modifies this`queues, this`records, this`flow, this`acct, this`connAcct
      ensures ok <==> Poppable(old(Snap()))
      ensures !ok ==> Snap() == old(Snap())
      ensures ok ==> Ready(old(Snap()), id) && wr == Part(old(Snap()), id) && Snap() == Popped(old(Snap()), id)
      ensures Inv(Snap(), X, U) && inFrameScheduleLoop == old(inFrameScheduleLoop) && !writingFrame && writingFrameAsync == old(writingFrameAsync)
      ensures ok && QueueOf(old(Snap()), 0) != [] ==> id == 0
    {
      hide Inv;
      ghost var s := Snap();
      InvParts(s, X, U);
      OwnQueue(s, 0, X);
      wr, ok, id := Request(Flush, 0), false, 0;
      var j := 0;
      if 0 !in queues || queues[0] == [] {
        if k :| k in queues && CanTake(k) {
          j := k;
        } else {
          return;
        }
      } else {
        assert queues[0][0] in QueueOf(s, 0);
      }
      PoppedInv(s, j, X, U);
      PartAllowed(s, j, X, U);
      wr := TakeFrom(j);
      ok, id := true, j;
    }

    /** Takes the first frame of the queue id, or the part of it that is allowed. */
    method TakeFrom(id: nat) returns (wr: Request)
      requires Ready(Snap(), id) && acct.Keys == records.Keys && forall k :: k in QueueOf(Snap(), id) ==> k.Metered() ==> k.stream in records
      modifies this`queues, this`records, this`flow, this`acct, this`connAcct
      ensures wr == Part(old(Snap()), id) && Snap() == Popped(old(Snap()), id)
    {
      var r := queues[id][0];
      wr := r;
      var q := queues[id][1..];
      var st := r.stream;
      if r.Metered() {
        var allowed := AllowedNow(st);
        if r.write.n > allowed {
          wr := Request(Data(allowed, false), st);
          q := [Request(Data(r.write.n - allowed, r.write.endStream), st)] + q;
        }
        Pay(st, wr.write.n);
      }
      queues := queues[id := q];
    }

    /** Takes k bytes from both windows. */
    method Pay(st: nat, k: Int32)
      requires 0 < k <= Allowed(Snap(), st) && st in acct
      modifies this`records, this`flow, this`acct, this`connAcct
      ensures Snap() == Paid(old(Snap()), st, k)
    {
      hide Allowed;
      ghost var s := Snap();
      AllowedBounds(s, st);
      records := records[st := records[st].(flow := records[st].flow - k)];
      flow := flow - k;
      acct := acct[st := acct[st].(sent := acct[st].sent + k)];
      connAcct := connAcct.(sent := connAcct.sent + k);
    }

    /** Starts writing wr: here and now if it stays within the buffer, or else on its own. A frame for a stream
        that has closed is a panic; the other panics, for a second frame and for a frame that may not follow the
        end of a stream, cannot be reached. */
    method StartFrameWrite(wr: Request, ghost X: set<nat>, ghost U: set<nat>)
      requires !panicked && inFrameScheduleLoop && !writingFrame && !writingFrameAsync && Inv(Snap(), X, U)
      requires CanStart(Snap(), wr) || OnClosed(Snap(), wr)
      modifies this
      ensures panicked <==> old(OnClosed(Snap(), wr))
      ensures !panicked ==> inFrameScheduleLoop && writingFrame == writingFrameAsync && Inv(Snap(), X, U)
      ensures !panicked ==> Effect(old(Snap()), Snap(), wr)
      ensures panicked || writingFrameAsync || Below(old(Snap()), Snap(), 0)
      ensures !panicked && !StaysWithinBuffer(wr.write, true) && !wr.write.PushPromise? ==> writingFrameAsync
      ensures !panicked ==> Passed(old(Recv()), Recv())
      ensures !panicked && Plain(wr) ==> WrittenOut(old(Snap()), Snap(), wr) && Recv() == old(Recv())
      decreases if inFrameScheduleLoop then 0 else 1, 10
    {
      hide Passed, Inv, Later, Effect, CanStart, Below;
      ghost var s := Snap();
      ghost var r0 := Recv();
      PassedSelf(r0);
      StartFacts(s, wr);
      if CanStart(s, wr) { PlainInert(s, wr); }
      if wr.stream != 0 && wr.stream in records && records[wr.stream].phase.Closed? {
        panicked := true;
        return;
      }
      if wr.write.PushPromise? {
        var ok := AllocatePromisedID(wr, X, U);
        if !ok {
          writingFrameAsync := false;
          return;
        }
      }
      var fits: bool := *;
      if StaysWithinBuffer(wr.write, fits) {
        WriteHere(wr, X, U);
      } else {
        ghost var s1 := Snap();
        Begin(wr, true);
        BegunInv(s1, wr, true, X, U);
        EffectOfWriting(s1, Snap(), wr);
        if wr.write.PushPromise? { EffectTransitive(s, s1, Snap(), wr); }
      }
    }

    method Begin(wr: Request, async: bool)
      modifies this`writingFrame, this`writingFrameAsync, this`needsFrameFlush, this`inFlight
      ensures Snap() == Begun(old(Snap()), wr, async) && writingFrame && writingFrameAsync == async && inFlight == Some(wr)
    {
      writingFrame, writingFrameAsync, needsFrameFlush, inFlight := true, async, true, Some(wr);
    }

    /** Writes a frame that stays within the buffer. */
    method WriteHere(wr: Request, ghost X: set<nat>, ghost U: set<nat>)
      requires !panicked && inFrameScheduleLoop && !writingFrame && !writingFrameAsync && Inv(Snap(), X, U)
      requires CanStart(Snap(), wr) && StaysWithinBuffer(wr.write, true)
      modifies this
      ensures !panicked && inFrameScheduleLoop && !writingFrame && !writingFrameAsync && Inv(Snap(), X, U)
      ensures Effect(old(Snap()), Snap(), wr) && Below(old(Snap()), Snap(), 0) && Passed(old(Recv()), Recv())
      ensures Inert(old(streams), wr) ==> Snap() == Finished(Begun(old(Snap()), wr, false)) && Recv() == old(Recv())
      decreases if inFrameScheduleLoop then 0 else 1, 9
    {
      hide Passed, Inv, Later, Effect, CanStart, Below, OnClosed;
      ghost var s := Snap();
      StartFacts(s, wr);
      Begin(wr, false);
      ghost var t := Snap();
      BegunInv(s, wr, false, X, U);
      BegunBelow(s, wr, false);
      EffectOfWriting(s, t, wr);
      StartedOpen(s, wr, X, U);
      var unread: nat := *;
      WroteFrame(wr, unread, X, U);
      EffectTransitive(s, t, Snap(), wr);
      BelowTransitive(s, t, Snap(), 0);
    }

    /** A frame has been written. Called for a frame that was written on its own, it goes on to schedule
        the next one. unread is how much of the body of its stream has not been read. */
    method WroteFrame(wr: Request, unread: nat, ghost X: set<nat>, ghost U: set<nat>)
      requires !panicked && Inv(Snap(), X, U) && writingFrame && inFlight == Some(wr)
      requires if inFrameScheduleLoop then wr.write.HandlerPanicRST? ==> wr.stream in streams else X == {} && U == {}
      modifies this
      ensures old(inFrameScheduleLoop) ==>
        && !panicked && inFrameScheduleLoop && !writingFrame && !writingFrameAsync
        && Effect(old(Snap()), Snap(), wr) && Below(old(Snap()), Snap(), 0)
      ensures panicked ==> EndPanics(Finished(old(Snap())), wr, unread)
      ensures !old(inFrameScheduleLoop) && wr.write.HandlerPanicRST? && wr.stream !in old(streams) ==> panicked
      ensures !panicked ==> Inv(Snap(), X, U) && Later(old(Snap()), Snap())
      ensures !panicked && !old(inFrameScheduleLoop) ==> AtRest(Snap()) && Settled(Snap())
      ensures !panicked ==> Passed(old(Recv()), Recv())
      ensures old(inFrameScheduleLoop) && Inert(old(streams), wr) ==> Snap() == Finished(old(Snap())) && Recv() == old(Recv())
      decreases if inFrameScheduleLoop then 0 else 1, 8
    {
      hide Quiet, Undisturbed, Passed, Inv, Later, Effect, Below, EndPanics, Written, Settled, Safe, Scheduled;
      ghost var s := Snap();
      FinishedInv(s, X, U);
      FinishedEffect(s, wr);
      EffectLater(s, Finished(s), wr);
      WrittenFacts(s, wr, X, U);
      writingFrame, writingFrameAsync, inFlight := false, false, None;
      ghost var r0 := Recv();
      FinishStream(wr, unread, X, U);
      if panicked {
        return;
      }
      ghost var t, r1 := Snap(), Recv();
      LaterTransitive(s, Finished(s), t);
      SafeNone(t);
      ScheduleFrameWrite(X, U);
      PassedOn(r0, r1, Recv());
      ScheduledLater(t, Snap());
      LaterTransitive(s, t, Snap());
      if s.out.inFrameScheduleLoop {
        EffectTransitive(s, Finished(s), t, wr);
        BelowTransitive(s, Finished(s), t, 0);
      }
    }

    /** What having written wr means for its stream. */
    method FinishStream(wr: Request, unread: nat, ghost X: set<nat>, ghost U: set<nat>)
      requires !panicked && Inv(Snap(), X, U) && !writingFrame && !writingFrameAsync && inFlight == None && Written(Snap(), wr)
      requires if inFrameScheduleLoop then wr.write.HandlerPanicRST? ==> wr.StreamID() in streams else X == {} && U == {}
      modifies this
      ensures old(inFrameScheduleLoop) ==>
        && !panicked && inFrameScheduleLoop && !writingFrame && !writingFrameAsync
        && Effect(old(Snap()), Snap(), wr) && Below(old(Snap()), Snap(), 0)
      ensures panicked ==> EndPanics(old(Snap()), wr, unread)
      ensures wr.write.HandlerPanicRST? && wr.StreamID() !in old(streams) ==> panicked
      ensures !panicked ==> Inv(Snap(), X, U) && Later(old(Snap()), Snap())
      ensures !panicked && !old(inFrameScheduleLoop) ==> AtRest(Snap())
      ensures !panicked ==> Passed(old(Recv()), Recv())
      ensures Inert(old(streams), wr) ==> !panicked && Snap() == old(Snap()) && Recv() == old(Recv())
      decreases if inFrameScheduleLoop then 0 else 1, 7
    {
      hide Passed, Inv, Later, Effect, Below, Settled, AllAfterEnd, Safe, Harmless;
      ghost var f := Snap();
      PassedSelf(Recv());
      SafeNone(f);
      NothingWritten(f, wr);
      var id := wr.StreamID();
      if wr.Ends() {
        if records[id].phase.Open? {
          HalfCloseInv(f, id, X, U);
          WithPhaseLater(f, id, HalfClosedLocal);
          HalfEffect(f, id, wr, X, U);
          records := records[id := records[id].(phase := HalfClosedLocal)];
          SafeNone(Snap());
          ResetStream(id, X, U);
          LaterTransitive(f, WithPhase(f, id, HalfClosedLocal), Snap());
        } else if records[id].phase.HalfClosedRemote? {
          CloseStream(id, unread, X, U);
          if f.out.inFrameScheduleLoop { ShutEffect(f, Snap(), id, wr, X, U); }
        }
      } else if wr.write.StreamError? || wr.write.HandlerPanicRST? {
        if id in streams {
          CloseStream(id, unread, X, U);
          if f.out.inFrameScheduleLoop { ShutEffect(f, Snap(), id, wr, X, U); }
        } else if wr.write.HandlerPanicRST? {
          panicked := true;
        }
      }
    }

    /** Closes a stream that is registered, drops what is queued for it, and gives the connection window
        back what the stream had not read. */
    method CloseStream(id: nat, unread: nat, ghost X: set<nat>, ghost U: set<nat>)
      requires Inv(Snap(), X, U) && id in streams && id in records && MaySchedule() && (inFrameScheduleLoop || X == {})
      modifies this
      ensures panicked ==> !old(inFrameScheduleLoop) && ClosePanics(old(Snap()), id, unread)
      ensures !panicked ==> Inv(Snap(), X, U) && Later(old(Snap()), Snap()) && id in records && records[id].phase.Closed?
      ensures !panicked && old(Busy(Snap())) ==> Shut(old(Snap()), Snap(), id)
      ensures !panicked && old(AtRest(Snap())) ==> AtRest(Snap()) && (old(Settled(Snap())) ==> Settled(Snap()))
      ensures !panicked ==> Passed(old(Recv()), Recv())
      ensures !panicked && Quiet(old(Snap())) ==> Quiet(Snap()) && ClosedQuietly(old(Snap()), Snap(), old(Recv()), Recv(), id, unread)
      decreases if inFrameScheduleLoop then 0 else 1, 6
    {
      hide Passed, Inv, Later, Settled, Safe, Harmless, Scheduled, Shut, Grown, GoneAway, Updated, Unlisted, Dropped, Quiet, Undisturbed, ClosedQuietly, GivenUp, Registry, Windows, Queues, Writing, Marked;
      ghost var s, r := Snap(), Recv();
      CloseFacts(s, id, X, U);
      UnlistedReg(s, id);
      if Quiet(s) { UnlistedQuiet(s, id); }
      var hasBody := records[id].hasBody;
      Unlist(id);
      ghost var v := GiveUp(id, hasBody, unread, X + {id}, U);
      if panicked {
        return;
      }
      if Quiet(s) { GivenUpCloses(s, Snap(), r, Recv(), id, hasBody, unread); }
      DropQueue(id, s, v, X, U);
    }

    /** The last step of closing the stream id; s is the state before the first. */
    method DropQueue(id: nat, ghost s: State, ghost v: State, ghost X: set<nat>, ghost U: set<nat>)
      requires Inv(Snap(), X + {id}, U) && id in s.reg.records && Later(Unlisted(s, id), v) && (Snap() == v || Updated(v, Snap(), 0, X + {id}))
      requires Busy(s) ==> v == Unlisted(s, id) || v == GoneAway(Unlisted(s, id), 0)
      requires AtRest(s) ==> AtRest(v) && (Settled(s) ==> Settled(v))
      modifies this`queues
      ensures Inv(Snap(), X, U) && Later(s, Snap()) && id in records && records[id].phase.Closed?
      ensures Busy(s) ==> Shut(s, Snap(), id)
      ensures AtRest(s) ==> AtRest(Snap()) && (Settled(s) ==> Settled(Snap()))
      ensures (Quiet(old(Snap())) ==> Quiet(Snap())) && Snap() == Dropped(old(Snap()), id)
    {
      hide Inv, Later, Settled, Shut, GoneAway, Updated, Unlisted, Dropped, Quiet, Undisturbed;
      ghost var w := Snap();
      DroppedInv(w, id, X, U);
      CloseEnds(s, id, v, w, X + {id});
      if Quiet(w) { DroppedQuiet(w, id); UndisturbedMeans(w, Dropped(w, id)); }
      queues := queues - {id};
      assert Snap() == Dropped(w, id) by { DroppedIs(w, id, Snap()); }
    }

    /** What follows when the stream id has left the registry; v is the state before its unread bytes are given back. */
    method GiveUp(id: nat, hasBody: bool, unread: nat, ghost X: set<nat>, ghost U: set<nat>) returns (ghost v: State)
      requires Inv(Snap(), X, U) && MaySchedule()
      modifies this
      ensures panicked ==> hasBody && unread > 0 && !old(inFrameScheduleLoop) && !old(Safe(Snap(), X))
      ensures !panicked ==> Inv(Snap(), X, U) && Later(old(Snap()), v) && (v == Snap() || Updated(v, Snap(), 0, X))
      ensures old(Busy(Snap())) ==> v == old(Snap()) || v == GoneAway(old(Snap()), 0)
      ensures old(AtRest(Snap())) ==> AtRest(v) && (old(Settled(Snap())) ==> Settled(v))
      ensures !panicked ==> Passed(old(Recv()), Recv())
      ensures !panicked && Quiet(old(Snap())) ==> Quiet(Snap()) && GivenUp(old(Snap()), Snap(), old(Recv()), Recv(), id, hasBody, unread)
      decreases if inFrameScheduleLoop then 0 else 1, 5, 1
    {
      hide Passed, Inv, Later, Settled, Safe, Scheduled, GoneAway, Updated, Quiet, Undisturbed, Refunded;
      ghost var r0 := Recv();
      ShutDownIfUnused(X, U);
      ghost var r1 := Recv();
      v := Snap();
      if hasBody {
        GiveBackUnread(id, unread, X, U);
        if !panicked {
          PassedOn(r0, r1, Recv());
          if Quiet(v) { UndisturbedMeans(v, Snap()); }
        }
      }
    }

    /** Gives the connection window back what the stream id, which is closing, has not read. */
    method GiveBackUnread(id: nat, unread: nat, ghost X: set<nat>, ghost U: set<nat>)
      requires Inv(Snap(), X, U) && MaySchedule()
      modifies this
      ensures panicked ==> unread > 0 && !old(inFrameScheduleLoop) && !old(Safe(Snap(), X))
      ensures !panicked ==> Inv(Snap(), X, U) && Updated(old(Snap()), Snap(), 0, X)
      ensures !panicked ==> Passed(old(Recv()), Recv()) && twice >= old(twice) + Min(unread, old(InboundOf(id)).buffered)
      ensures !panicked && Quiet(old(Snap())) ==>
        Undisturbed(old(Snap()), Snap()) && Refunded(old(Recv()), Recv(), id, Min(unread, old(InboundOf(id)).buffered))
      decreases if inFrameScheduleLoop then 0 else 1, 5, 0
    {
      hide Passed, Given, Inv, Updated, Safe, Quiet, Undisturbed, Grew, Refunded;
      ghost var s, r := Snap(), Recv();
      var left := LeaveUnread(id, unread);
      ghost var q := Recv();
      SendWindowUpdate(0, left, X, U);
      if panicked {
        return;
      }
      GivenTwice(q, Recv(), left);
      if Quiet(s) { RefundedOf(r, q, Recv(), id, left); }
      twice := twice + left;
      PassedOn(r, q, Recv());
    }

    /** The handler has read what it could by now; of the rest at most unread bytes are left. */
    method LeaveUnread(id: nat, unread: nat) returns (left: nat)
      modifies this`inbound
      ensures left == Min(unread, old(InboundOf(id)).buffered)
      ensures Recv() == Drawn(old(Recv()), id, old(InboundOf(id)).buffered - left) && Passed(old(Recv()), Recv())
    {
      hide Passed;
      var x := InboundOf(id);
      left := if unread < x.buffered then unread else x.buffered;
      DrawnPassed(Recv(), id, x.buffered - left);
      inbound := inbound[id := x.(buffered := left, unnoted := x.unnoted + (x.buffered - left))];
    }

    /** Starts a graceful shutdown when the last stream has gone, if connections are not to be kept. */
    method ShutDownIfUnused(ghost X: set<nat>, ghost U: set<nat>)
      requires Inv(Snap(), X, U) && MaySchedule()
      modifies this
      ensures !panicked && Inv(Snap(), X, U) && Later(old(Snap()), Snap())
      ensures old(Busy(Snap())) ==> Snap() == old(Snap()) || Snap() == GoneAway(old(Snap()), 0)
      ensures old(inFrameScheduleLoop) ==> inFrameScheduleLoop
      ensures old(AtRest(Snap())) ==>
        AtRest(Snap()) && (old(Settled(Snap())) ==> Settled(Snap())) && (old(Safe(Snap(), X)) ==> Safe(Snap(), X))
      ensures Passed(old(Recv()), Recv())
      ensures old(streams) != {} ==> Snap() == old(Snap()) && Recv() == old(Recv())
      ensures Quiet(old(Snap())) ==> LeavesQuietly(old(Snap()), Snap()) && Recv() == old(Recv())
      decreases if inFrameScheduleLoop then 0 else 1, 2
    {
      hide Passed, Inv, Later, Settled, Safe, Quiet;
      LaterReflexive(Snap());
      PassedSelf(Recv());
      var disabled: bool := *;
      if streams == {} && disabled {
        GoAwayIn(0, X, U);
      }
    }

    /** Takes the stream id out of the registry. */
    method Unlist(id: nat)
      requires id in streams && id in records && if id % 2 == 0 then curPushedStreams > 0 else curClientStreams > 0
      modifies this`records, this`streams, this`curPushedStreams, this`curClientStreams
      ensures Snap() == Unlisted(old(Snap()), id)
    {
      records := records[id := records[id].(phase := Closed)];
      if id % 2 == 0 {
        curPushedStreams := curPushedStreams - 1;
      } else {
        curClientStreams := curClientStreams - 1;
      }
      streams := streams - {id};
    }

    /** Starts going away, unless that has begun. */
    method GoAwayIn(code: UInt32, ghost X: set<nat>, ghost U: set<nat>)
      requires Inv(Snap(), X, U) && MaySchedule()
      modifies this
      ensures !panicked && Inv(Snap(), X, U) && Later(old(Snap()), Snap()) && inGoAway
      ensures old(Busy(Snap())) || old(inGoAway) ==> Snap() == GoneAway(old(Snap()), code)
      ensures old(inFrameScheduleLoop) ==> inFrameScheduleLoop
      ensures old(AtRest(Snap())) ==> AtRest(Snap()) && (!old(inGoAway) ==> Settled(Snap()) && Safe(Snap(), X))
      ensures Passed(old(Recv()), Recv())
      ensures Quiet(old(Snap())) ==> LeavesQuietly(old(Snap()), Snap()) && Recv() == old(Recv())
      decreases if inFrameScheduleLoop then 0 else 1, 1
    {
      hide Passed, Inv, Later, Settled, Safe, Scheduled, Quiet, Undisturbed, LeavesQuietly, Registry, Windows, Queues, Writing, Marked;
      ghost var s := Snap();
      GoneAwayLater(s, code);
      GoneAwayInv(s, code, X, U);
      PassedSelf(Recv());
      if Quiet(s) { GoneAwayQuiet(s, code); LeavesSelf(s); }
      if inGoAway {
        return;
      }
      Leave(code);
      ghost var t := Snap();
      ScheduleFrameWrite(X, U);
      if Quiet(s) { Leaves(s, t, Snap()); }
      ScheduledLater(t, Snap());
      ClosedStays(t, Snap(), 0);
      LaterTransitive(s, t, Snap());
    }

    method Leave(code: UInt32)
      requires !inGoAway
      modifies this`inGoAway, this`needToSendGoAway, this`goAwayCode
      ensures Snap() == GoneAway(old(Snap()), code) && Snap().away == Leaving(true, true, code) && Snap() == old(Snap()).(away := Snap().away)
    {
      inGoAway, needToSendGoAway, goAwayCode := true, true, code;
    }

    /** Notes that a reset of the stream has been queued, if the stream is still registered. */
    method MarkReset(id: nat)
      requires streams <= records.Keys
      modifies this`records
      ensures Snap() == Reset(old(Snap()), id)
    {
      if id in streams {
        records := records[id := records[id].(resetQueued := true)];
      }
    }

    /** Resets the stream id. */
    method ResetStream(id: nat, ghost X: set<nat>, ghost U: set<nat>)
      requires id > 0 && Inv(Snap(), X, U + {id}) && MaySchedule() && (inFrameScheduleLoop || X == {})
      modifies this
      ensures !panicked && Inv(Snap(), X, U) && Later(old(Snap()), Snap())
      ensures old(Busy(Snap())) ==> Snap() == Reset(Offer(old(Snap()), Request(StreamError(id), 0)), id)
      ensures old(AtRest(Snap())) ==> AtRest(Snap()) && Settled(Snap())
      ensures Passed(old(Recv()), Recv())
      decreases if inFrameScheduleLoop then 0 else 1, 2
    {
      hide Passed, Inv, Later, Settled, Safe, Scheduled, Ignored;
      ghost var s := Snap();
      SafeNone(s);
      WriteFrame(Request(StreamError(id), 0), X, U + {id});
      ghost var t := Snap();
      InvParts(t, X, U + {id});
      MarkReset(id);
      ResetInv(t, id, X, U);
      ResetLater(t, id, X);
      LaterTransitive(s, t, Snap());
    }

    /** Returns bytes of receive window to the stream st, or to the connection if st is 0. */
    method SendWindowUpdate(st: nat, bytes: nat, ghost X: set<nat>, ghost U: set<nat>)
      requires Inv(Snap(), X, U) && MaySchedule() && (st == 0 || st in records) && HasRoom(st, bytes)
      modifies this
      ensures panicked ==> bytes > 0 && !old(inFrameScheduleLoop) && !old(Safe(Snap(), X))
      ensures !panicked ==> Inv(Snap(), X, U) && Updated(old(Snap()), Snap(), st, X)
      ensures !panicked && bytes > 0 && old(AtRest(Snap())) ==> Settled(Snap())
      ensures !panicked ==> Given(old(Recv()), Recv(), st, bytes)
      ensures !panicked && Quiet(old(Snap())) ==> Undisturbed(old(Snap()), Snap()) && Grew(old(Recv()), Recv())
      decreases if inFrameScheduleLoop then 0 else 1, 4
    {
      hide Inv, Settled, Safe, Updated, Given, Quiet, Undisturbed, Grew;
      ghost var s, r := Snap(), Recv();
      UpdatedReflexive(s, st, X);
      GivenNone(r, st);
      GrewSelf(r);
      if Quiet(s) { UndisturbedSelf(s); }
      var n: nat := bytes;
      while n >= MAX_INT32
        invariant !panicked && Inv(Snap(), X, U) && Updated(s, Snap(), st, X) && n <= bytes && Given(r, Recv(), st, bytes - n)
        invariant Quiet(s) ==> Undisturbed(s, Snap()) && Grew(r, Recv())
        invariant n < bytes && AtRest(s) ==> Settled(Snap())
        decreases n
      {
        ghost var t, q := Snap(), Recv();
        UpdatedMaySchedule(s, t, st, X);
        GivenRoom(r, q, st, bytes - n);
        SendWindowUpdate32(st, MAX_INT32, X, U);
        if panicked {
          return;
        }
        UpdatedTransitive(s, t, Snap(), st, X);
        GivenOn(r, q, Recv(), st, bytes - n, MAX_INT32);
        if Quiet(s) { UndisturbedMeans(s, t); UndisturbedOn(s, t, Snap()); GrewOn(r, q, Recv()); }
        n := n - MAX_INT32;
      }
      ghost var t, q := Snap(), Recv();
      UpdatedMaySchedule(s, t, st, X);
      GivenRoom(r, q, st, bytes - n);
      SendWindowUpdate32(st, n, X, U);
      if panicked {
        return;
      }
      UpdatedTransitive(s, t, Snap(), st, X);
      GivenOn(r, q, Recv(), st, bytes - n, n);
      if Quiet(s) { UndisturbedMeans(s, t); UndisturbedOn(s, t, Snap()); GrewOn(r, q, Recv()); }
    }

    /** The window of the stream st takes n bytes more; that of the connection may refuse them. */
    predicate HasRoom(st: nat, n: nat)
      reads this`inbound
    {
      st > 0 ==> 0 <= InboundOf(st).inflow && InboundOf(st).inflow + n <= MAX_INT32
    }

    /** Hands over a window update for the stream st, or for the connection if st is 0. */
    method OfferUpdate(st: nat, n: Int32, ghost X: set<nat>, ghost U: set<nat>)
      requires n > 0 && Inv(Snap(), X, U) && MaySchedule() && (st == 0 || st in records)
      modifies this
      ensures panicked ==> !old(inFrameScheduleLoop) && !old(Safe(Snap(), X))
      ensures !panicked ==> Inv(Snap(), X, U) && Updated(old(Snap()), Snap(), st, X)
      ensures !panicked && old(AtRest(Snap())) ==> Settled(Snap())
      ensures !panicked ==> Passed(old(Recv()), Recv())
      ensures !panicked && Quiet(old(Snap())) ==> Undisturbed(old(Snap()), Snap()) && Recv() == old(Recv())
      decreases if inFrameScheduleLoop then 0 else 1, 2
    {
      hide Passed, Inv, Settled, Safe, Scheduled, Offer, Updated, Later, Quiet, Undisturbed;
      ghost var s := Snap();
      UpdatedReflexive(s, st, X);
      var wr := Request(WindowUpdate(n), st);
      UpdateScheduled(s, wr, X) by { InvParts(s, X, U); }
      OfferFlags(s, wr);
      OfferGrown(s, wr);
      WriteFrame(wr, X, U);
      if panicked {
        return;
      }
      ScheduledTransitive(s, Offer(s, wr), Snap());
      UpdatedMade(s, Snap(), st, X);
    }

    /** One window update. That the window refuses it is a panic, which comes after the frame has been handed over. */
    method SendWindowUpdate32(st: nat, n: Int32, ghost X: set<nat>, ghost U: set<nat>)
      requires n >= 0 && Inv(Snap(), X, U) && MaySchedule() && (st == 0 || st in records) && HasRoom(st, n)
      modifies this
      ensures panicked ==> n > 0 && !old(inFrameScheduleLoop) && !old(Safe(Snap(), X))
      ensures !panicked ==> Inv(Snap(), X, U) && Updated(old(Snap()), Snap(), st, X)
      ensures n == 0 ==> Snap() == old(Snap()) && Recv() == old(Recv())
      ensures !panicked && n > 0 && old(AtRest(Snap())) ==> Settled(Snap())
      ensures !panicked ==> Given(old(Recv()), Recv(), st, n)
      ensures !panicked && Quiet(old(Snap())) ==> Undisturbed(old(Snap()), Snap()) && (n > 0 ==> Recv() == Credited(old(Recv()), st, n)) && Grew(old(Recv()), Recv())
      decreases if inFrameScheduleLoop then 0 else 1, 3
    {
      hide Inv, Settled, Safe, Updated, Given, Passed, Quiet, Undisturbed, Credited, Grew;
      ghost var r := Recv();
      UpdatedReflexive(Snap(), st, X);
      GivenNone(r, st);
      GrewSelf(r);
      if Quiet(Snap()) { UndisturbedSelf(Snap()); }
      if n == 0 {
        return;
      }
      OfferUpdate(st, n, X, U);
      if panicked {
        return;
      }
      GivenCredit(r, Recv(), st, n);
      GrewCredited(Recv(), st, n);
      Credit(st, n);
    }

    /** st.inflow.add, or sc.inflow.add if st is 0. */
    method Credit(st: nat, n: Int32)
      modifies this`inflow, this`inbound, this`overCredited, this`balance
      ensures Recv() == Credited(old(Recv()), st, n)
    {
      hide Accepts, Grow;
      var ok;
      if st == 0 {
        ok := Accepts(inflow, n);
        inflow := Grow(inflow, n);
        balance := balance + n;
      } else {
        var x := InboundOf(st);
        ok := Accepts(x.inflow, n);
        inbound := inbound[st := x.(inflow := Grow(x.inflow, n))];
      }
      if !ok {
        overCredited := true;
      }
    }

    /** Takes the number for a stream the server is about to promise, and makes the stream; fails if the
        client allows no more of them or the numbers have run out. */
    method AllocatePromisedID(wr: Request, ghost X: set<nat>, ghost U: set<nat>) returns (ok: bool)
      requires !panicked && inFrameScheduleLoop && !writingFrame && !writingFrameAsync && Inv(Snap(), X, U)
      requires wr.write.PushPromise? && CanStart(Snap(), wr)
      modifies this
      ensures !panicked && inFrameScheduleLoop && !writingFrame && !writingFrameAsync && Inv(Snap(), X, U)
      ensures Effect(old(Snap()), Snap(), wr) && CanStart(Snap(), wr)
      ensures ok ==> Snap() == Made(old(Snap()), old(maxPushPromiseID) + 2, HalfClosedRemote, false)
      ensures ok <==> old(pushEnabled) && old(curPushedStreams) < old(clientMaxStreams) && old(maxPushPromiseID) + 2 < 0x8000_0000
      ensures !ok ==> Below(old(Snap()), Snap(), 0)
      ensures Passed(old(Recv()), Recv())
      decreases if inFrameScheduleLoop then 0 else 1, 2
    {
      hide Passed, Inv, Later, Effect, CanStart, Below, Registry, Windows, Queues, Writing, Marked;
      PassedSelf(Recv());
      ghost var s := Snap();
      PushUnmade(s, wr);
      InvParts(s, X, U);
      CountersFit(s);
      WindowKeys(s);
      if !pushEnabled {
        return false;
      }
      if WrapU32(curPushedStreams + 1) > clientMaxStreams {
        return false;
      }
      if WrapU32(maxPushPromiseID + 2) >= 0x8000_0000 {
        GoAwayIn(0, X, U);
        PushUnmadeAway(s, wr);
        return false;
      }
      PushMade(s, wr, X, U);
      Promise();
      return true;
    }

    /** Makes the stream with the next number of the server's. */
    method Promise()
      requires 0 <= maxPushPromiseID && maxPushPromiseID + 2 < 0x8000_0000 && maxPushPromiseID % 2 == 0 && maxPushPromiseID + 2 !in records
      requires initialWindowSize >= 0 && 0 <= curClientStreams < 0x4000_0001 && 0 <= curPushedStreams < 0x4000_0001
      modifies this`maxPushPromiseID, this`records, this`streams, this`acct, this`curPushedStreams, this`curClientStreams
      ensures Snap() == Made(old(Snap()), old(maxPushPromiseID) + 2, HalfClosedRemote, false)
    {
      maxPushPromiseID := WrapU32(maxPushPromiseID + 2);
      NewStream(maxPushPromiseID, HalfClosedRemote, false);
    }

    /** Registers a stream under a number that its initiator has just reached. */
    method NewStream(id: nat, phase: Phase, hasBody: bool)
      requires 0 < id < 0x8000_0000 && id !in records && initialWindowSize >= 0
      requires 0 <= curClientStreams < 0x4000_0001 && 0 <= curPushedStreams < 0x4000_0001
      requires id == if id % 2 == 0 then maxPushPromiseID else maxClientStreamID
      modifies this`records, this`streams, this`acct, this`curPushedStreams, this`curClientStreams
      ensures Snap() == Made(old(Snap()), id, phase, hasBody)
    {
      hide Accepts, Grow, Counted;
      FirstWindow(initialWindowSize);
      ghost var s := Snap();
      var window := Grow(0, initialWindowSize);
      records := records[id := Stream(phase, window, hasBody, false, false, false)];
      streams := streams + {id};
      acct := acct[id := Account(initialWindowSize, 0, 0)];
      assert Snap() == s.(reg := s.reg.(records := records, streams := streams), win := s.win.(acct := acct));
      Count(id);
    }

    /** Counts the stream for its initiator. */
    method Count(id: nat)
      requires 0 < id < 0x8000_0000
      requires 0 <= curClientStreams < 0x4000_0001 && 0 <= curPushedStreams < 0x4000_0001
      requires id == if id % 2 == 0 then maxPushPromiseID else maxClientStreamID
      modifies this`curPushedStreams, this`curClientStreams
      ensures Snap() == old(Snap()).(reg := Counted(old(Snap()).reg, id))
    {
      if id % 2 == 0 {
        curPushedStreams := curPushedStreams + 1;
      } else {
        curClientStreams := curClientStreams + 1;
      }
    }

    // ---- Receiving frames

    /** Between two events the invariants hold. */
    ghost predicate Sane()
      reads this
    {
      !panicked && Inv(Snap(), {}, {}) && AtRest(Snap())
    }

    /** st.flow.add: the window of the stream grows unless that is refused. */
    method AddToStream(id: nat, k: Int32) returns (ok: bool)
      requires Inv(Snap(), {}, {}) && id in records && k > 0
      modifies this`records, this`acct
      ensures ok <==> Accepts(old(records[id].flow), k)
      ensures !refused ==> (ok <==> 0 <= old(records[id].flow) && old(records[id].flow) + k <= MAX_INT32)
      ensures Snap() == if ok then Granted(old(Snap()), id, k) else old(Snap())
      ensures Inv(Snap(), {}, {}) && Later(old(Snap()), Snap())
    {
      hide Inv, Later, Accepts, Wrap32;
      LaterReflexive(Snap());
      StreamAdds(Snap(), id, k);
      ok := Accepts(records[id].flow, k);
      if ok {
        records := records[id := records[id].(flow := Wrap32(records[id].flow + k))];
        acct := acct[id := acct[id].(accepted := acct[id].accepted + k)];
      }
    }

    /** sc.flow.add: the window of the connection grows unless that is refused. */
    method AddToConn(k: Int32) returns (ok: bool)
      requires Inv(Snap(), {}, {}) && k > 0
      modifies this`flow, this`connAcct
      ensures ok <==> old(flow) + k <= MAX_INT32
      ensures Snap() == if ok then ConnGranted(old(Snap()), k) else old(Snap())
      ensures Inv(Snap(), {}, {}) && Later(old(Snap()), Snap())
    {
      hide Inv, Later, Accepts, Wrap32;
      LaterReflexive(Snap());
      ConnAdds(Snap(), k);
      ok := Accepts(flow, k);
      if ok {
        flow := Wrap32(flow + k);
        connAcct := connAcct.(accepted := connAcct.accepted + k);
      }
    }

    /** A window update adds to the send window of a stream or of the connection, unless the sum exceeds
        the limit; a negative window accepts nothing. */
    method ProcessWindowUpdate(id: nat, increment: Int32) returns (p: Problem)
      requires Sane() && increment > 0
      modifies this
      ensures p.OfStream? ==> p.id == id && id > 0
      ensures !panicked && Inv(Snap(), {}, p.Streams()) && AtRest(Snap()) && Kept(old(Snap()), Snap())
      ensures id > 0 && id in old(streams) && id in old(records) && !old(refused) ==>
        (p.Fine? <==> 0 <= old(records[id].flow) && old(records[id].flow) + increment <= MAX_INT32)
      ensures id == 0 ==> (p.Fine? <==> old(flow) + increment <= MAX_INT32)
      ensures id > 0 && id !in old(streams) ==> p == if PhaseOf(old(Snap()), id).Idle? then OfConnection(PROTOCOL) else Fine
      ensures p.Fine? || p == if id == 0 then OfConnection(FLOW_CONTROL) else if id in old(streams) then OfStream(id, FLOW_CONTROL) else OfConnection(PROTOCOL)
      ensures !p.Fine? ==> Snap() == old(Snap())
      ensures Passed(old(Recv()), Recv())
    {
      hide Passed, Inv, Settled, Later, Scheduled, Granted, ConnGranted, Registry, Windows, Queues, Writing, Marked, Accepts, Wrap32;
      PassedSelf(Recv());
      ghost var s := Snap();
      InvParts(s, {}, {});
      LaterReflexive(s);
      RegisteredNotIdle(s, id);
      MoreExempt(s, {id});
      var ok: bool;
      if id != 0 {
        if StateOf(id).Idle? {
          return OfConnection(PROTOCOL);
        }
        if id !in streams {
          return Fine;
        }
        ok := AddToStream(id, increment);
        if !ok {
          return OfStream(id, FLOW_CONTROL);
        }
      } else {
        ok := AddToConn(increment);
        if !ok {
          return OfConnection(FLOW_CONTROL);
        }
      }
      Reschedule(s);
      return Fine;
    }

    /** Schedules frames at the end of an event that began in state s. */
    method Reschedule(ghost s: State)
      requires Sane() && Later(s, Snap())
      modifies this
      ensures Sane() && Settled(Snap()) && Later(s, Snap()) && Scheduled(old(Snap()), Snap())
      ensures Quiet(old(Snap())) ==> Undisturbed(old(Snap()), Snap()) && Recv() == old(Recv())
      ensures Passed(old(Recv()), Recv())
    {
      hide Passed, Inv, Settled, Later, Scheduled, Quiet, Undisturbed;
      ghost var t := Snap();
      SafeNone(t);
      ScheduleFrameWrite({}, {});
      ScheduledLater(t, Snap());
      LaterTransitive(s, t, Snap());
    }

    /** The client resets a stream, of whose body unread bytes have not been read. */
    method ProcessResetStream(id: nat, unread: nat) returns (p: Problem)
      requires Sane()
      modifies this
      ensures panicked ==> id in old(streams) && ClosePanics(old(Snap()), id, unread) && !old(Settled(Snap()))
      ensures !p.OfStream?
      ensures !panicked ==> Sane() && Kept(old(Snap()), Snap())
      ensures !panicked ==> (p.Fine? <==> !PhaseOf(old(Snap()), id).Idle?) && (p.Fine? ==> PhaseOf(Snap(), id).Closed?)
      ensures !panicked ==> Passed(old(Recv()), Recv())
      ensures !panicked && old(Settled(Snap())) && id in old(streams) ==> ClosedQuietly(old(Snap()), Snap(), old(Recv()), Recv(), id, unread)
      ensures !panicked && old(Settled(Snap())) ==> twice == old(twice) + old(UnreadOf(id, unread))
    {
      hide Passed, Inv, Settled, Later, Harmless, Quiet, ClosedQuietly;
      PassedSelf(Recv());
      ghost var s := Snap();
      InvParts(s, {}, {});
      LaterReflexive(s);
      RegisteredNotIdle(s, id);
      if StateOf(id).Idle? {
        return OfConnection(PROTOCOL);
      }
      if id in streams {
        if Settled(s) {
          SettledHarmless(s, id);
          SettledQuiet(s);
        }
        ghost var r := Recv();
        CloseStream(id, unread, {}, {});
        if panicked {
          return Fine;
        }
        if Settled(s) { ClosedTwice(s, Snap(), r, Recv(), id, unread); }
      }
      InvParts(Snap(), {}, {});
      return Fine;
    }

    /** What the stream id would give back if it closed now. */
    function UnreadOf(id: nat, unread: nat): nat
      reads this
    {
      if id in streams && id in records && records[id].hasBody then Min(unread, InboundOf(id).buffered) else 0
    }

    method ProcessPing(ack: bool, id: nat) returns (p: Problem)
      requires Sane()
      modifies this
      ensures Sane() && Kept(old(Snap()), Snap()) && !p.OfStream?
      ensures Passed(old(Recv()), Recv())
    {
      hide Passed, Inv, Settled, Later, Scheduled;
      PassedSelf(Recv());
      ghost var s := Snap();
      LaterReflexive(s);
      if ack {
        return Fine;
      }
      if id != 0 {
        return OfConnection(PROTOCOL);
      }
      if inGoAway && goAwayCode != 0 {
        return Fine;
      }
      SafeNone(s);
      WriteFrame(Request(PingAck, 0), {}, {});
      return Fine;
    }

    method ProcessPriority(id: nat, dependsOn: nat) returns (p: Problem)
      requires Sane()
      ensures p == if !inGoAway && id == dependsOn then OfStream(id, PROTOCOL) else Fine
    {
      if inGoAway {
        return Fine;
      }
      return CheckPriority(id, dependsOn);
    }

    method ProcessGoAway()
      requires Sane()
      modifies this
      ensures Sane() && Kept(old(Snap()), Snap()) && inGoAway && !pushEnabled
      ensures Passed(old(Recv()), Recv())
    {
      hide Passed, Inv, Settled, Later;
      GoAwayIn(0, {}, {});
      pushEnabled := false;
    }

    // ---- Settings

    /** One setting. One that is bad does nothing; a new initial size that some window refuses has not reached the
        streams todo. */
    method ProcessSetting(x: Setting) returns (p: Problem, ghost todo: set<nat>)
      requires Sane()
      modifies this
      ensures Sane() && !p.OfStream? && Later(old(Snap()), Snap())
      ensures SettingDone(old(Snap()), Snap(), x, p.Fine?, todo)
      ensures pushEnabled == if p.Fine? && x.EnablePush? then x.val == 1 else old(pushEnabled)
      ensures clientMaxStreams == if p.Fine? && x.MaxConcurrentStreams? then x.val else old(clientMaxStreams)
      ensures Recv() == old(Recv())
    {
      hide Inv, Later, Resizing, AllAccept;
      p, todo := x.Check(), {};
      LaterReflexive(Snap());
      if p != Fine {
        return;
      }
      match x {
        case EnablePush(v) => pushEnabled := v != 0;
        case MaxConcurrentStreams(v) => clientMaxStreams := v;
        case InitialWindowSize(v) => p, todo := ProcessSettingInitialWindowSize(v);
        case MaxFrameSize(v) =>
          FrameSizeInv(Snap(), v);
          maxFrameSize := v;
        case OtherSetting(_) =>
      }
    }

    /** st.flow.add, for a change of the initial size to val. */
    method MoveWindow(id: nat, growth: Int32, val: Int32) returns (ok: bool)
      requires id in records && id in acct
      modifies this`records, this`acct
      ensures ok <==> Accepts(old(records[id].flow), growth)
      ensures Snap() == if ok then Moved(old(Snap()), id, growth, val) else old(Snap())
    {
      hide Accepts, Wrap32;
      ok := Accepts(records[id].flow, growth);
      if ok {
        records := records[id := records[id].(flow := Wrap32(records[id].flow + growth))];
        acct := acct[id := acct[id].(base := val)];
      }
    }

    /** Every send window moves by the change of the initial size. Succeeds if and only if no window is
        negative and none would exceed the limit. When it does not succeed, the current initial size no
        longer explains the windows of all streams, unless the size does not change at all. */
    method ProcessSettingInitialWindowSize(val: Int32) returns (p: Problem, ghost todo: set<nat>)
      requires Sane() && val >= 0
      modifies this`records, this`acct, this`initialWindowSize, this`refused
      ensures Sane() && Later(old(Snap()), Snap())
      ensures p.Fine? || p == OfConnection(FLOW_CONTROL)
      ensures p.Fine? <==> AllAccept(old(Snap()), val)
      ensures Resizing(old(Snap()), Snap().(win := Snap().win.(refused := old(refused))), todo, val)
      ensures if p.Fine? then todo == {} else exists id :: id in todo && id in streams
      ensures p.Fine? && !old(refused) ==> !refused && AllMoved(old(Snap()), Snap(), val)
      ensures !old(refused) ==> (AllBased(Snap()) <==> p.Fine? || val == old(initialWindowSize))
    {
      hide Inv, Later, Resizing, Accepts, Resized, Wrap32, AllMoved, AllAccept, AllBased, Growth, Registry, Windows, Queues, Writing, Marked;
      ghost var s := Snap();
      InvParts(s, {}, {});
      RegistryKeys(s);
      var before := initialWindowSize;
      initialWindowSize := val;
      var growth := Wrap32(initialWindowSize - before);
      ResizingBegins(s, val);
      GrowthIs(s, val);
      var ok;
      ok, todo := MoveWindows(growth, val, s);
      if !ok {
        return OfConnection(FLOW_CONTROL), todo;
      }
      ResizingDone(s, Snap(), val);
      return Fine, {};
    }

    /** Moves one window after the other, in any order, until one refuses; s is the state before. */
    method MoveWindows(growth: Int32, val: Int32, ghost s: State) returns (ok: bool, ghost todo: set<nat>)
      requires Inv(s, {}, {}) && val >= 0 && growth == Growth(s, val) && streams == s.reg.streams && streams <= s.reg.records.Keys
      requires s.win.acct.Keys == s.reg.records.Keys && refused == s.win.refused && Resizing(s, Snap(), streams, val)
      modifies this`records, this`acct, this`refused
      ensures Resizing(s, Snap().(win := Snap().win.(refused := s.win.refused)), todo, val)
      ensures if ok then todo == {} && refused == s.win.refused else exists id :: id in todo && id in streams
      ensures !ok ==> Inv(Snap(), {}, {}) && Later(s, Snap()) && !AllAccept(s, val)
      ensures !ok && !s.win.refused ==> (AllBased(Snap()) <==> val == s.win.initialWindowSize)
    {
      hide Inv, Later, Resizing, Accepts, Resized, Wrap32, Moved, AllAccept, AllBased, Growth;
      var left := streams;
      todo := left;
      while left != {}
        invariant left <= streams && todo == left && refused == s.win.refused && Resizing(s, Snap(), left, val)
      {
        var id :| id in left;
        ResizingStep(s, Snap(), left, val, id);
        ok := MoveWindow(id, growth, val);
        if !ok {
          ResizingStops(s, Snap(), left, val, id);
          refused := true;
          return;
        }
        left := left - {id};
        todo := left;
      }
      return true, {};
    }

    /** The settings take effect one after the other; the first that is refused, settings[k], stops the rest. mid
        is the state after them, before anything is sent. */
    method ProcessSettings(ack: bool, settings: seq<Setting>) returns (p: Problem, ghost k: nat, ghost moved: set<nat>, ghost mid: State)
      requires Sane()
      modifies this
      ensures Sane() && !p.OfStream? && Later(old(Snap()), Snap())
      ensures p.Fine? && !ack ==> Settled(Snap())
      ensures ack ==> Snap() == old(Snap())
      ensures !ack && p.Fine? ==> FirstRefused(old(Snap()), settings, |settings|) && Applied(old(Snap()), mid, settings, |settings|, {})
      ensures !ack && p.Fine? ==> Scheduled(mid.(out := mid.out.(needToSendSettingsAck := true)), Snap())
      ensures !ack && !p.Fine? ==> Stopped(old(Snap()), settings, k, moved) && Applied(old(Snap()), Snap(), settings, k, moved)
      ensures !ack && p.Fine? && Quiet(mid) ==> Undisturbed(mid, Snap()) && Recv() == old(Recv())
      ensures Passed(old(Recv()), Recv())
    {
      hide Passed, Inv, Later, Settled, Applied, FirstRefused, Stopped, Scheduled, Quiet, Undisturbed;
      PassedSelf(Recv());
      ghost var s := Snap();
      LaterReflexive(s);
      p, k, moved, mid := Fine, 0, {}, s;
      if ack {
        unackedSettings := unackedSettings - 1;
        if unackedSettings < 0 {
          p := OfConnection(PROTOCOL);
        }
        return;
      }
      p, k, moved := ApplySettings(settings);
      if p != Fine {
        return;
      }
      mid := Snap();
      AckInv(mid);
      OweAck();
      ghost var t := Snap();
      LaterTransitive(s, mid, t);
      FlagsQuiet(mid, t);
      Reschedule(s);
      if Quiet(mid) { UndisturbedMeans(mid, t); UndisturbedOn(mid, t, Snap()); }
      p := Fine;
    }

    method OweAck()
      modifies this`needToSendSettingsAck
      ensures Snap() == old(Snap()).(out := old(Snap()).out.(needToSendSettingsAck := true))
    {
      needToSendSettingsAck := true;
    }

    method ApplySettings(settings: seq<Setting>) returns (p: Problem, ghost k: nat, ghost moved: set<nat>)
      requires Sane()
      modifies this
      ensures Sane() && !p.OfStream? && Later(old(Snap()), Snap()) && Recv() == old(Recv())
      ensures p.Fine? ==> FirstRefused(old(Snap()), settings, |settings|) && Applied(old(Snap()), Snap(), settings, |settings|, {})
      ensures !p.Fine? ==> Stopped(old(Snap()), settings, k, moved) && Applied(old(Snap()), Snap(), settings, k, moved)
    {
      hide Inv, Later, Applied, SettingDone, SizeAfter, TakesEffect, Stopped, AtRest;
      ghost var s := Snap();
      LaterReflexive(s);
      p, k, moved := Fine, 0, {};
      AppliedNone(s, settings);
      assert s.reg.streams <= s.reg.records.Keys by { InvParts(s, {}, {}); RegistryKeys(s); }
      for i := 0 to |settings|
        invariant Sane() && Later(s, Snap()) && Recv() == old(Recv())
        invariant Applied(s, Snap(), settings, i, {}) && Snap().win.initialWindowSize == SizeAfter(s.win.initialWindowSize, settings[..i])
        invariant forall j :: 0 <= j < i ==> TakesEffect(s, settings[..j], settings[j])
      {
        ghost var t := Snap();
        ghost var todo;
        p, todo := ProcessSetting(settings[i]);
        LaterTransitive(s, t, Snap());
        SettingApplied(s, t, Snap(), settings, i, p.Fine?, todo);
        if p != Fine {
          k, moved := i, Reached(s, settings[i], todo, false);
          return;
        }
      }
      p := Fine;
    }

    // ---- Headers and data

    /** A header block opens a stream, or carries the trailers of one that is open. */
    method ProcessHeaders(f: Frame) returns (p: Problem)
      requires Sane() && f.HeadersFrame? && f.Framed()
      modifies this
      ensures p.OfStream? ==> p.id == f.id
      ensures panicked <==> !old(inGoAway) && f.id % 2 == 1 && !old(TrailersHaveBody(f))
      ensures !panicked ==> Inv(Snap(), {}, p.Streams()) && AtRest(Snap()) && Kept(old(Snap()), Snap())
      ensures old(inGoAway) ==> p.Fine? && Snap() == old(Snap())
      ensures !old(inGoAway) && (f.id % 2 == 0 || (f.id !in old(streams) && f.id <= old(maxClientStreamID))) ==>
        p == OfConnection(PROTOCOL) && Snap() == old(Snap())
      ensures !old(inGoAway) && f.id % 2 == 1 && f.id > old(maxClientStreamID) && f.id !in old(streams) ==>
        && maxClientStreamID == f.id && streams == old(streams) + (if old(curClientStreams) < advMaxStreams then {f.id} else {})
        && (p.Fine? <==> Opens(old(Snap()), f)) && (p.Fine? ==> Snap() == Opened(old(Snap()), f))
      ensures !panicked ==> Recv() == old(Recv())
    {
      hide Inv, Later, Settled, Registry, Windows, Queues, Writing, Marked;
      ghost var s := Snap();
      InvParts(s, {}, {});
      LaterReflexive(s);
      RegisteredNotIdle(s, f.id);
      if inGoAway {
        return Fine;
      }
      if f.id % 2 != 1 {
        return OfConnection(PROTOCOL);
      }
      if f.id in streams {
        if records[f.id].resetQueued {
          return Fine;
        }
        p := ProcessTrailerHeaders(f);
        RegisteredBelow(s, f.id);
        return;
      }
      if f.id <= maxClientStreamID {
        return OfConnection(PROTOCOL);
      }
      p := ProcessNewHeaders(f);
    }

    /** A header block with a number above all the client has used: it opens a stream if one more is allowed. */
    method ProcessNewHeaders(f: Frame) returns (p: Problem)
      requires Sane() && f.HeadersFrame? && f.Framed() && f.id % 2 == 1 && f.id > maxClientStreamID
      modifies this
      ensures p.OfStream? ==> p.id == f.id
      ensures !panicked && Inv(Snap(), {}, p.Streams()) && AtRest(Snap()) && Kept(old(Snap()), Snap())
      ensures maxClientStreamID == f.id && streams == old(streams) + (if old(curClientStreams) < advMaxStreams then {f.id} else {})
      ensures (p.Fine? <==> Opens(old(Snap()), f)) && (p.Fine? ==> Snap() == Opened(old(Snap()), f))
      ensures Recv() == old(Recv())
    {
      hide Inv, Later, Settled, Made;
      ghost var s := Snap();
      CountersFit(s) by { InvParts(s, {}, {}); }
      SkippedInv(s, f.id);
      maxClientStreamID := f.id;
      if WrapU32(curClientStreams + 1) > advMaxStreams {
        return OfStream(f.id, if unackedSettings == 0 then PROTOCOL else REFUSED_STREAM);
      }
      p := OpenClientStream(f, s);
    }

    /** The stream without a body yet. */
    method RegisterStream(id: nat, phase: Phase, ghost s: State)
      requires Inv(s, {}, {}) && id % 2 == 1 && Fresh(s, id) && s.reg.curClientStreams < s.reg.advMaxStreams && (phase.Open? || phase.HalfClosedRemote?)
      requires Snap() == s.(reg := s.reg.(maxClientStreamID := id))
      modifies this`records, this`streams, this`acct, this`curPushedStreams, this`curClientStreams
      ensures Snap() == Made(s, id, phase, false) && Inv(Snap(), {}, {id}) && Kept(s, Snap())
      ensures id in records && records[id].phase == phase && streams == s.reg.streams + {id}
    {
      hide Inv, Later, Settled, Registry, Windows, Queues, Writing, Marked;
      InvParts(s, {}, {});
      CountersFit(s);
      WindowKeys(s);
      FreshUnknown(s, id);
      MadeInv(s, id, phase, false, {}, {});
      MadeLater(s, id, phase, false);
      NewStream(id, phase, false);
      assert {} + {id} == {id};
      WeakerExempt(Snap(), if phase.Open? then {id} else {}, {id});
    }

    /** Registers the stream that a header block opens; s is the state before its number was noted. */
    method OpenClientStream(f: Frame, ghost s: State) returns (p: Problem)
      requires !panicked && f.HeadersFrame? && f.Framed() && f.id % 2 == 1 && Inv(s, {}, {}) && AtRest(s)
      requires Fresh(s, f.id) && s.reg.curClientStreams < s.reg.advMaxStreams
      requires Snap() == s.(reg := s.reg.(maxClientStreamID := f.id))
      modifies this
      ensures p.OfStream? ==> p.id == f.id
      ensures !panicked && Inv(Snap(), {}, p.Streams()) && AtRest(Snap()) && Kept(s, Snap())
      ensures maxClientStreamID == f.id && streams == s.reg.streams + {f.id}
      ensures (p.Fine? <==> Opens(s, f)) && (p.Fine? ==> Snap() == Opened(s, f))
      ensures Recv() == old(Recv())
    {
      hide Inv, Later, Settled;
      RegisterStream(f.id, if f.ended then HalfClosedRemote else Open, s);
      ghost var t := Snap();
      if f.priority.Some? {
        p := CheckPriority(f.id, f.priority.value);
        if p != Fine {
          return;
        }
      }
      if f.refusedRequest {
        return OfStream(f.id, PROTOCOL);
      }
      if !f.ended {
        GiveBody(f.id);
        LaterTransitive(s, t, Snap());
      }
      NeedsNoReset(Snap(), f.id);
      return Fine;
    }

    method GiveBody(id: nat)
      requires id in records && Inv(Snap(), {}, {id})
      modifies this`records
      ensures id in old(records) && Snap() == WithBody(old(Snap()), id) && id in records && records[id] == old(records[id]).(hasBody := true)
      ensures Inv(Snap(), {}, {id}) && Later(old(Snap()), Snap()) && (Settled(old(Snap())) ==> Settled(Snap()))
    {
      hide Inv, Later, Settled;
      ghost var t := Snap();
      RecordChange(t, WithBody(t, id), id, t.reg.records[id].(hasBody := true), {id});
      records := records[id := records[id].(hasBody := true)];
    }

    /** Trailers are looked at only once, and end the request; that it has no body is a panic. */
    method ProcessTrailerHeaders(f: Frame) returns (p: Problem)
      requires Sane() && f.HeadersFrame? && f.id in streams && f.id in records && !records[f.id].resetQueued
      modifies this
      ensures panicked <==> !old(TrailersHaveBody(f))
      ensures p.OfStream? ==> p.id == f.id
      ensures !panicked ==> Inv(Snap(), {}, p.Streams()) && AtRest(Snap()) && Kept(old(Snap()), Snap())
      ensures !panicked ==> inGoAway == old(inGoAway) && streams == old(streams) && maxClientStreamID == old(maxClientStreamID)
      ensures !panicked ==> (p.Fine? <==> f.ended && !f.badTrailers && !old(records[f.id].gotTrailerHeader))
      ensures !panicked && p.Fine? ==> records[f.id].phase.HalfClosedRemote?
      ensures Recv() == old(Recv())
    {
      hide Inv, Later, Settled;
      ghost var s := Snap();
      LaterReflexive(s);
      if records[f.id].gotTrailerHeader {
        return OfConnection(PROTOCOL);
      }
      RecordChange(s, Trailed(s, f.id), f.id, s.reg.records[f.id].(gotTrailerHeader := true), {});
      records := records[f.id := records[f.id].(gotTrailerHeader := true)];
      ghost var t := Snap();
      MoreExempt(t, {f.id});
      if !f.ended || f.badTrailers {
        return OfStream(f.id, PROTOCOL);
      }
      EndStream(f.id);
      if !panicked { LaterTransitive(s, t, Snap()); }
      return Fine;
    }

    /** The client has sent all it will send on the stream. A stream without a body has nowhere to note that. */
    method EndStream(id: nat)
      requires Sane() && id in streams && id in records
      modifies this`records, this`panicked
      ensures panicked <==> !old(records[id].hasBody)
      ensures !panicked ==> Sane() && Kept(old(Snap()), Snap()) && Snap() == WithPhase(old(Snap()), id, HalfClosedRemote)
    {
      hide Inv, Later, Settled;
      EndedInv(Snap(), id);
      EndedLater(Snap(), id);
      if !records[id].hasBody {
        panicked := true;
        return;
      }
      records := records[id := records[id].(phase := HalfClosedRemote)];
    }

    /** Trailers that end a request are for a stream that has a body. */
    predicate TrailersHaveBody(f: Frame)
      requires f.HeadersFrame?
      reads this
    {
      f.id in streams && f.id in records && !records[f.id].resetQueued && !records[f.id].gotTrailerHeader && f.ended && !f.badTrailers
      ==> records[f.id].hasBody
    }

    /** DATA is refused or buffered; its last frame ends the request. */
    method ProcessData(f: Frame) returns (p: Problem)
      requires Sane() && !overCredited && f.DataFrame? && f.Framed()
      modifies this
      ensures p.OfStream? ==> p.id == f.id
      ensures !panicked && Inv(Snap(), {}, p.Streams()) && AtRest(Snap()) && Kept(old(Snap()), Snap())
      ensures old(Mute(Snap())) ==> p.Fine? && Snap() == old(Snap())
      ensures !old(Mute(Snap())) && PhaseOf(old(Snap()), f.id).Idle? ==> p == OfConnection(PROTOCOL) && Snap() == old(Snap())
      ensures !old(Mute(Snap())) && PhaseOf(old(Snap()), f.id).Closed? ==> p.OfStream?
      ensures p.Fine? && f.ended && old(TakesData(f.id)) && old(Settled(Snap())) ==> PhaseOf(Snap(), f.id).HalfClosedRemote?
      ensures old(TakesData(f.id)) && old(Sound(Recv())) ==>
        (p.Fine? <==> !f.tooLong && (f.length > 0 ==> f.length <= Min(old(InboundOf(f.id).inflow), old(inflow)) && !(f.dataLength > 0 && f.writeFails)))
      ensures old(Sound(Recv())) ==> Sound(Recv())
      ensures Arrived(old(Recv()), Recv(), f.id, f.length, f.dataLength, old(TakesData(f.id)) && p.Fine?, old(TakesData(f.id)) && LostData(f, old(Recv())))
      ensures old(TakesData(f.id)) && old(Sound(Recv())) && Fits(old(Recv()), f) ==> p.Fine? && Snap() == old(Snap()) && Recv() == Filled(old(Recv()), f.id, f.length)
    {
      hide ServerConn.LostData, Registry, Windows, Queues, Writing, Marked, Inv, Later, Settled, Kept, Updated, Scheduled, Calm, Passed, Arrived, Sound;
      ghost var s, r := Snap(), Recv();
      InvParts(s, {}, {});
      KeptSelf(s);
      RegisteredNotIdle(s, f.id);
      NothingArrived(r, r, f.id, f.length, f.dataLength) by { PassedSelf(r); }
      if inGoAway && goAwayCode != 0 {
        return Fine;
      }
      if f.id == 0 || StateOf(f.id).Idle? {
        return OfConnection(PROTOCOL);
      }
      var known := f.id in streams;
      if !known || !records[f.id].phase.Open? || records[f.id].gotTrailerHeader || records[f.id].resetQueued {
        p := RefuseData(f, known);
        NothingArrived(r, Recv(), f.id, f.length, f.dataLength);
        return;
      }
      OpenHasBody(s, f.id);
      MoreExempt(s, {f.id});
      p := TakeData(f);
      if p.Fine? {
        EndData(f, s);
      }
    }

    /** The last DATA frame ends the request; s was the state before it. If the stream has gone while its padding
        was returned, only its dead record would be marked. */
    method EndData(f: Frame, ghost s: State)
      requires Sane() && f.DataFrame? && Kept(s, Snap()) && f.id in records && records[f.id].hasBody
      modifies this`records, this`panicked
      ensures Sane() && Kept(s, Snap())
      ensures f.ended && f.id in old(streams) ==> PhaseOf(Snap(), f.id).HalfClosedRemote?
      ensures !f.ended ==> Snap() == old(Snap())
    {
      hide Inv, Later, Settled, Kept;
      ghost var t := Snap();
      InvParts(t, {}, {});
      if f.ended && f.id in streams {
        EndStream(f.id);
        KeptOn(s, t, Snap());
        RegisteredNotIdle(Snap(), f.id) by { InvParts(Snap(), {}, {}); }
      }
    }

    /** DATA for a stream that takes it: the windows and the buffer. */
    method TakeData(f: Frame) returns (p: Problem)
      requires Sane() && !overCredited && f.DataFrame? && f.Framed() && TakesData(f.id) && records[f.id].hasBody
      modifies this
      ensures p.Fine? || (p.OfStream? && p.id == f.id)
      ensures Sane() && Kept(old(Snap()), Snap()) && (!p.Fine? ==> Snap() == old(Snap()))
      ensures f.id in records && records[f.id].hasBody
      ensures old(Settled(Snap())) ==> f.id in streams && records[f.id].phase == old(records[f.id].phase)
      ensures old(Sound(Recv())) ==>
        (p.Fine? <==> !f.tooLong && (f.length > 0 ==> f.length <= Min(old(InboundOf(f.id).inflow), old(inflow)) && !(f.dataLength > 0 && f.writeFails)))
      ensures old(Sound(Recv())) ==> Sound(Recv())
      ensures Arrived(old(Recv()), Recv(), f.id, f.length, f.dataLength, p.Fine?, LostData(f, old(Recv())))
      ensures old(Sound(Recv())) && Fits(old(Recv()), f) ==> p.Fine? && Snap() == old(Snap()) && Recv() == Filled(old(Recv()), f.id, f.length)
    {
      hide Inv, Later, Settled, Kept, Sound, Arrived, Taken, Credits;
      ghost var s, r := Snap(), Recv();
      KeptSelf(s);
      if Sound(r) { SoundMeans(r, f.id); }
      NothingArrived(r, r, f.id, f.length, f.dataLength) by { PassedSelf(r); }
      if f.tooLong {
        return OfStream(f.id, STREAM_CLOSED);
      }
      if f.length > 0 {
        var x := InboundOf(f.id);
        var available := if inflow < x.inflow then inflow else x.inflow;
        if available < f.length {
          return OfStream(f.id, FLOW_CONTROL);
        }
        TakeWindow(f.id, f.length);
        if f.dataLength > 0 && f.writeFails {
          lost := lost + f.length;
          DataLost(r, Recv(), f.id, f.length, f.dataLength);
          return OfStream(f.id, STREAM_CLOSED);
        }
        BufferData(f, r);
      } else {
        EmptyArrived(r, f.id);
      }
      return Fine;
    }

    /** Buffers the data that has been taken from the windows and gives its padding back; r is what was received before. */
    method BufferData(f: Frame, ghost r: Receiving)
      requires Sane() && f.DataFrame? && f.Framed() && f.id in streams && f.id in records && records[f.id].hasBody
      requires !r.over && f.length <= r.inflow && f.length <= r.Of(f.id).inflow && Recv() == Taken(r, f.id, f.length)
      modifies this
      ensures Sane() && Kept(old(Snap()), Snap()) && f.id in records && records[f.id].hasBody
      ensures old(Settled(Snap())) ==> f.id in streams && records[f.id].phase == old(records[f.id].phase)
      ensures Arrived(r, Recv(), f.id, f.length, f.dataLength, true, false) && (Sound(r) ==> Sound(Recv()))
      ensures f.length == f.dataLength ==> Snap() == old(Snap()) && Recv() == Filled(r, f.id, f.length)
    {
      hide Inv, Later, Settled, Kept, Sound, Arrived, Taken, Credits;
      KeptSelf(Snap());
      TakenOf(r, f.id, f.length);
      var x := InboundOf(f.id);
      inbound := inbound[f.id := x.(buffered := x.buffered + f.dataLength)];
      ghost var q := Recv();
      if f.length > f.dataLength {
        ReturnPadding(f.id, f.length - f.dataLength);
      } else {
        PaddingNone(q, f.id);
      }
      DataBuffered(r, q, Recv(), f.id, f.length, f.dataLength);
    }

    /** st.inflow.take, and with it sc.inflow.take; only the latter if st is 0. */
    method TakeWindow(st: nat, n: nat)
      requires n <= inflow && (st > 0 ==> n <= InboundOf(st).inflow)
      modifies this`inflow, this`inbound, this`balance
      ensures Recv() == Taken(old(Recv()), st, n)
    {
      inflow, balance := inflow - n, balance - n;
      if st != 0 {
        var x := InboundOf(st);
        inbound := inbound[st := x.(inflow := x.inflow - n)];
      }
    }

    /** The buffer of the stream is closed, and what has been taken from the windows for it is gone. */
    predicate LostData(f: Frame, r: Receiving)
      requires f.DataFrame?
    {
      !f.tooLong && f.length > 0 && f.length <= Min(r.Of(f.id).inflow, r.inflow) && f.dataLength > 0 && f.writeFails
    }

    /** What the connection's window loses to a frame: the data of DATA that is taken, and all of it if the buffer
        takes none. */
    function Absorbed(f: Frame): nat
      reads this
    {
      if !f.DataFrame? || !TakesData(f.id) || f.tooLong || f.length > Min(InboundOf(f.id).inflow, inflow) then 0
      else if f.dataLength > 0 && f.writeFails then f.length
      else f.dataLength
    }

    /** DATA on the stream id is received and goes to the handler. */
    predicate TakesData(id: nat)
      reads this
      ensures TakesData(id) <==> Takes(Snap(), id)
    {
      && !(inGoAway && goAwayCode != 0)
      && id in streams && id in records && records[id].phase.Open? && !records[id].gotTrailerHeader && !records[id].resetQueued
    }

    /** DATA for a stream that takes none still counts against the connection's receive window, which gets it back. */
    method RefuseData(f: Frame, known: bool) returns (p: Problem)
      requires Sane() && !overCredited && f.DataFrame? && f.Framed() && (known ==> f.id in records)
      modifies this
      ensures p.OfStream? ==> p.id == f.id
      ensures !panicked && Inv(Snap(), {}, p.Streams()) && AtRest(Snap()) && Kept(old(Snap()), Snap())
      ensures p.Fine? ==> known && f.id in records && records[f.id].resetQueued
      ensures !p.OfConnection?
      ensures Passed(old(Recv()), Recv())
    {
      hide Inv, Later, Settled, Updated, Scheduled, Passed, Given, Counts;
      ghost var s, r := Snap(), Recv();
      LaterReflexive(s);
      PassedSelf(r);
      MoreExempt(s, {f.id});
      if inflow < f.length {
        return OfStream(f.id, FLOW_CONTROL);
      }
      SafeNone(s);
      TakeWindow(0, f.length);
      SendWindowUpdate(0, f.length, {}, {});
      TakenBack(r, Recv(), f.length);
      ghost var t := Snap();
      UpdatedMeans(s, t, 0, {});
      ScheduledLater(s, t);
      ScheduledKeys(s, t);
      MoreExempt(t, {f.id});
      if known && records[f.id].resetQueued {
        return Fine;
      }
      return OfStream(f.id, STREAM_CLOSED);
    }

    /** Padding is given back at once, to the connection and to the stream. On a connection that was settled the
        stream keeps its phase. */
    method ReturnPadding(id: nat, pad: Int32)
      requires Sane() && id in streams && id in records && pad > 0 && id > 0 && HasRoom(id, pad)
      modifies this
      ensures Sane() && Kept(old(Snap()), Snap())
      ensures id in records && (old(records[id].hasBody) ==> records[id].hasBody)
      ensures old(Settled(Snap())) ==> id in streams && records[id].phase == old(records[id].phase)
      ensures Credits(old(Recv()), Recv(), pad, id, pad)
    {
      hide Inv, Later, Settled, Updated, Scheduled, Calm, Safe, Given, Credits;
      ghost var s, r := Snap(), Recv();
      SafeNone(s);
      SendWindowUpdate32(0, pad, {}, {});
      ghost var t, q := Snap(), Recv();
      UpdatedMaySchedule(s, t, 0, {});
      UpdatedPhase(s, t, 0, id);
      GivenConn(r, q, pad, id);
      SendWindowUpdate32(id, pad, {}, {});
      GivenBoth(r, q, Recv(), pad, id, pad);
      ghost var u := Snap();
      UpdatedMaySchedule(t, u, id, {});
      UpdatedPhase(t, u, id, id);
      UpdatedMeans(s, t, 0, {});
      UpdatedMeans(t, u, id, {});
      ScheduledTransitive(s, t, u);
      ScheduledLater(s, u);
      StillRegistered(s, id) by { InvParts(s, {}, {}); }
      StillRegistered(u, id) by { InvParts(u, {}, {}); }
    }

    /** A handler has read n bytes of a request: the client may send as much again. The connection gets them back
        even if it got them back when the stream closed. */
    method NoteBodyRead(id: nat, n: nat)
      requires Sane() && id in records && id > 0 && n <= InboundOf(id).unnoted && Sound(Recv())
      modifies this
      ensures Sane() && Kept(old(Snap()), Snap()) && Sound(Recv())
      ensures Recv().balance == old(Recv().balance) + n + (Recv().twice - old(Recv().twice))
      ensures old(Settled(Snap())) ==> Undisturbed(old(Snap()), Snap()) && Told(old(Recv()), Recv(), id, n)
    {
      hide Inv, Later, Settled, Credits, Sound, Quiet, Undisturbed, Grew, Kept, Told;
      ghost var r := Recv();
      inbound := inbound[id := InboundOf(id).(unnoted := InboundOf(id).unnoted - n)];
      ghost var q := Recv();
      NotedRoom(r, q, id, n);
      ghost var m := GiveBackRead(id, n);
      NotedSound(r, q, Recv(), id, n, m);
      if Grew(q, Recv()) { NotedTold(r, q, Recv(), id, n, m); }
    }

    /** n bytes for the connection, and m of them for the stream id. */
    method GiveBackRead(id: nat, n: nat) returns (ghost m: nat)
      requires Sane() && id in records && id > 0 && HasRoom(id, n)
      modifies this
      ensures Sane() && Kept(old(Snap()), Snap()) && m <= n && Credits(old(Recv()), Recv(), n, id, m)
      ensures old(Settled(Snap())) ==> Undisturbed(old(Snap()), Snap()) && Grew(old(Recv()), Recv())
    {
      hide Inv, Later, Settled, Updated, Scheduled, Safe, Given, Credits, Quiet, Undisturbed, Grew;
      ghost var s, q := Snap(), Recv();
      SafeNone(s);
      if Settled(s) { SettledQuiet(s); }
      SendWindowUpdate(0, n, {}, {});
      ghost var t, w := Snap(), Recv();
      GivenConn(q, w, n, id);
      UpdatedMaySchedule(s, t, 0, {});
      UpdatedMeans(s, t, 0, {});
      ScheduledLater(s, t);
      ScheduledKeys(s, t);
      m := 0;
      if !records[id].phase.HalfClosedRemote? && !records[id].phase.Closed? {
        GiveStream(id, n, s, q);
        m := n;
      }
    }

    /** n bytes for the stream id, after the connection has got them; s and q describe the state before that. */
    method GiveStream(id: nat, n: nat, ghost s: State, ghost q: Receiving)
      requires Sane() && id in records && id > 0 && HasRoom(id, n) && Scheduled(s, Snap()) && (Settled(s) ==> Settled(Snap()))
      requires Given(q, Recv(), 0, n) && (Settled(s) ==> Undisturbed(s, Snap()) && Grew(q, Recv()))
      modifies this
      ensures Sane() && Kept(s, Snap()) && Credits(q, Recv(), n, id, n)
      ensures Settled(s) ==> Undisturbed(s, Snap()) && Grew(q, Recv())
    {
      hide Inv, Later, Settled, Updated, Scheduled, Safe, Given, Credits, Quiet, Undisturbed, Grew;
      ghost var t, w := Snap(), Recv();
      SafeNone(t);
      if Settled(t) { SettledQuiet(t); }
      SendWindowUpdate(id, n, {}, {});
      GivenBoth(q, w, Recv(), n, id, n);
      UpdatedMeans(t, Snap(), id, {});
      ScheduledTransitive(s, t, Snap());
      ScheduledLater(s, Snap());
      if Settled(s) {
        UndisturbedOn(s, t, Snap());
        GrewOn(q, w, Recv());
      }
    }

    /** A handler takes n bytes out of the buffer of its request. */
    method DrawBody(id: nat, n: nat)
      requires n <= InboundOf(id).buffered
      modifies this`inbound
      ensures Recv() == Drawn(old(Recv()), id, n) && Passed(old(Recv()), Recv())
    {
      hide Passed;
      DrawnPassed(Recv(), id, n);
      var x := InboundOf(id);
      inbound := inbound[id := x.(buffered := x.buffered - n, unnoted := x.unnoted + n)];
    }

    /** A handler wants to push: the promise is queued on the stream that asked, if it still can be. */
    method StartPush(parent: nat) returns (queued: bool)
      requires Sane() && parent in records && (records[parent].phase.Closed? || NotEnded(Snap(), parent))
      modifies this
      ensures Sane() && Kept(old(Snap()), Snap())
      ensures queued <==> old(pushEnabled) && (old(records[parent].phase).Open? || old(records[parent].phase).HalfClosedRemote?)
      ensures Passed(old(Recv()), Recv())
    {
      hide Passed, Inv, Later, Settled, Scheduled, NotEnded;
      PassedSelf(Recv());
      ghost var s := Snap();
      LaterReflexive(s);
      if !records[parent].phase.Open? && !records[parent].phase.HalfClosedRemote? {
        return false;
      }
      if !pushEnabled {
        return false;
      }
      KnownStream(s, parent) by { InvParts(s, {}, {}); }
      SafeNone(s);
      WriteFrame(Request(PushPromise, parent), {}, {});
      return true;
    }

    // ---- The serve loop

    method ProcessFrame(f: Frame, unread: nat) returns (p: Problem, ghost k: nat, ghost moved: set<nat>)
      requires Sane() && f.Framed()
      requires !overCredited
      modifies this
      ensures panicked ==> FramePanics(old(Snap()), f, unread)
      ensures f.HeadersFrame? && old(sawFirstSettings) && FramePanics(old(Snap()), f, unread) ==> panicked
      ensures !panicked ==> Inv(Snap(), {}, p.Streams()) && AtRest(Snap()) && Later(old(Snap()), Snap())
      ensures !panicked && old(Settled(Snap())) ==> Settled(Snap()) || (f.SettingsFrame? && !f.ack && p.OfConnection?)
      ensures !panicked && f.SettingsFrame? && !f.ack && p.OfConnection? ==>
        Stopped(old(Snap()), f.settings, k, moved) && Applied(old(Snap()), Snap(), f.settings, k, moved)
      ensures p.OfStream? ==> p.id > 0 && !f.RSTStreamFrame?
      ensures !old(sawFirstSettings) && !f.SettingsFrame? ==> p == OfConnection(PROTOCOL) && !panicked && Snap() == old(Snap())
      ensures !panicked && old(Sound(Recv())) ==> Sound(Recv())
      ensures !panicked && old(Sound(Recv())) ==> Recv().balance - Recv().twice == old(Recv().balance - Recv().twice) - old(if sawFirstSettings then Absorbed(f) else 0)
      ensures !panicked && !f.DataFrame? ==> Passed(old(Recv()), Recv())
      ensures !panicked && f.RSTStreamFrame? && old(Settled(Snap())) ==> twice == old(twice) + old(if sawFirstSettings then UnreadOf(f.id, unread) else 0)
      ensures f.SettingsFrame? && !f.ack ==> p.OfConnection? || (p.Fine? && FirstRefused(old(Snap()), f.settings, |f.settings|))
    {
      hide Inv, Later, Settled, ClosePanics, Stopped, FirstRefused, Applied, Passed, Sound;
      ghost var r := Recv();
      LaterReflexive(Snap());
      PassedSelf(Recv());
      k, moved := 0, {};
      if !sawFirstSettings {
        if !f.SettingsFrame? {
          return OfConnection(PROTOCOL), k, moved;
        }
        sawFirstSettings := true;
      }
      match f {
        case SettingsFrame(ack, settings) =>
          ghost var mid;
          p, k, moved, mid := ProcessSettings(ack, settings);
        case HeadersFrame(_, _, _, _, _) => p := ProcessNumbered(f);
        case WindowUpdateFrame(id, n) => p := ProcessNumbered(f);
        case PingFrame(ack, id) => p := ProcessPing(ack, id);
        case DataFrame(_, _, _, _, _, _) => p := ProcessNumbered(f);
        case RSTStreamFrame(id) => p := ProcessResetStream(id, unread);
        case PriorityFrame(id, dependsOn) =>
          p := ProcessPriority(id, dependsOn);
          MoreExempt(Snap(), {id});
        case GoAwayFrame =>
          ProcessGoAway();
          p := Fine;
        case PushPromiseFrame => p := OfConnection(PROTOCOL);
        case UnknownFrame => p := Fine;
      }
      if !panicked && !f.DataFrame? { PassedMeans(r, Recv()); }
    }

    /** The frame kinds that can make a stream's reset necessary. */
    method ProcessNumbered(f: Frame) returns (p: Problem)
      requires Sane() && f.Framed() && (f.HeadersFrame? || f.WindowUpdateFrame? || f.DataFrame?)
      requires !overCredited
      modifies this
      ensures panicked <==> f.HeadersFrame? && HeadersPanic(old(Snap()), f)
      ensures !panicked ==> Inv(Snap(), {}, p.Streams()) && AtRest(Snap()) && Kept(old(Snap()), Snap())
      ensures p.OfStream? ==> p.id > 0
      ensures !panicked && old(Sound(Recv())) ==> Sound(Recv())
      ensures !panicked && old(Sound(Recv())) ==> Recv().balance - Recv().twice == old(Recv().balance - Recv().twice) - old(Absorbed(f))
      ensures !panicked && !f.DataFrame? ==> Passed(old(Recv()), Recv())
    {
      hide Inv, Later, Settled, Arrived, Sound, Passed;
      PassedSelf(Recv());
      match f {
        case HeadersFrame(_, _, _, _, _) => p := ProcessHeaders(f);
        case WindowUpdateFrame(id, n) => p := ProcessWindowUpdate(id, n);
        case DataFrame(_, _, _, _, _, _) =>
          ghost var r, takes := Recv(), TakesData(f.id);
          p := ProcessData(f);
          ArrivedMeans(r, Recv(), f.id, f.length, f.dataLength, takes && p.Fine?, takes && LostData(f, r));
          return;
      }
      if !panicked { PassedMeans(old(Recv()), Recv()); }
    }

    /** A frame has been read: what is wrong with it costs its stream or the connection. stalled tells that
        SETTINGS were refused when the connection was already going away, which nothing follows up; the
        connection is then settled if and only if the settings before the refused one, and the windows that had
        moved, free no frame. */
    method ProcessFrameFromReader(f: Frame, unread: nat) returns (stalled: bool, ghost k: nat, ghost moved: set<nat>)
      requires Sane() && f.Framed()
      requires !overCredited
      modifies this
      ensures panicked ==> FramePanics(old(Snap()), f, unread)
      ensures f.HeadersFrame? && old(sawFirstSettings) && FramePanics(old(Snap()), f, unread) ==> panicked
      ensures !panicked ==> Sane() && Later(old(Snap()), Snap())
      ensures !panicked && !stalled && old(Settled(Snap())) ==> Settled(Snap())
      ensures stalled ==> f.SettingsFrame? && !f.ack && old(inGoAway) && Stopped(old(Snap()), f.settings, k, moved)
      ensures stalled && old(Settled(Snap())) ==> (Settled(Snap()) <==> StaysSettled(old(Snap()), f.settings, k, moved))
      ensures !panicked && old(Sound(Recv())) ==> Sound(Recv())
      ensures !panicked && old(Sound(Recv())) ==> Recv().balance - Recv().twice == old(Recv().balance - Recv().twice) - old(if sawFirstSettings then Absorbed(f) else 0)
      ensures !panicked && !f.DataFrame? ==> Passed(old(Recv()), Recv())
      ensures !panicked && f.RSTStreamFrame? && old(Settled(Snap())) ==> twice == old(twice) + old(if sawFirstSettings then UnreadOf(f.id, unread) else 0)
      ensures f.SettingsFrame? && !f.ack && old(inGoAway) ==> stalled || panicked || FirstRefused(old(Snap()), f.settings, |f.settings|)
    {
      hide Inv, Later, Settled, FramePanics, Poppable, Frees, Stopped, FirstRefused, Applied, Sound, Passed;
      ghost var s, r := Snap(), Recv();
      var p;
      stalled := false;
      p, k, moved := ProcessFrame(f, unread);
      if !panicked {
        if f.SettingsFrame? && !f.ack && p.OfConnection? {
          StoppedAfter(s, Snap(), f.settings, k, moved);
          stalled := inGoAway;
        }
        ghost var q := Recv();
        FollowUp(p, s, stalled);
        PassedMeans(q, Recv());
        if Passed(r, q) { PassedOn(r, q, Recv()); }
      }
    }

    /** What is wrong with a frame costs its stream or the connection; s is the state before the frame. */
    method FollowUp(p: Problem, ghost s: State, ghost idle: bool)
      requires !panicked && Inv(Snap(), {}, p.Streams()) && AtRest(Snap()) && Later(s, Snap()) && (p.OfStream? ==> p.id > 0)
      requires idle ==> p.OfConnection? && inGoAway
      modifies this
      ensures Sane() && Later(s, Snap()) && Passed(old(Recv()), Recv())
      ensures idle ==> Snap() == old(Snap())
      ensures old(Settled(Snap())) && !p.OfStream? ==> Recv() == old(Recv())
      ensures old(Settled(Snap())) || (p.OfConnection? && !old(inGoAway)) || p.OfStream? ==> Settled(Snap())
    {
      hide Inv, Later, Settled, Passed, Quiet, LeavesQuietly;
      ghost var t := Snap();
      PassedSelf(Recv());
      assert {} + p.Streams() == p.Streams();
      if Settled(t) { SettledQuiet(t); }
      match p {
        case Fine =>
        case OfStream(id, _) => ResetStream(id, {}, {});
        case OfConnection(code) => GoAwayIn(code, {}, {});
      }
      if p != Fine { LaterTransitive(s, t, Snap()); }
    }

    /** No frame of the handler's has ended the stream yet. */
    predicate MayWriteOn(id: nat)
      reads this
      ensures MayWriteOn(id) ==> NotEnded(Snap(), id)
    {
      && id in records && !records[id].phase.HalfClosedLocal?
      && (id in queues ==> forall r :: r in queues[id] ==> !r.Ends())
      && (inFlight.Some? && inFlight.value.stream == id ==> !inFlight.value.Ends())
    }

    /** A frame could not be read. The loop ends (gone) unless that costs only a stream, or is answered by going away. */
    method ProcessReadFailure(e: ReadFailure) returns (gone: bool)
      requires Sane() && (e.BadStream? ==> e.id > 0)
      modifies this
      ensures Sane() && Kept(old(Snap()), Snap()) && Passed(old(Recv()), Recv())
      ensures gone <==> e.ClientGone? || e.OtherFailure?
      ensures gone ==> Snap() == old(Snap())
      ensures e.TooLarge? || e.BadConnection? ==> inGoAway
    {
      hide Inv, Later, Settled;
      LaterReflexive(Snap());
      PassedSelf(Recv());
      match e {
        case TooLarge => GoAwayIn(FRAME_SIZE, {}, {});
        case BadStream(id, _) =>
          MoreExempt(Snap(), {id});
          assert {} + {id} == {id};
          ResetStream(id, {}, {});
        case BadConnection(code) => GoAwayIn(code, {}, {});
        case _ => return true;
      }
      gone := false;
    }

    /** The event e can happen now: handlers stop writing after the end of their response, frames are as the
        framer makes them, a frame that has been written was being written, and what is read has arrived. */
    predicate MayHappen(e: Event)
      reads this
    {
      match e
      case Handler(wr) =>
        wr.Queueable() && wr.stream in records
        && (records[wr.stream].phase.Closed? || wr.AfterEnd() || (wr.write.Continue100? && records[wr.stream].wroteHeaders) || MayWriteOn(wr.stream))
      case Push(parent) => parent in records && (records[parent].phase.Closed? || MayWriteOn(parent))
      case Received(f, _) => f.Framed()
      case ReadFailed(f) => f.BadStream? ==> f.id > 0
      case Draw(id, n) => n <= InboundOf(id).buffered
      case BodyRead(id, n) => id in records && id > 0 && n <= InboundOf(id).unnoted
      case Shutdown => true
      case FrameDone(_) => writingFrameAsync && inFlight.Some?
    }

    /** What an event by itself gives the connection's window, and takes from it if negative. */
    function Change(e: Event): int
      reads this
    {
      if e.BodyRead? then e.n
      else if e.Received? && sawFirstSettings then 0 - Absorbed(e.f)
      else 0
    }

    /** What an event gives a settled connection: the bytes read, or what the stream that is reset had not read. */
    function Returned(e: Event): nat
      reads this
    {
      match e
      case BodyRead(_, n) => n
      case Received(RSTStreamFrame(id), unread) =>
        if sawFirstSettings then UnreadOf(id, unread) else 0
      case _ => 0
    }

    /** Handles one event. It ends in a panic if it is one of those that EventPanics describes, or if and only if
        the connection has been given back more than its window takes: to what the event itself gives comes what the
        streams that it closes had not read. */
    method Handle(e: Event) returns (stalled: bool, gone: bool, ghost k: nat, ghost moved: set<nat>)
      requires Sane() && !overCredited && Sound(Recv()) && MayHappen(e)
      modifies this
      ensures panicked ==> EventPanics(old(Snap()), e)
      ensures !panicked ==> Sane() && Later(old(Snap()), Snap())
      ensures !panicked && !stalled && old(Settled(Snap())) ==> Settled(Snap())
      ensures stalled ==> e.Received? && e.f.SettingsFrame? && !e.f.ack && old(inGoAway) && Stopped(old(Snap()), e.f.settings, k, moved)
      ensures stalled && old(Settled(Snap())) ==> (Settled(Snap()) <==> StaysSettled(old(Snap()), e.f.settings, k, moved))
      ensures gone ==> e.ReadFailed? && Snap() == old(Snap())
      ensures !panicked ==> Sound(Recv()) && Recv().balance == old(Recv().balance) + old(Change(e)) + (Recv().twice - old(Recv().twice))
      ensures !panicked ==> (overCredited <==> old(Change(e)) + (Recv().twice - old(Recv().twice)) > MAX_INT32 - old(inflow))
      ensures !panicked && old(Settled(Snap())) && (e.BodyRead? || (e.Received? && e.f.RSTStreamFrame?)) ==>
        (overCredited <==> old(Returned(e)) > MAX_INT32 - old(inflow))
      ensures !panicked && e.Received? && e.f.SettingsFrame? && !e.f.ack && old(inGoAway) ==> stalled || FirstRefused(old(Snap()), e.f.settings, |e.f.settings|)
    {
      hide Inv, Later, Settled, Scheduled, Safe, FramePanics, EndPanics, Passed, Bounded, StaysSettled, Stopped, FirstRefused;
      ghost var s, r := Snap(), Recv();
      SafeNone(s);
      stalled, gone, k, moved := false, false, 0, {};
      match e {
        case Handler(wr) =>
          ClosedIsIgnored(s, wr);
          WriteFrame(wr, {}, {});
        case Push(parent) => var _ := StartPush(parent);
        case Received(f, unread) => stalled, k, moved := ProcessFrameFromReader(f, unread);
        case ReadFailed(f) => gone := ProcessReadFailure(f);
        case Draw(id, n) =>
          LaterReflexive(s);
          DrawBody(id, n);
        case BodyRead(id, n) => NoteBodyRead(id, n);
        case Shutdown => GoAwayIn(0, {}, {});
        case FrameDone(unread) => WroteFrame(inFlight.value, unread, {}, {});
      }
      if !panicked && !e.BodyRead? && !(e.Received? && e.f.DataFrame?) {
        PassedMeans(r, Recv());
      }
    }

    /** The connection is going away, and everything has been said. */
    predicate AllSaid()
      reads this
    {
      inGoAway && curClientStreams + curPushedStreams == 0 && !needToSendGoAway && !writingFrame
    }

    /** The serve loop, over any events. Until a panic every state keeps the invariants and forgets nothing, and
        until SETTINGS are refused while the connection is going away it waits for the next event only when a
        frame is being written or nothing is left to write. n is the number of events handled, and last the state
        before the last of them. The loop stops early after a panic, at an event that cannot happen, when a frame
        cannot be read, and when the connection that is going away has nothing left to do. */
    method Serve(events: seq<Event>) returns (n: nat, stalled: bool, gone: bool, ghost last: State)
      requires Sane() && !overCredited && Sound(Recv())
      modifies this
      ensures n <= |events| && (n < |events| && !panicked && !overCredited && !gone ==> !MayHappen(events[n]) || AllSaid())
      ensures panicked ==> n > 0 && Inv(last, {}, {}) && AtRest(last) && Later(old(Snap()), last) && EventPanics(last, events[n - 1])
      ensures !panicked ==> Sane() && Later(old(Snap()), Snap())
      ensures !panicked && !stalled && old(Settled(Snap())) ==> Settled(Snap())
      ensures !panicked ==> Sound(Recv()) && (overCredited <==> twice > MAX_INT32 - WINDOW + Held(inbound) + lost)
    {
      hide Inv, Later, Settled, EventPanics, Sound, StaysSettled, Stopped;
      ghost var s := Snap();
      LaterReflexive(s);
      n, stalled, gone, last := 0, false, false, s;
      OverIff(Recv());
      while n < |events|
        invariant n <= |events| && Sane() && Later(s, Snap()) && (!stalled && Settled(s) ==> Settled(Snap()))
        invariant !overCredited && Sound(Recv()) && !gone
      {
        if !MayHappen(events[n]) {
          OverIff(Recv());
          return;
        }
        last := Snap();
        var stall;
        ghost var k, moved;
        stall, gone, k, moved := Handle(events[n]);
        stalled := stalled || stall;
        n := n + 1;
        if panicked {
          return;
        }
        LaterTransitive(s, last, Snap());
        OverIff(Recv());
        if gone || overCredited || AllSaid() {
          return;
        }
      }
      OverIff(Recv());
    }

    /** A connection that has just been accepted. */
    constructor (advMaxStreams: UInt32)
      ensures Sane() && Settled(Snap()) && Sound(Recv()) && !overCredited && inflow == WINDOW && inbound == map[] && twice == 0 && lost == 0
      ensures streams == {} && records == map[] && curClientStreams == 0 && maxClientStreamID == 0 && !inGoAway && flow == 65535 && initialWindowSize == 65535 && this.advMaxStreams == advMaxStreams
    {
      this.advMaxStreams := advMaxStreams;
      records, streams, queues := map[], {}, map[];
      flow, initialWindowSize, maxFrameSize := 65535, 65535, 16384;
      clientMaxStreams := 0xFFFF_FFFF;
      curClientStreams, curPushedStreams, maxClientStreamID, maxPushPromiseID := 0, 0, 0, 0;
      pushEnabled, unackedSettings, sawFirstSettings := true, 0, false;
      writingFrame, writingFrameAsync, needsFrameFlush, inFrameScheduleLoop := false, false, false, false;
      inGoAway, needToSendGoAway, goAwayCode, needToSendSettingsAck := false, false, 0, false;
      inFlight, acct, connAcct, refused, panicked := None, map[], Account(65535, 0, 0), false, false;
      inflow, inbound, overCredited, balance, lost, twice := WINDOW, map[], false, WINDOW, 0, 0;
    }

    /** A connection in the state s, of which nothing has been received yet. */
    constructor In(s: State)
      requires s.FitsFields()
      ensures Snap() == s && !panicked && !overCredited && Sound(Recv()) && !sawFirstSettings
    {
      advMaxStreams := s.reg.advMaxStreams;
      records, streams, queues := s.reg.records, s.reg.streams, s.queues;
      curClientStreams, curPushedStreams := s.reg.curClientStreams, s.reg.curPushedStreams;
      maxClientStreamID, maxPushPromiseID := s.reg.maxClientStreamID, s.reg.maxPushPromiseID;
      flow, initialWindowSize, maxFrameSize := s.win.flow, s.win.initialWindowSize, s.win.maxFrameSize;
      acct, connAcct, refused := s.win.acct, s.win.connAcct, s.win.refused;
      writingFrame, writingFrameAsync, needsFrameFlush := s.out.writingFrame, s.out.writingFrameAsync, s.out.needsFrameFlush;
      inFrameScheduleLoop, needToSendSettingsAck, inFlight := s.out.inFrameScheduleLoop, s.out.needToSendSettingsAck, s.out.inFlight;
      inGoAway, needToSendGoAway, goAwayCode := s.away.inGoAway, s.away.needToSendGoAway, s.away.goAwayCode;
      clientMaxStreams, pushEnabled, unackedSettings, sawFirstSettings, panicked := 0xFFFF_FFFF, true, 0, false, false;
      inflow, inbound, overCredited, balance, lost, twice := WINDOW, map[], false, WINDOW, 0, 0;
    }

    /** The server's own SETTINGS go out first. */
    method Start()
      requires Sane()
      modifies this
      ensures Sane() && Kept(old(Snap()), Snap())
      ensures Passed(old(Recv()), Recv()) && (Quiet(old(Snap())) ==> Undisturbed(old(Snap()), Snap()) && Recv() == old(Recv()))
    {
      hide Passed, Inv, Later, Settled, Scheduled, Quiet, Undisturbed;
      SafeNone(Snap());
      WriteFrame(Request(Settings, 0), {}, {});
      unackedSettings := unackedSettings + 1;
    }
  }

  /** Why a frame could not be read: it exceeds the limit on frames, it is bad for its stream or for the connection,
      the client has gone, or reading fails otherwise. */
  datatype ReadFailure = TooLarge | BadStream(id: nat, code: UInt32) | BadConnection(code: UInt32) | ClientGone | OtherFailure

  /** What the serve loop waits for, and what handlers take from the buffers of their requests. unread bounds how much
      of the body of the stream that the event may close has arrived and has not been read by then. */
  datatype Event =
    | Handler(wr: Request)
    | Push(parent: nat)
    | Received(f: Frame, unread: nat)
    | ReadFailed(e: ReadFailure)
    | Draw(id: nat, n: nat)
    | BodyRead(id: nat, n: nat)
    | Shutdown
    | FrameDone(unread: nat)

  /** The header block f, with a new number, opens its stream. */
  predicate Opens(s: State, f: Frame)
    requires f.HeadersFrame?
  {
    s.reg.curClientStreams < s.reg.advMaxStreams && !f.refusedRequest && f.priority != Some(f.id)
  }

  function Opened(s: State, f: Frame): State
    requires f.HeadersFrame?
  {
    Made(s, f.id, if f.ended then HalfClosedRemote else Open, !f.ended)
  }

  /** DATA on the stream id is received and goes to the handler. */
  predicate Takes(s: State, id: nat) {
    && !Mute(s) && id in s.reg.streams && id in s.reg.records && s.reg.records[id].phase.Open?
    && !s.reg.records[id].gotTrailerHeader && !s.reg.records[id].resetQueued
  }

  /** DATA without padding that does not end the request, and for which there is room. */
  predicate Fits(a: Receiving, f: Frame) {
    && f.DataFrame? && 0 < f.id && 0 < f.length == f.dataLength && !f.ended && !f.tooLong && !f.writeFails
    && f.length <= a.Of(f.id).inflow && f.length <= a.inflow
  }

  /** HEADERS that end a request which has no body to end: a header block that is the second for its stream. */
  predicate HeadersPanic(s: State, f: Frame)
    requires f.HeadersFrame?
  {
    && !s.away.inGoAway && f.id % 2 == 1
    && f.id in s.reg.streams && f.id in s.reg.records && !s.reg.records[f.id].resetQueued && !s.reg.records[f.id].gotTrailerHeader
    && f.ended && !f.badTrailers && !s.reg.records[f.id].hasBody
  }

  /** Receiving f can end in a panic. */
  ghost predicate FramePanics(s: State, f: Frame, unread: nat) {
    || (f.HeadersFrame? && HeadersPanic(s, f))
    || (f.RSTStreamFrame? && f.id in s.reg.streams && ClosePanics(s, f.id, unread))
  }

  ghost predicate EventPanics(s: State, e: Event) {
    match e
    case Received(f, unread) => FramePanics(s, f, unread)
    case FrameDone(unread) => s.out.inFlight.Some? && EndPanics(Finished(s), s.out.inFlight.value, unread)
    case _ => false
  }

  /** A stream must not depend on itself. */
  function CheckPriority(id: nat, dependsOn: nat): Problem {
    if id == dependsOn then OfStream(id, PROTOCOL) else Fine
  }
}
