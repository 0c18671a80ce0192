/** A channel of an SSH connection: what it receives under its own window and sends under the window of the
    other side (section 5.2 of RFC 4254). */
module SshChannels {
  import opened GoInt
  import opened Options
  import opened BigEndian
  import opened SshBuffers

  const CHANNEL_DATA: Byte := 94
  const CHANNEL_EXTENDED_DATA: Byte := 95
  const WINDOW_SIZE: UInt32 := 0x20_0000

  datatype Error = ConnEOF | Malformed | TooLarge | WrongLength | WroteTooMuch | Unimplemented | WriteFailed

  // ---- The window granted by the other side

  class Window {
    var win: UInt32
    var closed: bool

    constructor ()
      ensures win == 0 && !closed
    {
      win, closed := 0, false;
    }

    /** Adds to the window, unless it would exceed 2^32-1. */
    method Add(n: UInt32) returns (ok: bool)
      modifies this`win
      ensures ok <==> old(win) + n < TWO_32
      ensures win == if ok then old(win) + n else old(win)
    {
      if n == 0 {
        return true;
      }
      if WrapU32(win + n) < n {
        return false;
      }
      win := WrapU32(win + n);
      return true;
    }

    method Close()
      modifies this`closed
      ensures closed
    {
      closed := true;
    }

    /** Takes at most n from the window; with nothing to take it waits, unless the window is closed. */
    method Reserve(n: UInt32) returns (got: UInt32, err: Option<Error>, waits: bool)
      modifies this`win
      ensures waits <==> old(win) == 0 && !closed
      ensures waits ==> got == 0 && win == 0 && err == None
      ensures !waits ==> got == Min(n, old(win)) && win == old(win) - got && err == if closed then Some(ConnEOF) else None
    {
      if win == 0 && !closed {
        return 0, None, true;
      }
      got := n;
      if win < got {
        got := win;
      }
      win := win - got;
      err := if closed then Some(ConnEOF) else None;
      waits := false;
    }
  }

  // ---- Packets

  /** A data packet for stream code of a channel. */
  function DataPacket(remoteId: UInt32, code: UInt32, payload: Bytes): (p: Bytes)
    requires |payload| < TWO_32
    ensures |p| == |payload| + if code > 0 then 13 else 9
  {
    if code > 0 then [CHANNEL_EXTENDED_DATA] + U32(remoteId) + U32(code) + U32(|payload|) + payload
    else [CHANNEL_DATA] + U32(remoteId) + U32(|payload|) + payload
  }

  /** What a data packet says: the stream, the length it claims, and the payload. */
  datatype Content = Content(code: UInt32, length: UInt32, data: Bytes)

  function ContentOf(packet: Bytes): Option<Content>
    requires packet != []
  {
    var header := if packet[0] == CHANNEL_EXTENDED_DATA then 13 else 9;
    if |packet| < header then None
    else Some(Content(if header == 13 then Get32(packet[5..]) else 0, Get32(packet[header - 4..header]), packet[header..]))
  }

  /** A packet that is sent says what went into it. */
  lemma PacketContent(remoteId: UInt32, code: UInt32, payload: Bytes)
    requires |payload| < TWO_32
    ensures ContentOf(DataPacket(remoteId, code, payload)) == Some(Content(code, |payload|, payload))
  {
    hide U32, Get32;
    if code > 0 { ExtendedContent(remoteId, code, payload); } else { PlainContent(remoteId, payload); }
  }

  lemma ExtendedContent(remoteId: UInt32, code: UInt32, payload: Bytes)
    requires |payload| < TWO_32 && code > 0
    ensures ContentOf(DataPacket(remoteId, code, payload)) == Some(Content(code, |payload|, payload))
  {
    hide U32, Get32;
    var n := |payload|;
    Sizes(remoteId, code, n);
    NumbersBack32(code, U32(n) + payload);
    NumbersBack32(n, []);
    assert U32(n) + [] == U32(n);
    FiveParts(CHANNEL_EXTENDED_DATA, U32(remoteId), U32(code), U32(n), payload);
  }

  lemma FiveParts(op: Byte, a: Bytes, b: Bytes, c: Bytes, d: Bytes)
    requires |a| == 4 && |b| == 4 && |c| == 4
    ensures var p := [op] + a + b + c + d;
      p[0] == op && p[5..] == b + (c + d) && p[9..13] == c && p[13..] == d && |p| == 13 + |d|
  {
  }

  lemma PlainContent(remoteId: UInt32, payload: Bytes)
    requires |payload| < TWO_32
    ensures ContentOf(DataPacket(remoteId, 0, payload)) == Some(Content(0, |payload|, payload))
  {
    hide U32, Get32;
    var n := |payload|;
    Sizes(remoteId, 0, n);
    NumbersBack32(n, []);
    var p := DataPacket(remoteId, 0, payload);
    assert U32(n) + [] == U32(n);
    assert p == [CHANNEL_DATA] + U32(remoteId) + (U32(n) + payload);
    assert p[5..9] == U32(n) && p[9..] == payload;
  }

  lemma Sizes(a: UInt32, b: UInt32, c: UInt32)
    ensures |U32(a)| == 4 && |U32(b)| == 4 && |U32(c)| == 4
  {
  }

  // ---- Receiving

  /** The receiving side of a channel. */
  class Receiver {
    const maxIncomingPayload: UInt32
    const pending: Buffer
    const extPending: Buffer
    var myWindow: UInt32
    /** Bytes taken out of the buffers for which the window has not been raised yet. */
    var uncredited: nat
    /** Bytes that came for other streams and were dropped. */
    ghost var discarded: nat

    ghost function Footprint(): set<object>
      reads this, pending, extPending
    {
      {this, pending, extPending} + pending.Nodes() + extPending.Nodes()
    }

    ghost predicate Separate()
      reads this, pending, extPending, pending.Nodes(), extPending.Nodes()
    {
      pending != extPending && pending.Valid() && extPending.Valid() && pending.Nodes() !! extPending.Nodes()
    }

    /** The whole window is accounted for. */
    ghost predicate Valid()
      reads this, pending, extPending, pending.Nodes(), extPending.Nodes()
    {
      Separate() && myWindow + |pending.Contents()| + |extPending.Contents()| + discarded + uncredited == WINDOW_SIZE
    }

    constructor (maxIncomingPayload: UInt32)
      ensures Valid() && fresh(Footprint()) && discarded == 0 && uncredited == 0 && this.maxIncomingPayload == maxIncomingPayload
      ensures pending.written == [] && pending.taken == [] && extPending.written == [] && extPending.taken == []
    {
      this.maxIncomingPayload := maxIncomingPayload;
      pending := new Buffer();
      extPending := new Buffer();
      myWindow, uncredited, discarded := WINDOW_SIZE, 0, 0;
    }

    /** Why a data packet is refused. An empty one is ignored. */
    function Refusal(packet: Bytes): Option<Error>
      requires packet != []
      reads this`myWindow
    {
      match ContentOf(packet)
      case None => Some(Malformed)
      case Some(c) =>
        if c.length == 0 then None
        else if c.length > maxIncomingPayload then Some(TooLarge)
        else if c.length != WrapU32(|c.data|) then Some(WrongLength)
        else if myWindow < c.length then Some(WroteTooMuch)
        else None
    }

    /** A data packet arrives; one longer than 4 GB cannot. */
    method HandleData(packet: Bytes) returns (err: Option<Error>)
      requires Valid() && packet != [] && |packet| < TWO_32
      modifies Footprint()
      ensures Valid() && fresh(Footprint() - old(Footprint()))
      ensures err == old(Refusal(packet)) && uncredited == old(uncredited)
      ensures var c := Accepted(err, packet);
        && myWindow == old(myWindow) - |c.data| && discarded == old(discarded) + (if c.code > 1 then |c.data| else 0)
        && pending.written == old(pending.written) + (if c.code == 0 then c.data else [])
        && extPending.written == old(extPending.written) + (if c.code == 1 then c.data else [])
        && pending.taken == old(pending.taken) && extPending.taken == old(extPending.taken)
    {
      hide Get32, U32, Buffer.Linked, Buffer.Contents, Buffer.Slices;
      var headerLen := 9;
      var isExtendedData := packet[0] == CHANNEL_EXTENDED_DATA;
      if isExtendedData {
        headerLen := 13;
      }
      if |packet| < headerLen {
        return Some(Malformed);
      }
      var extended: UInt32 := 0;
      if isExtendedData {
        extended := Get32(packet[5..]);
      }
      var length := Get32(packet[headerLen - 4..headerLen]);
      if length == 0 {
        return None;
      }
      if length > maxIncomingPayload {
        return Some(TooLarge);
      }
      var data := packet[headerLen..];
      if length != WrapU32(|data|) {
        return Some(WrongLength);
      }
      if myWindow < length {
        return Some(WroteTooMuch);
      }
      myWindow := myWindow - length;
      Store(extended, data);
      return None;
    }

    /** Puts data into the buffer of its stream; other streams than 0 and 1 have none. */
    method Store(extended: UInt32, data: Bytes)
      requires Separate() && myWindow + |pending.Contents()| + |extPending.Contents()| + discarded + uncredited + |data| == WINDOW_SIZE
      modifies this`discarded, pending, extPending, pending.Nodes(), extPending.Nodes()
      ensures Valid() && fresh(Footprint() - old(Footprint()))
      ensures discarded == old(discarded) + if extended > 1 then |data| else 0
      ensures pending.written == old(pending.written) + if extended == 0 then data else []
      ensures extPending.written == old(extPending.written) + if extended == 1 then data else []
      ensures pending.taken == old(pending.taken) && extPending.taken == old(extPending.taken)
    {
      hide Buffer.Linked, Buffer.Slices, Concat;
      if extended == 1 {
        extPending.Write(data);
      } else if extended > 0 {
        discarded := discarded + |data|;
      } else {
        pending.Write(data);
      }
    }

    /** The sum can never exceed the initial window, so that it does not overflow. */
    method AdjustWindow(n: nat)
      requires Valid() && n <= uncredited
      modifies this`myWindow, this`uncredited
      ensures Valid() && myWindow == old(myWindow) + n && uncredited == old(uncredited) - n && myWindow <= WINDOW_SIZE
    {
      assert myWindow + n <= WINDOW_SIZE;
      myWindow := WrapU32(myWindow + n);
      uncredited := uncredited - n;
    }

    /** The buffer of stream 0 or 1. */
    function BufferOf(extended: UInt32): Buffer
      reads this
    {
      if extended == 1 then extPending else pending
    }

    /** The first half of a read: bytes leave their buffer. Only streams 0 and 1 can be read. */
    method Take(want: nat, extended: UInt32) returns (res: ReadResult, err: Option<Error>)
      requires Valid()
      modifies this`uncredited, pending, extPending, pending.Nodes(), extPending.Nodes()
      ensures Valid() && Footprint() <= old(Footprint())
      ensures err == if extended > 1 then Some(Unimplemented) else None
      ensures var out := if err == None && res.Got? then res.p else [];
        && |out| <= want && uncredited == old(uncredited) + |out|
        && pending.taken == old(pending.taken) + (if extended == 0 then out else [])
        && extPending.taken == old(extPending.taken) + (if extended == 1 then out else [])
        && pending.written == old(pending.written) && extPending.written == old(extPending.written)
      ensures err == None && res.EOF? ==> BufferOf(extended).taken == BufferOf(extended).written && BufferOf(extended).closed
    {
      hide Buffer.Linked, Buffer.Slices, Concat;
      err := None;
      if extended == 1 {
        res := extPending.Read(want);
      } else if extended == 0 {
        res := pending.Read(want);
      } else {
        return Got([]), Some(Unimplemented);
      }
      if res.Got? {
        uncredited := uncredited + |res.p|;
      }
    }

    /** Reads from stream 0 or 1 and raises the window by as much; send says what becomes of the message about it.
        That it cannot be sent because the channel is closed is not reported with data. */
    method ReadExtended(want: nat, extended: UInt32, send: Option<Error>) returns (res: ReadResult, err: Option<Error>)
      requires Valid()
      modifies Footprint()
      ensures Valid() && Footprint() <= old(Footprint()) && uncredited == old(uncredited)
      ensures var out := if extended <= 1 && res.Got? then res.p else [];
        && |out| <= want && myWindow == old(myWindow) + |out|
        && pending.taken == old(pending.taken) + (if extended == 0 then out else [])
        && extPending.taken == old(extPending.taken) + (if extended == 1 then out else [])
        && pending.written == old(pending.written) && extPending.written == old(extPending.written)
      ensures extended <= 1 && res.EOF? ==> BufferOf(extended).taken == BufferOf(extended).written && BufferOf(extended).closed
      ensures err == if extended > 1 then Some(Unimplemented) else if res.Got? && res.p != [] && send != Some(ConnEOF) then send else None
    {
      hide Buffer.Linked, Buffer.Slices, Concat;
      res, err := Take(want, extended);
      if err == None && res.Got? && res.p != [] {
        AdjustWindow(|res.p|);
        err := send;
        if err == Some(ConnEOF) {
          err := None;
        }
      }
    }

    /** The other side has sent all its data, or has closed the channel. */
    method End()
      requires Valid()
      modifies pending`closed, extPending`closed
      ensures Valid() && pending.closed && extPending.closed && Footprint() == old(Footprint())
    {
      extPending.Eof();
      pending.Eof();
    }

    /** Any run of packets, reads and window messages: the window stays accounted for, and each stream delivers
        a beginning of what it has received. */
    method Run(steps: seq<Step>)
      requires Valid()
      modifies Footprint()
      ensures Valid() && pending.taken <= pending.written && extPending.taken <= extPending.written
      ensures old(pending.written) <= pending.written && old(extPending.written) <= extPending.written
    {
      hide Buffer.Linked, Buffer.Slices, Buffer.Contents, Refusal, ContentOf, Accepted;
      for i := 0 to |steps|
        invariant Valid() && fresh(Footprint() - old(Footprint()))
        invariant old(pending.written) <= pending.written && old(extPending.written) <= extPending.written
      {
        match steps[i] {
          case Data(packet) =>
            if packet != [] && |packet| < TWO_32 {
              var _ := HandleData(packet);
            }
          case Read(want, extended) => var _, _ := Take(want, extended);
          case Adjust(n) =>
            if n <= uncredited {
              AdjustWindow(n);
            }
          case Ended => End();
        }
      }
    }
  }

  /** The stream and the data that a packet brings. */
  function Accepted(err: Option<Error>, packet: Bytes): Content
    requires packet != []
  {
    match ContentOf(packet)
    case None => Content(0, 0, [])
    case Some(c) => if err.Some? || c.length == 0 then Content(0, 0, []) else c
  }

  datatype Step = Data(packet: Bytes) | Read(want: nat, extended: UInt32) | Adjust(n: nat) | Ended

  // ---- Sending

  /** What may happen at any time during a call: the other side grants more, somebody sends the message that
      closes the channel, or the channel is closed. */
  datatype Event = Grant(n: UInt32) | SendsClose | Closes

  /** The sending side of a channel. */
  class Sender {
    const remoteId: UInt32
    const maxRemotePayload: UInt32
    const remoteWin: Window
    var sentEOF: bool
    var sentClose: bool
    /** The packets that have been sent. */
    var sent: seq<Bytes>
    var packet: Bytes

    constructor (remoteId: UInt32, maxRemotePayload: UInt32)
      ensures this.remoteId == remoteId && this.maxRemotePayload == maxRemotePayload && fresh(remoteWin) && remoteWin.win == 0
      ensures !sentEOF && !sentClose && sent == []
    {
      this.remoteId, this.maxRemotePayload := remoteId, maxRemotePayload;
      remoteWin := new Window();
      sentEOF, sentClose, sent, packet := false, false, [], [];
    }

    /** Sends a packet unless a close has been sent; fails says that the connection fails. */
    method WritePacket(p: Bytes, fails: bool) returns (err: Option<Error>)
      modifies this`sent
      ensures err == if sentClose then Some(ConnEOF) else if fails then Some(WriteFailed) else None
      ensures sent == if err == None then old(sent) + [p] else old(sent)
    {
      if sentClose {
        return Some(ConnEOF);
      }
      if fails {
        return Some(WriteFailed);
      }
      sent := sent + [p];
      return None;
    }

    /** Any number of events, but at least some of them, happen; granted is what they add to the window. */
    method Arrive(events: seq<Event>, some: nat) returns (left: seq<Event>, ghost granted: nat)
      requires some <= |events|
      modifies this`sentClose, remoteWin`win, remoteWin`closed
      ensures |left| + some <= |events| && granted + Granted(left) <= Granted(events)
      ensures remoteWin.win == old(remoteWin.win) + granted && (old(sentClose) ==> sentClose)
    {
      var k: nat :| some <= k <= |events|;
      left, granted := events, 0;
      for i := 0 to k
        invariant |left| == |events| - i && granted + Granted(left) <= Granted(events)
        invariant remoteWin.win == old(remoteWin.win) + granted && (old(sentClose) ==> sentClose)
      {
        match left[0] {
          case Grant(n) =>
            var ok := remoteWin.Add(n);
            if ok {
              granted := granted + n;
            }
          case SendsClose => sentClose := true;
          case Closes =>
            sentClose := true;
            remoteWin.Close();
        }
        left := left[1..];
      }
    }

    /** Sends data on the stream code, in packets as large as the other side and its window allow. The events may
        happen at any time during the call; with an empty window and no event to come it stays blocked (waits).
        The connection fails at packet failAt. parts are the payloads of the packets sent. */
    method WriteExtended(data: Bytes, code: UInt32, events: seq<Event>, failAt: nat)
      returns (n: nat, err: Option<Error>, waits: bool, ghost parts: seq<Bytes>, ghost granted: nat)
      requires |data| < TWO_32 && 0 < maxRemotePayload <= 0x8000_0000
      modifies this`sent, this`packet, this`sentClose, remoteWin`win, remoteWin`closed
      ensures forall p :: p in parts ==> 0 < |p| <= maxRemotePayload
      ensures n <= |data| && Concat(parts) == data[..n] && sent == old(sent) + Packets(remoteId, code, parts)
      ensures old(sentEOF) ==> n == 0 && err == Some(ConnEOF)
      ensures old(sentClose) ==> n == 0
      ensures n < |data| ==> err.Some? || waits
      ensures !waits && err == None ==> n == |data|
      ensures waits ==> err == None && remoteWin.win == 0 && !remoteWin.closed
      ensures remoteWin.win <= old(remoteWin.win) + granted - n && granted <= Granted(events)
      ensures err == None ==> remoteWin.win == old(remoteWin.win) + granted - n
    {
      hide Packets, Concat, Granted, DataPacket;
      parts, granted, n, err, waits := [], 0, 0, None, false;
      Nothing(remoteId, code);
      assert data[..0] == [];
      assert sent + [] == sent;
      if sentEOF {
        return 0, Some(ConnEOF), false, parts, granted;
      }
      var rest, left, count := data, events, 0;
      while |rest| > 0
        invariant n <= |data| && rest == data[n..] && Concat(parts) == data[..n]
        invariant forall p :: p in parts ==> 0 < |p| <= maxRemotePayload
        invariant sent == old(sent) + Packets(remoteId, code, parts)
        invariant err == None && !waits && remoteWin.win == old(remoteWin.win) + granted - n
        invariant granted + Granted(left) <= Granted(events) && count == |parts|
        invariant old(sentClose) ==> sentClose && n == 0
        decreases |rest|, |left|
      {
        var space: UInt32 := if maxRemotePayload < |rest| then maxRemotePayload else |rest|;
        ghost var more: nat;
        left, more := Arrive(left, 0);
        granted := granted + more;
        var got, e, blocked := remoteWin.Reserve(space);
        if blocked {
          if left == [] {
            return n, None, true, parts, granted;
          }
          left, more := Arrive(left, 1);
          granted := granted + more;
          continue;
        }
        if e.Some? {
          return n, e, false, parts, granted;
        }
        left, more := Arrive(left, 0);
        granted := granted + more;
        var todo := rest[..got];
        e := SendPart(code, todo, count == failAt, old(sent), parts);
        if e.Some? {
          return n, e, false, parts, granted;
        }
        ConcatAppend(parts, todo);
        Onward(data, n, got);
        parts := parts + [todo];
        count := count + 1;
        n := n + got;
        rest := rest[got..];
      }
    }

    /** Sends one packet; before is what had been sent before the payloads parts. */
    method SendPart(code: UInt32, todo: Bytes, fails: bool, ghost before: seq<Bytes>, ghost parts: seq<Bytes>) returns (err: Option<Error>)
      requires |todo| <= 0x8000_0000 && (forall p :: p in parts ==> |p| < TWO_32) && sent == before + Packets(remoteId, code, parts)
      modifies this`sent, this`packet
      ensures err.Some? ==> sent == old(sent)
      ensures err == None ==> !sentClose && sent == before + Packets(remoteId, code, parts + [todo])
    {
      hide Packets, DataPacket;
      packet := BuildPacket(code, todo);
      err := WritePacket(packet, fails);
      PacketsAppend(remoteId, code, parts, todo);
    }

    /** Fills in the packet buffer; its size fits into 32 bits. */
    method BuildPacket(code: UInt32, todo: Bytes) returns (p: Bytes)
      requires |todo| <= 0x8000_0000
      ensures p == DataPacket(remoteId, code, todo)
    {
      var headerLength := 9;
      var opCode := CHANNEL_DATA;
      if code > 0 {
        headerLength := headerLength + 4;
        opCode := CHANNEL_EXTENDED_DATA;
      }
      assert headerLength + |todo| < TWO_32;
      p := [opCode] + U32(remoteId);
      if code > 0 {
        p := p + U32(code);
      }
      p := p + U32(|todo|);
      p := p + todo;
    }
  }

  ghost function Packets(remoteId: UInt32, code: UInt32, parts: seq<Bytes>): seq<Bytes>
    requires forall p :: p in parts ==> |p| < TWO_32
  {
    seq(|parts|, i requires 0 <= i < |parts| => DataPacket(remoteId, code, parts[i]))
  }

  lemma PacketsAppend(remoteId: UInt32, code: UInt32, parts: seq<Bytes>, p: Bytes)
    requires |p| < TWO_32 && forall q :: q in parts ==> |q| < TWO_32
    ensures Packets(remoteId, code, parts + [p]) == Packets(remoteId, code, parts) + [DataPacket(remoteId, code, p)]
  {
  }

  lemma Onward(data: Bytes, n: nat, k: nat)
    requires n + k <= |data|
    ensures data[n..][k..] == data[n + k..] && data[..n + k] == data[..n] + data[n..][..k]
  {
  }

  lemma Nothing(remoteId: UInt32, code: UInt32)
    ensures Packets(remoteId, code, []) == [] && Concat([]) == []
  {
  }

  /** What the grants among the events add up to. */
  function Granted(s: seq<Event>): nat {
    if s == [] then 0 else (if s[0].Grant? then s[0].n else 0) + Granted(s[1..])
  }
}
