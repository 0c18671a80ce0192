/** Requests to write frames, and the queues that split DATA frames by flow control. */
module WriteQueues {
  import opened GoInt
  import opened Options
  import opened FlowControl

  /** The one connection setting that limits a DATA frame besides the windows. */
  class Conn {
    var maxFrameSize: Int32

    constructor (maxFrameSize: Int32)
      ensures this.maxFrameSize == maxFrameSize
    {
      this.maxFrameSize := maxFrameSize;
    }
  }

  class Stream {
    const id: nat
    const flow: Flow
    const sc: Conn

    constructor (id: nat, flow: Flow, sc: Conn)
      ensures this.id == id && this.flow == flow && this.sc == sc
    {
      this.id, this.flow, this.sc := id, flow, sc;
    }
  }

  datatype Write =
    | Data(streamID: nat, p: seq<Byte>, endStream: bool)
    | StreamError(streamID: nat)
    | Other(tag: nat)

  /** done names the channel that is told when the frame has been written. */
  datatype Request = Request(write: Write, stream: Stream?, done: Option<nat>) {
    function StreamID(): nat {
      if stream != null then stream.id
      else if write.StreamError? then write.streamID
      else 0
    }

    function DataSize(): nat {
      if write.Data? then |write.p| else 0
    }

    /** A request that is subject to flow control. */
    predicate Metered() {
      write.Data? && write.p != []
    }

    /** The objects on which the readiness of the request depends. */
    ghost function Windows(): set<object> {
      if stream == null then {}
      else {stream.flow, stream.sc} + if stream.flow.conn == null then {} else {stream.flow.conn}
    }

    /** The windows that sending the request may shrink. */
    ghost function Flows(): set<Flow> {
      if stream == null then {} else stream.flow.Scope()
    }

    /** What the code needs of a request: a metered one names a stream whose window hangs off a connection. */
    ghost predicate Valid() {
      Metered() ==> stream != null && stream.flow.Valid()
    }
  }

  /** What a request delivers, item by item: its octets, then the end of the stream, then the notice to the writer. */
  datatype Item = Octet(id: nat, b: Byte) | End(id: nat) | Notice(ch: nat) | Frame(r: Request)

  ghost function Octets(id: nat, p: seq<Byte>): (t: seq<Item>)
    ensures |t| == |p|
    ensures forall i :: 0 <= i < |p| ==> t[i] == Octet(id, p[i])
  {
    seq(|p|, i requires 0 <= i < |p| => Octet(id, p[i]))
  }

  ghost function Trace(r: Request): seq<Item> {
    if r.write.Data? then Octets(r.StreamID(), r.write.p) + Finish(r) else [Frame(r)]
  }

  /** What follows the octets of a DATA frame. */
  ghost function Finish(r: Request): seq<Item>
    requires r.write.Data?
  {
    (if r.write.endStream then [End(r.StreamID())] else [])
    + if r.done.Some? then [Notice(r.done.value)] else []
  }

  ghost function TraceAll(s: seq<Request>): seq<Item> {
    if s == [] then [] else Trace(s[0]) + TraceAll(s[1..])
  }

  lemma {:induction false} TraceAllAppend(s: seq<Request>, r: Request)
    ensures TraceAll(s + [r]) == TraceAll(s) + Trace(r)
  {
    if s == [] {
      assert TraceAll([r]) == Trace(r) + TraceAll([]);
    } else {
      assert (s + [r])[1..] == s[1..] + [r];
      TraceAllAppend(s[1..], r);
    }
  }

  /** How many octets of r the windows and the frame size allow now, n being the caller's own limit. */
  function Allowed(r: Request, n: Int32): (a: Int32)
    requires r.stream != null
    reads r.stream.flow, r.stream.flow.conn, r.stream.sc
    ensures a <= n && a <= r.stream.flow.Available() && a <= r.stream.sc.maxFrameSize
    ensures a == n || a == r.stream.flow.Available() || a == r.stream.sc.maxFrameSize
  {
    var a := r.stream.flow.Available();
    var b := if n < a then n else a;
    if r.stream.sc.maxFrameSize < b then r.stream.sc.maxFrameSize else b
  }

  /** Flow control lets nothing of r through. */
  ghost predicate Stuck(r: Request, n: Int32)
    requires r.Valid()
    reads r.Windows()
  {
    r.Metered() && Allowed(r, n) <= 0
  }

  const EMPTY := Request(Other(0), null, None)

  /** Splits off as much of wr as may be sent now; k tells how many requests come back. */
  method ConsumeRequest(wr: Request, n: Int32) returns (consumed: Request, rest: Request, k: int)
    requires wr.Valid()
    modifies wr.Flows()`n
    ensures 0 <= k <= 2 && (k == 0 <==> old(Stuck(wr, n)))
    ensures k == 0 || !wr.Metered() ==> forall f :: f in wr.Flows() ==> f.n == old(f.n)
    ensures k == 1 ==> consumed == wr
    ensures k == 2 ==> Split(wr, consumed, rest) && consumed.DataSize() == old(Allowed(wr, n))
    ensures k > 0 && wr.Metered() ==>
      && 0 < consumed.DataSize() <= old(Allowed(wr, n))
      && forall f :: f in wr.Flows() ==> f.n == old(f.n) - consumed.DataSize()
  {
    if !wr.write.Data? || |wr.write.p| == 0 {
      return wr, EMPTY, 1;
    }
    var allowed := wr.stream.flow.Available();
    if n < allowed {
      allowed := n;
    }
    if wr.stream.sc.maxFrameSize < allowed {
      allowed := wr.stream.sc.maxFrameSize;
    }
    if allowed <= 0 {
      return EMPTY, EMPTY, 0;
    }
    var wd := wr.write;
    if |wd.p| > allowed {
      wr.stream.flow.Take(allowed);
      consumed := Request(Data(wd.streamID, wd.p[..allowed], false), wr.stream, None);
      rest := Request(Data(wd.streamID, wd.p[allowed..], wd.endStream), wr.stream, wr.done);
      return consumed, rest, 2;
    }
    wr.stream.flow.Take(|wd.p|);
    return wr, EMPTY, 1;
  }

  /** first and rest cut the frame r in two: the octets in order, and both the end of the stream
      and the notice to the writer wait for the second part. */
  ghost predicate Split(r: Request, first: Request, rest: Request) {
    && r.Metered() && first.Metered() && rest.Metered()
    && first.stream == r.stream && rest.stream == r.stream
    && first.write.streamID == r.write.streamID && rest.write.streamID == r.write.streamID
    && r.write.p == first.write.p + rest.write.p
    && !first.write.endStream && first.done == None
    && rest.write.endStream == r.write.endStream && rest.done == r.done
  }

  /** Taking wr out of the queue s leaves t: wr is the first request or, if only a octets of it may
      be sent, the first a octets of it. */
  ghost predicate Delivers(s: seq<Request>, t: seq<Request>, wr: Request, a: int) {
    && s != [] && wr.stream == s[0].stream && wr.StreamID() == s[0].StreamID()
    && (wr.Metered() ==> 0 < wr.DataSize() <= a)
    && if wr == s[0] then t == s[1..]
       else t != [] && t[1..] == s[1..] && Split(s[0], wr, t[0]) && wr.DataSize() == a
  }

  lemma SplitTrace(r: Request, first: Request, rest: Request)
    requires Split(r, first, rest)
    ensures Trace(r) == Trace(first) + Trace(rest)
  {
    var id := r.StreamID();
    var a, b := Octets(id, first.write.p), Octets(id, rest.write.p);
    assert Octets(id, r.write.p) == a + b;
    assert Trace(first) == a by { assert Finish(first) == []; }
    assert Finish(r) == Finish(rest);
    MoveTrace(a, b, Finish(r), a + (b + Finish(r)));
  }

  lemma MoveTrace(popped: seq<Item>, first: seq<Item>, rest: seq<Item>, pushed: seq<Item>)
    requires pushed == popped + (first + rest)
    ensures pushed == (popped + first) + rest
  {
  }

  /** Replacing the head by the rest of it moves the trace of the first part to what was popped. */
  lemma SplitHead(popped: seq<Item>, pushed: seq<Item>, s: seq<Request>, first: Request, rest: Request)
    requires s != [] && Split(s[0], first, rest) && pushed == popped + TraceAll(s)
    ensures pushed == (popped + Trace(first)) + TraceAll([rest] + s[1..])
  {
    SplitTrace(s[0], first, rest);
    assert ([rest] + s[1..])[1..] == s[1..];
    MoveTrace(popped, Trace(first), Trace(rest) + TraceAll(s[1..]), pushed) by {
      MoveTrace(Trace(first), Trace(rest), TraceAll(s[1..]), Trace(first) + (Trace(rest) + TraceAll(s[1..])));
    }
  }

  /** A queue of requests. The ghost fields record everything pushed and everything consumed since
      the queue was last emptied. */
  class WriteQueue {
    var s: seq<Request>
    ghost var pushed: seq<Item>
    ghost var popped: seq<Item>

    /** What went in is what came out followed by what is still queued. */
    ghost predicate Conserves()
      reads this
    {
      pushed == popped + TraceAll(s)
    }

    ghost function Windows(): set<object>
      reads this
    {
      if s == [] then {} else s[0].Windows()
    }

    ghost predicate Valid()
      reads this
    {
      Conserves() && forall r :: r in s ==> r.Valid()
    }

    /** The queue has nothing that may be sent now. */
    ghost predicate Blocked(n: Int32)
      requires Valid()
      reads this
      reads Windows()
    {
      s != [] ==> Stuck(s[0], n)
    }

    constructor ()
      ensures Valid() && s == [] && pushed == [] && popped == []
    {
      s, pushed, popped := [], [], [];
    }

    predicate Empty()
      reads this
    {
      |s| == 0
    }

    method Push(wr: Request)
      requires Valid() && wr.Valid()
      modifies this
      ensures Valid()
      ensures s == old(s) + [wr] && pushed == old(pushed) + Trace(wr) && popped == old(popped)
    {
      TraceAllAppend(s, wr);
      MoveTrace(popped, TraceAll(s), Trace(wr), popped + (TraceAll(s) + Trace(wr)));
      s := s + [wr];
      pushed := pushed + Trace(wr);
    }

    /** Shifting an empty queue is a panic. */
    method Shift() returns (wr: Request)
      requires Valid() && s != []
      modifies this
      ensures Valid()
      ensures wr == old(s)[0] && s == old(s)[1..] && popped == old(popped) + Trace(wr) && pushed == old(pushed)
    {
      wr := s[0];
      MoveTrace(popped, Trace(wr), TraceAll(s[1..]), pushed);
      s := s[1..];
      popped := popped + Trace(wr);
    }

    /** How many octets of the first request may be sent now. */
    ghost function Credit(n: Int32): int
      requires Valid()
      reads this, Windows()
    {
      if s != [] && s[0].stream != null then Allowed(s[0], n) else 0
    }

    ghost function Flows(): set<Flow>
      reads this
    {
      if s == [] then {} else s[0].Flows()
    }

    method Consume(n: Int32) returns (wr: Request, ok: bool)
      requires Valid()
      modifies this, Flows()`n
      ensures Valid() && pushed == old(pushed)
      ensures ok <==> old(s) != [] && !old(Blocked(n))
      ensures !ok ==> s == old(s) && popped == old(popped) && forall f :: f in old(Flows()) ==> f.n == old(f.n)
      ensures ok ==> wr.Valid() && Delivers(old(s), s, wr, old(Credit(n))) && popped == old(popped) + Trace(wr)
      ensures ok ==> forall f :: f in old(Flows()) ==> f.n == old(f.n) - wr.DataSize()
    {
      if |s| == 0 {
        return EMPTY, false;
      }
      var consumed, rest, k := ConsumeRequest(s[0], n);
      if k == 0 {
        return EMPTY, false;
      } else if k == 1 {
        var _ := Shift();
      } else {
        SplitHead(popped, pushed, s, consumed, rest);
        s := [rest] + s[1..];
        popped := popped + Trace(consumed);
      }
      return consumed, true;
    }

    /** Drops everything, as closing a stream does. */
    method Clear()
      modifies this
      ensures Valid() && s == [] && pushed == [] && popped == []
    {
      s, pushed, popped := [], [], [];
    }
  }

  /** The contents and the history of a queue. */
  datatype QueueState = QueueState(s: seq<Request>, pushed: seq<Item>, popped: seq<Item>)

  ghost function StateOf(q: WriteQueue): QueueState
    reads q
  {
    QueueState(q.s, q.pushed, q.popped)
  }

  /** The sizes of the flow-control windows, and the frame sizes of the connections. */
  datatype Windows = Windows(flow: map<Flow, int>, frame: map<Conn, int>) {
    function Of(f: Flow): int {
      if f in flow then flow[f] else 0
    }

    function FrameSize(c: Conn): int {
      if c in frame then frame[c] else 0
    }
  }

  /** How many octets of r may be sent when the windows are F. */
  function CreditIn(r: Request, F: Windows): int {
    if r.stream == null then 0
    else
      var n := F.Of(r.stream.flow);
      var avail := if r.stream.flow.conn == null then n else Min(n, F.Of(r.stream.flow.conn));
      Min(avail, F.FrameSize(r.stream.sc))
  }

  /** Something can be taken from a queue with contents s when the windows are F. */
  predicate Ready(s: seq<Request>, F: Windows) {
    s != [] && (s[0].Metered() ==> CreditIn(s[0], F) > 0)
  }

  ghost predicate FlowsWithin(s: seq<Request>, FS: set<Flow>) {
    forall r :: r in s ==> r.Flows() <= FS
  }

  ghost predicate ConnsWithin(s: seq<Request>, CS: set<Conn>) {
    forall r :: r in s && r.stream != null ==> r.stream.sc in CS
  }

  lemma DeliversWithin(s: seq<Request>, t: seq<Request>, wr: Request, a: int, FS: set<Flow>, CS: set<Conn>)
    requires FlowsWithin(s, FS) && ConnsWithin(s, CS) && Delivers(s, t, wr, a)
    ensures FlowsWithin(t, FS) && ConnsWithin(t, CS)
  {
    forall r | r in t ensures r.Flows() <= FS && (r.stream != null ==> r.stream.sc in CS) {
      if wr != s[0] { assert r == t[0] || r in t[1..]; }
      assert r in s[1..] ==> r in s;
      assert s[0] in s;
    }
  }

  lemma HeadWithin(q: WriteQueue, FS: set<Flow>, CS: set<Conn>)
    requires FlowsWithin(q.s, FS) && ConnsWithin(q.s, CS)
    ensures q.Flows() <= FS && (q.s != [] && q.s[0].stream != null ==> q.s[0].stream.sc in CS)
  {
    if q.s != [] { assert q.s[0] in q.s; }
  }

  lemma CreditBy(q: WriteQueue, F: Windows, l: Int32)
    requires q.Valid() && 0 < l && forall f :: f in q.Flows() ==> f in F.flow && f.n == F.flow[f]
    requires q.s != [] && q.s[0].stream != null ==> q.s[0].stream.sc in F.frame && F.frame[q.s[0].stream.sc] == q.s[0].stream.sc.maxFrameSize
    ensures q.s != [] ==> q.Credit(l) == Min(l, CreditIn(q.s[0], F))
    ensures q.s != [] && !q.Blocked(l) <==> Ready(q.s, F)
  {
    if q.s != [] {
      var r := q.s[0];
      assert r in q.s && r.Valid();
      if r.stream != null {
        assert r.stream.flow in q.Flows();
        assert r.stream.flow.conn != null ==> r.stream.flow.conn in q.Flows();
      }
    }
  }

  ghost predicate WindowsAre(FS: set<Flow>, CS: set<Conn>, F: Windows)
    reads FS, CS
  {
    && F.flow.Keys == FS && F.frame.Keys == CS
    && (forall f :: f in FS ==> f.n == F.flow[f])
    && forall c :: c in CS ==> c.maxFrameSize == F.frame[c]
  }

  /** Tries to take a request from a queue. */
  method TakeFrom(q: WriteQueue, limit: Int32, ghost FS: set<Flow>, ghost CS: set<Conn>, ghost F: Windows) returns (wr: Request, ok: bool)
    requires 0 < limit && q.Valid() && FlowsWithin(q.s, FS) && ConnsWithin(q.s, CS) && WindowsAre(FS, CS, F)
    modifies q, FS`n
    ensures q.Valid() && FlowsWithin(q.s, FS) && ConnsWithin(q.s, CS) && q.pushed == old(q.pushed)
    ensures ok <==> Ready(old(q.s), F)
    ensures !ok ==> StateOf(q) == old(StateOf(q)) && forall f :: f in FS ==> f.n == F.flow[f]
    ensures ok ==> old(q.s) != [] && Delivers(old(q.s), q.s, wr, Min(limit, CreditIn(old(q.s)[0], F))) && q.popped == old(q.popped) + Trace(wr)
    ensures ok ==> forall f :: f in FS ==> f.n == F.flow[f] - if f in old(q.s)[0].Flows() then wr.DataSize() else 0
  {
    hide Trace, TraceAll, FlowsWithin, ConnsWithin, Delivers, CreditIn, Ready, Allowed, Stuck;
    HeadWithin(q, FS, CS);
    CreditBy(q, F, limit);
    wr, ok := EMPTY, false;
    if q.Empty() {
      return;
    }
    ghost var s := q.s;
    wr, ok := q.Consume(limit);
    if ok {
      DeliversWithin(s, q.s, wr, old(q.Credit(limit)), FS, CS);
    }
  }

  ghost function WindowsOf(FS: set<Flow>, CS: set<Conn>): Windows
    reads FS, CS
  {
    Windows(map f | f in FS :: f.n, map c | c in CS :: c.maxFrameSize)
  }

  lemma WithinMore(s: seq<Request>, wr: Request, FS: set<Flow>, CS: set<Conn>)
    requires FlowsWithin(s, FS) && ConnsWithin(s, CS) && wr.Flows() <= FS && (wr.stream != null ==> wr.stream.sc in CS)
    ensures FlowsWithin(s + [wr], FS) && ConnsWithin(s + [wr], CS)
  {
  }
}
