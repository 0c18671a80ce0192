/** A run at whose end the connection's receive window refuses an increment, which is a panic. */
module ServerCredits {
  import opened GoInt
  import opened Options
  import opened FlowControl
  import opened ServerStates
  import opened ServerSteps
  import opened ServerQuiet
  import opened ServerReceives
  import opened ServerSettings
  import opened ServerConns

  /** After k rounds: stream 1 is open, each of the next k numbers has been used, and the connection's window has
      grown by its initial size k times. */
  ghost predicate After(c: ServerConn, k: nat)
    reads c
  {
    && c.Sane() && Settled(c.Snap()) && Sound(c.Recv()) && !c.overCredited && c.advMaxStreams >= 2
    && c.streams == {1} && c.curClientStreams == 1 && c.maxClientStreamID == 2 * k + 1 && !c.inGoAway
    && c.inflow == WindowAfter(k) && NothingSent(c.Recv(), 2 * k + 1)
  }

  function WindowAfter(k: nat): nat {
    65535 * (k + 1)
  }

  lemma WindowNext(k: nat)
    ensures WindowAfter(k) >= 65535 && WindowAfter(k + 1) == WindowAfter(k) + 65535
    ensures WindowAfter(0) == 65535 && (WindowAfter(k) > MAX_INT32 <==> k >= 32768)
  {
  }

  /** Nothing has arrived on the streams above max. */
  ghost predicate NothingSent(r: Receiving, max: nat) {
    forall j :: j > max ==> r.Of(j) == Inbound(WINDOW, 0, 0)
  }

  /** The client opens a stream, sends as much as the windows allow and resets it, and the handler reads it all. */
  method Round(c: ServerConn, k: nat)
    requires After(c, k) && 2 * k + 3 < 0x8000_0000
    modifies c
    ensures !c.panicked && (c.overCredited <==> WindowAfter(k + 1) > MAX_INT32)
    ensures !c.overCredited ==> After(c, k + 1)
  {
    hide Inv, Settled, Sound, Later, Undisturbed, Quiet, WindowAfter;
    WindowNext(k);
    var id := 2 * k + 3;
    SendBody(c, k, id);
    ghost var r := c.Recv();
    c.DrawBody(id, WINDOW);
    ghost var q := c.Recv();
    DrawnMeans(r, id, WINDOW);
    PassedMeans(r, q);
    SoundCounts(r);
    SoundCounts(q);
    ghost var s := c.Snap();
    c.NoteBodyRead(id, WINDOW);
    UndisturbedMeans(s, c.Snap());
    SoundCounts(c.Recv());
  }

  /** The client has opened the stream id besides stream 1, and may send on it. */
  ghost predicate OnStream(s: State, id: nat) {
    && Settled(s) && s.reg.streams == {1, id} && s.reg.curClientStreams == 2 && s.reg.maxClientStreamID == id && !s.away.inGoAway
    && Takes(s, id) && s.reg.records[id].hasBody
  }

  /** The part of a round before the handler reads. */
  method SendBody(c: ServerConn, k: nat, id: nat)
    requires After(c, k) && id == 2 * k + 3 < 0x8000_0000
    modifies c
    ensures c.Sane() && Settled(c.Snap()) && Sound(c.Recv()) && !c.overCredited
    ensures c.streams == {1} && c.curClientStreams == 1 && c.maxClientStreamID == id && !c.inGoAway && id in c.records
    ensures c.inflow == WindowAfter(k) && NothingSent(c.Recv(), id) && c.Recv().Of(id).buffered == WINDOW
  {
    hide Inv, Settled, Sound, Later, WindowAfter, OnStream;
    WindowNext(k);
    ghost var r := c.Recv();
    OpenNext(c, id);
    SendAll(c, id);
    FilledMeans(r, id, WINDOW);
    ResetFull(c, id);
    SoundCounts(r);
    SoundCounts(c.Recv());
  }

  method OpenNext(c: ServerConn, id: nat)
    requires c.Sane() && Settled(c.Snap()) && c.streams == {1} && c.curClientStreams == 1 < c.advMaxStreams && !c.inGoAway
    requires id % 2 == 1 && c.maxClientStreamID < id < 0x8000_0000
    modifies c
    ensures c.Sane() && OnStream(c.Snap(), id) && c.Recv() == old(c.Recv())
  {
    hide Inv, Settled, Later;
    ghost var s := c.Snap();
    StreamOne(s, id);
    var p := c.ProcessHeaders(HeadersFrame(id, false, None, false, false));
  }

  lemma StreamOne(s: State, id: nat)
    requires s.reg.streams == {1} && s.reg.maxClientStreamID < id && Inv(s, {}, {})
    ensures id !in s.reg.streams
  {
    hide Windows, Queues, Writing, Marked;
  }

  method SendAll(c: ServerConn, id: nat)
    requires c.Sane() && OnStream(c.Snap(), id) && 0 < id < 0x8000_0000 && Sound(c.Recv()) && !c.overCredited
    requires c.inflow >= WINDOW && c.Recv().Of(id).inflow == WINDOW
    modifies c
    ensures c.Sane() && c.Snap() == old(c.Snap()) && c.Recv() == Filled(old(c.Recv()), id, WINDOW)
    ensures Sound(c.Recv())
  {
    hide Inv, Settled, Sound, Later, Filled;
    var p := c.ProcessData(DataFrame(id, WINDOW, WINDOW, false, false, false));
  }

  method ResetFull(c: ServerConn, id: nat)
    requires c.Sane() && OnStream(c.Snap(), id) && id > 1 && id % 2 == 1 && Sound(c.Recv()) && c.Recv().Of(id).buffered == WINDOW
    modifies c
    ensures c.Sane() && Settled(c.Snap()) && Sound(c.Recv()) && c.streams == {1} && c.curClientStreams == 1 && c.maxClientStreamID == id
    ensures !c.inGoAway && id in c.records
    ensures c.Recv().balance == old(c.Recv().balance) + WINDOW && c.Recv().Of(id).buffered == WINDOW
    ensures forall j :: j != id ==> c.Recv().Of(j) == old(c.Recv().Of(j))
  {
    hide Inv, Settled, Sound, Later, Passed, Refunded;
    ghost var s, r := c.Snap(), c.Recv();
    var p := c.ProcessResetStream(id, WINDOW);
    ResetMeans(r, c.Recv(), id, WINDOW);
    PassedMeans(r, c.Recv());
  }

  lemma SoundCounts(r: Receiving)
    requires Sound(r)
    ensures (r.over <==> r.balance > MAX_INT32) && (!r.over ==> r.inflow == r.balance)
  {
  }

  lemma DrawnMeans(r: Receiving, id: nat, n: nat)
    requires n <= r.Of(id).buffered
    ensures var q := Drawn(r, id, n);
      && q.Of(id) == r.Of(id).(buffered := r.Of(id).buffered - n, unnoted := r.Of(id).unnoted + n)
      && forall j :: j != id ==> q.Of(j) == r.Of(j)
  {
    Replaced(r, Drawn(r, id, n), id, Drawn(r, id, n).Of(id));
  }

  lemma FilledMeans(r: Receiving, id: nat, n: nat)
    requires n <= r.inflow <= MAX_INT32 && 0 < id && n <= r.Of(id).inflow
    ensures var q := Filled(r, id, n);
      && q.Of(id) == r.Of(id).(buffered := r.Of(id).buffered + n, inflow := r.Of(id).inflow - n) && q.balance == r.balance - n
      && forall j :: j != id ==> q.Of(j) == r.Of(j)
  {
    Replaced(r, Taken(r, id, n), id, r.Of(id).(inflow := r.Of(id).inflow - n));
    Replaced(Taken(r, id, n), Filled(r, id, n), id, Filled(r, id, n).Of(id));
  }

  lemma ResetMeans(a: Receiving, b: Receiving, id: nat, n: nat)
    requires Passed(a, b) && Refunded(a, b, id, n)
    ensures b.balance == a.balance + n && b.Of(id).buffered == n && forall j :: j != id ==> b.Of(j) == a.Of(j)
  {
    hide Held;
    forall j | j != id ensures b.Of(j) == a.Of(j) {
      assert b.Of(j).inflow == a.Of(j).inflow && b.Of(j).buffered == a.Of(j).buffered && b.Of(j).Kept() == a.Of(j).Kept();
    }
  }

  /** A new connection, and 32768 rounds. */
  method CreditedTwice() returns (c: ServerConn)
    ensures fresh(c) && !c.panicked && c.overCredited
  {
    hide Inv, Settled, Sound, Later, Undisturbed, Quiet, WindowAfter, After;
    c := FirstStream();
    var k := 0;
    while k < 32767
      invariant 0 <= k <= 32767 && After(c, k)
    {
      WindowNext(k + 1);
      Round(c, k);
      k := k + 1;
    }
    WindowNext(k + 1);
    Round(c, k);
  }

  /** A new connection after the exchange of SETTINGS, on which the client has opened stream 1. */
  method FirstStream() returns (c: ServerConn)
    ensures fresh(c) && After(c, 0)
  {
    hide Inv, Settled, Sound, Later, Undisturbed, Quiet, WindowAfter;
    WindowNext(0);
    c := new ServerConn(100);
    ghost var s, r := c.Snap(), c.Recv();
    SettledQuiet(s);
    c.Start();
    ghost var t := c.Snap();
    UndisturbedMeans(s, t);
    var p;
    ghost var k, moved, mid;
    p, k, moved, mid := c.ProcessSettings(false, []);
    NoSettings(t, mid);
    UndisturbedMeans(mid, c.Snap());
    p := c.ProcessHeaders(HeadersFrame(1, false, None, false, false));
  }

  lemma NoSettings(s: State, t: State)
    requires Applied(s, t, [], 0, {}) && Quiet(s)
    ensures Quiet(t) && t.reg == s.reg && t.away == s.away
  {
  }
}
