/** The receive windows of a server connection: what the client may still send, what has arrived and has not been
    read, and what has been given back. */
module ServerReceives {
  import opened GoInt
  import opened FlowControl

  /** The initial size of every receive window, which is also the size of a stream's buffer. */
  const WINDOW := 65535

  /** Of one stream: its receive window, the bytes in its buffer, and the bytes that its handler has taken out and
      that the serve loop has not been told of. */
  datatype Inbound = Inbound(inflow: Int32, buffered: nat, unnoted: nat) {
    function Kept(): nat {
      buffered + unnoted
    }
  }

  /** The receive window of the connection, and those of the streams. over tells that an increment has been refused,
      which is a panic; balance is what the window would be if it were not bounded. The bytes that were lost with a
      buffer that took no more are never given back; those that a stream had not read when it closed are given back
      twice. */
  datatype Receiving = Receiving(inflow: Int32, inbound: map<nat, Inbound>, over: bool, balance: int, lost: nat, twice: nat) {
    /** A stream of which nothing has arrived has the initial window. */
    function Of(id: nat): Inbound {
      if id in inbound then inbound[id] else Inbound(WINDOW, 0, 0)
    }
  }

  ghost function Held(m: map<nat, Inbound>): nat
    decreases |m|
  {
    if m == map[] then 0
    else
      var k :| k in m;
      m[k].Kept() + Held(m - {k})
  }

  lemma {:induction false} HeldAt(m: map<nat, Inbound>, k: nat)
    requires k in m
    ensures Held(m) == m[k].Kept() + Held(m - {k})
    decreases |m|
  {
    var j :| j in m && Held(m) == m[j].Kept() + Held(m - {j});
    if j != k {
      HeldAt(m - {j}, k);
      HeldAt(m - {k}, j);
      assert m - {j} - {k} == m - {k} - {j};
    }
  }

  /** What one stream holds more, all streams together hold more. */
  lemma HeldUpdate(r: Receiving, id: nat, x: Inbound)
    ensures Held(r.inbound[id := x]) + r.Of(id).Kept() == Held(r.inbound) + x.Kept()
    ensures r.Of(id).Kept() <= Held(r.inbound)
  {
    HeldAt(r.inbound[id := x], id);
    if id in r.inbound {
      HeldAt(r.inbound, id);
      assert r.inbound[id := x] - {id} == r.inbound - {id};
    } else {
      assert r.inbound[id := x] - {id} == r.inbound;
    }
  }

  /** The window is what it should be, and refuses an increment exactly when it would exceed the limit. */
  ghost predicate Counts(r: Receiving) {
    r.balance >= 0 && (r.over <==> r.balance > MAX_INT32) && (!r.over ==> r.inflow == r.balance)
  }

  /** No stream can be sent more than its buffer holds. */
  ghost predicate Bounded(r: Receiving) {
    forall id :: 0 <= r.Of(id).inflow && r.Of(id).inflow + r.Of(id).Kept() <= WINDOW
  }

  /** The window, what is held of all streams and what was lost add up to the initial size and what was given back
      twice. */
  ghost predicate Accounted(r: Receiving) {
    r.balance + Held(r.inbound) + r.lost == WINDOW + r.twice
  }

  ghost predicate Sound(r: Receiving) {
    Counts(r) && Bounded(r) && Accounted(r)
  }

  /** So the connection's window is refused an increment if and only if more has been given back twice than the range
      of the window, what is held and what was lost allow. */
  lemma OverIff(r: Receiving)
    requires Sound(r)
    ensures r.over <==> r.twice > MAX_INT32 - WINDOW + Held(r.inbound) + r.lost
  {
  }

  // ---- Steps

  /** An increment for the stream st, or for the connection if st is 0. */
  function Credited(r: Receiving, st: nat, n: Int32): Receiving {
    if st == 0 then r.(inflow := Grow(r.inflow, n), over := r.over || !Accepts(r.inflow, n), balance := r.balance + n)
    else r.(inbound := r.inbound[st := r.Of(st).(inflow := Grow(r.Of(st).inflow, n))], over := r.over || !Accepts(r.Of(st).inflow, n))
  }

  /** The handler takes n bytes out of the buffer. */
  function Drawn(r: Receiving, id: nat, n: nat): Receiving
    requires n <= r.Of(id).buffered
  {
    r.(inbound := r.inbound[id := r.Of(id).(buffered := r.Of(id).buffered - n, unnoted := r.Of(id).unnoted + n)])
  }

  /** DATA of the given length is taken from the window of the connection, and from that of the stream id unless id
      is 0. */
  function Taken(r: Receiving, id: nat, n: nat): Receiving
    requires n <= r.inflow && (id > 0 ==> n <= r.Of(id).inflow) && r.inflow <= MAX_INT32
  {
    r.(inflow := r.inflow - n, balance := r.balance - n,
       inbound := if id == 0 then r.inbound else r.inbound[id := r.Of(id).(inflow := r.Of(id).inflow - n)])
  }

  /** DATA without padding has been taken and buffered. */
  function Filled(r: Receiving, id: nat, n: nat): Receiving
    requires n <= r.inflow && 0 < id && n <= r.Of(id).inflow && r.inflow <= MAX_INT32
  {
    var t := Taken(r, id, n);
    t.(inbound := t.inbound[id := t.Of(id).(buffered := t.Of(id).buffered + n)])
  }

  /** Between a and b the connection has been given c bytes and the stream st n; streams that have closed in between
      have given back what they had not read, and handlers may have read. */
  ghost predicate Credits(a: Receiving, b: Receiving, c: nat, st: nat, n: nat) {
    && b.lost == a.lost && b.twice >= a.twice && b.balance - b.twice == a.balance - a.twice + c
    && Held(b.inbound) == Held(a.inbound)
    && (forall id :: b.Of(id).inflow == a.Of(id).inflow + if id == st then n else 0)
    && (forall id :: b.Of(id).buffered <= a.Of(id).buffered && b.Of(id).Kept() == a.Of(id).Kept())
    && (Counts(a) ==> Counts(b))
  }

  ghost predicate Passed(a: Receiving, b: Receiving) {
    Credits(a, b, 0, 0, 0)
  }

  lemma PassedSelf(a: Receiving)
    ensures Passed(a, a)
  {
  }

  lemma PassedOn(a: Receiving, b: Receiving, d: Receiving)
    requires Passed(a, b) && Passed(b, d)
    ensures Passed(a, d)
  {
  }

  lemma PassedMeans(a: Receiving, b: Receiving)
    requires Passed(a, b)
    ensures b.balance == a.balance + (b.twice - a.twice) && (Sound(a) ==> Sound(b))
  {
    if Sound(a) { PassedSound(a, b); }
  }

  lemma PassedSound(a: Receiving, b: Receiving)
    requires Passed(a, b) && Sound(a)
    ensures Sound(b)
  {
    forall id ensures 0 <= b.Of(id).inflow && b.Of(id).inflow + b.Of(id).Kept() <= WINDOW {
      assert b.Of(id).inflow == a.Of(id).inflow && b.Of(id).Kept() == a.Of(id).Kept();
    }
  }

  lemma CreditedConn(a: Receiving, n: Int32)
    requires n > 0
    ensures Credits(a, Credited(a, 0, n), n, 0, 0)
  {
  }

  lemma CreditedStream(a: Receiving, st: nat, n: Int32)
    requires n > 0 && st > 0 && a.Of(st).inflow >= 0 && a.Of(st).inflow + n <= MAX_INT32
    ensures Credits(a, Credited(a, st, n), 0, st, n)
  {
    hide Held, Receiving.Of, Grow, Accepts;
    AcceptsNonNegative(a.Of(st).inflow, n);
    Replaced(a, Credited(a, st, n), st, a.Of(st).(inflow := Grow(a.Of(st).inflow, n)));
  }

  lemma DrawnPassed(a: Receiving, id: nat, n: nat)
    requires n <= a.Of(id).buffered
    ensures Passed(a, Drawn(a, id, n))
  {
    hide Held, Receiving.Of;
    Replaced(a, Drawn(a, id, n), id, a.Of(id).(buffered := a.Of(id).buffered - n, unnoted := a.Of(id).unnoted + n));
  }

  /** No stream has closed in between, and no handler has read: only windows have grown. */
  ghost predicate Grew(a: Receiving, b: Receiving) {
    b.twice == a.twice && forall id :: b.Of(id).buffered == a.Of(id).buffered && b.Of(id).unnoted == a.Of(id).unnoted
  }

  lemma GrewSelf(a: Receiving)
    ensures Grew(a, a)
  {
  }

  lemma GrewOn(a: Receiving, b: Receiving, d: Receiving)
    requires Grew(a, b) && Grew(b, d)
    ensures Grew(a, d)
  {
  }

  lemma GrewCredited(a: Receiving, st: nat, n: Int32)
    ensures Grew(a, Credited(a, st, n))
  {
    hide Grow, Accepts;
  }

  /** The stream id has closed and had n bytes unread; no other has, and no other handler has read. */
  ghost predicate Refunded(a: Receiving, b: Receiving, id: nat, n: nat) {
    b.twice == a.twice + n && b.Of(id).buffered == n && forall j :: j != id ==> b.Of(j).buffered == a.Of(j).buffered
  }

  lemma RefundedOf(a: Receiving, q: Receiving, b: Receiving, id: nat, n: nat)
    requires n <= a.Of(id).buffered && q == Drawn(a, id, a.Of(id).buffered - n) && Grew(q, b)
    ensures Refunded(a, b.(twice := b.twice + n), id, n)
  {
    hide Held, Receiving.Of;
    var d := b.(twice := b.twice + n);
    OfSame(b, d);
    Replaced(a, q, id, a.Of(id).(buffered := n, unnoted := a.Of(id).unnoted + (a.Of(id).buffered - n)));
    forall j ensures d.Of(j).buffered == if j == id then n else a.Of(j).buffered {
      assert d.Of(j) == b.Of(j) && b.Of(j).buffered == q.Of(j).buffered;
    }
  }

  // ---- Giving window back

  /** n bytes have been given to the stream st, or to the connection if st is 0. */
  ghost predicate Given(a: Receiving, b: Receiving, st: nat, n: nat) {
    Credits(a, b, if st == 0 then n else 0, st, if st == 0 then 0 else n)
  }

  lemma GivenNone(a: Receiving, st: nat)
    ensures Given(a, a, st, 0) && Passed(a, a)
  {
  }

  lemma GivenOn(a: Receiving, b: Receiving, d: Receiving, st: nat, n: nat, m: nat)
    requires Given(a, b, st, n) && Given(b, d, st, m)
    ensures Given(a, d, st, n + m)
  {
  }

  lemma GivenRoom(a: Receiving, b: Receiving, st: nat, n: nat)
    requires Given(a, b, st, n)
    ensures st > 0 ==> b.Of(st).inflow == a.Of(st).inflow + n
  {
  }

  /** An increment after whatever has happened since a. */
  lemma GivenCredit(a: Receiving, b: Receiving, st: nat, n: Int32)
    requires Passed(a, b) && n > 0 && (st > 0 ==> 0 <= a.Of(st).inflow && a.Of(st).inflow + n <= MAX_INT32)
    ensures Given(a, Credited(b, st, n), st, n)
  {
    hide Credited, Held, Receiving.Of, Counts;
    assert b.Of(st).inflow == a.Of(st).inflow;
    if st == 0 { CreditedConn(b, n); } else { CreditedStream(b, st, n); }
  }

  /** What a stream had not read when it closed has been given back, and will be again. */
  lemma GivenTwice(a: Receiving, b: Receiving, n: nat)
    requires Given(a, b, 0, n)
    ensures Passed(a, b.(twice := b.twice + n)) && b.twice >= a.twice
  {
    hide Held, Receiving.Of;
    OfSame(b, b.(twice := b.twice + n));
  }

  lemma OfSame(a: Receiving, b: Receiving)
    requires a.inbound == b.inbound
    ensures forall id :: a.Of(id) == b.Of(id)
  {
  }

  /** What was given to the connection leaves the stream id as it was. */
  lemma GivenConn(a: Receiving, b: Receiving, n: nat, id: nat)
    requires Given(a, b, 0, n)
    ensures Credits(a, b, n, id, 0) && b.Of(id).inflow == a.Of(id).inflow
  {
  }

  lemma GivenBoth(a: Receiving, b: Receiving, d: Receiving, c: nat, id: nat, n: nat)
    requires Given(a, b, 0, c) && Given(b, d, id, n) && id > 0
    ensures Credits(a, d, c, id, n)
  {
  }

  /** What is taken for DATA that is refused is given back. */
  lemma TakenBack(a: Receiving, b: Receiving, n: nat)
    requires !a.over && n <= a.inflow && Given(Taken(a, 0, n), b, 0, n)
    ensures Passed(a, b)
  {
    hide Held, Receiving.Of;
    OfSame(a, Taken(a, 0, n));
  }

  // ---- Reading

  /** The serve loop has been told of n bytes read. */
  lemma NotedRoom(a: Receiving, b: Receiving, id: nat, n: nat)
    requires Sound(a) && n <= a.Of(id).unnoted && b == a.(inbound := a.inbound[id := a.Of(id).(unnoted := a.Of(id).unnoted - n)])
    ensures 0 <= b.Of(id).inflow && b.Of(id).inflow + n <= MAX_INT32
    ensures Held(b.inbound) == Held(a.inbound) - n
  {
    hide Held, Receiving.Of, Counts, Accounted;
    Replaced(a, b, id, a.Of(id).(unnoted := a.Of(id).unnoted - n));
  }

  /** The serve loop has been told of n bytes read; other streams are as they were. */
  ghost predicate Told(a: Receiving, b: Receiving, id: nat, n: nat) {
    && b.twice == a.twice && b.Of(id).buffered == a.Of(id).buffered && b.Of(id).unnoted == a.Of(id).unnoted - n
    && forall j :: j != id ==> b.Of(j) == a.Of(j)
  }

  lemma NotedTold(a: Receiving, b: Receiving, d: Receiving, id: nat, n: nat, m: nat)
    requires n <= a.Of(id).unnoted && b == a.(inbound := a.inbound[id := a.Of(id).(unnoted := a.Of(id).unnoted - n)])
    requires Credits(b, d, n, id, m) && Grew(b, d)
    ensures Told(a, d, id, n)
  {
    Replaced(a, b, id, a.Of(id).(unnoted := a.Of(id).unnoted - n));
    forall j | j != id ensures d.Of(j) == a.Of(j) {
      assert d.Of(j).inflow == b.Of(j).inflow && d.Of(j).buffered == b.Of(j).buffered && d.Of(j).unnoted == b.Of(j).unnoted;
    }
  }

  lemma NotedSound(a: Receiving, b: Receiving, d: Receiving, id: nat, n: nat, m: nat)
    requires Sound(a) && n <= a.Of(id).unnoted && b == a.(inbound := a.inbound[id := a.Of(id).(unnoted := a.Of(id).unnoted - n)])
    requires Credits(b, d, n, id, m) && m <= n
    ensures Sound(d) && d.balance == a.balance + n + (d.twice - a.twice)
  {
    hide Held, Receiving.Of;
    Replaced(a, b, id, a.Of(id).(unnoted := a.Of(id).unnoted - n));
    forall j ensures 0 <= d.Of(j).inflow && d.Of(j).inflow + d.Of(j).Kept() <= WINDOW {
      assert d.Of(j).inflow == b.Of(j).inflow + (if j == id then m else 0) && d.Of(j).Kept() == b.Of(j).Kept();
    }
  }

  // ---- Data

  /** Between a and b a DATA frame of the stream id was buffered (taken), or lost with a closed buffer, or neither;
      padding is given back. */
  ghost predicate Arrived(a: Receiving, b: Receiving, id: nat, length: nat, dataLength: nat, taken: bool, gone: bool) {
    && b.twice >= a.twice && b.lost == a.lost + (if gone then length else 0)
    && b.balance - b.twice == a.balance - a.twice - (if gone then length else if taken then dataLength else 0)
    && b.Of(id).Kept() == a.Of(id).Kept() + (if taken then dataLength else 0)
    && b.Of(id).inflow == a.Of(id).inflow - (if gone then length else if taken then dataLength else 0)
  }

  lemma SoundMeans(a: Receiving, id: nat)
    requires Sound(a)
    ensures 0 <= a.Of(id).inflow && (!a.over ==> a.inflow >= 0)
  {
  }

  lemma TakenOf(a: Receiving, id: nat, n: nat)
    requires n <= a.inflow && id > 0 && n <= a.Of(id).inflow
    ensures Taken(a, id, n).Of(id) == a.Of(id).(inflow := a.Of(id).inflow - n) && Taken(a, id, n).lost == a.lost
  {
  }

  lemma NothingArrived(a: Receiving, b: Receiving, id: nat, length: nat, dataLength: nat)
    requires Passed(a, b)
    ensures Arrived(a, b, id, length, dataLength, false, false) && (Sound(a) ==> Sound(b))
  {
    if Sound(a) { PassedSound(a, b); }
  }

  lemma ArrivedMeans(a: Receiving, b: Receiving, id: nat, length: nat, dataLength: nat, taken: bool, gone: bool)
    requires Arrived(a, b, id, length, dataLength, taken, gone)
    ensures b.balance - b.twice == a.balance - a.twice - (if gone then length else if taken then dataLength else 0)
  {
  }

  lemma EmptyArrived(a: Receiving, id: nat)
    ensures Arrived(a, a, id, 0, 0, true, false)
  {
  }

  lemma PaddingNone(a: Receiving, id: nat)
    ensures Credits(a, a, 0, id, 0)
  {
  }

  lemma DataLost(a: Receiving, b: Receiving, id: nat, length: nat, dataLength: nat)
    requires id > 0 && length <= a.inflow && length <= a.Of(id).inflow && b == Taken(a, id, length).(lost := a.lost + length)
    ensures Arrived(a, b, id, length, dataLength, false, true) && (Sound(a) && !a.over ==> Sound(b))
  {
    hide Held, Receiving.Of;
    Replaced(a, b, id, a.Of(id).(inflow := a.Of(id).inflow - length));
  }

  lemma DataBuffered(a: Receiving, b: Receiving, d: Receiving, id: nat, length: nat, dataLength: nat)
    requires id > 0 && dataLength <= length <= a.inflow && length <= a.Of(id).inflow
    requires var t := Taken(a, id, length); b == t.(inbound := t.inbound[id := t.Of(id).(buffered := t.Of(id).buffered + dataLength)])
    requires Credits(b, d, length - dataLength, id, length - dataLength)
    ensures Arrived(a, d, id, length, dataLength, true, false) && (Sound(a) && !a.over ==> Sound(d))
  {
    hide Held, Receiving.Of;
    var t := Taken(a, id, length);
    Replaced(a, t, id, a.Of(id).(inflow := a.Of(id).inflow - length));
    Replaced(t, b, id, t.Of(id).(buffered := t.Of(id).buffered + dataLength));
    if Sound(a) && !a.over {
      forall j ensures 0 <= d.Of(j).inflow && d.Of(j).inflow + d.Of(j).Kept() <= WINDOW {
        assert d.Of(j).inflow == b.Of(j).inflow + (if j == id then length - dataLength else 0) && d.Of(j).Kept() == b.Of(j).Kept();
      }
    }
  }

  lemma Replaced(a: Receiving, b: Receiving, id: nat, x: Inbound)
    requires b.inbound == a.inbound[id := x]
    ensures forall j :: b.Of(j) == if j == id then x else a.Of(j)
    ensures Held(b.inbound) + a.Of(id).Kept() == Held(a.inbound) + x.Kept() && a.Of(id).Kept() <= Held(a.inbound)
  {
    hide Held, Inbound.Kept;
    assert Held(b.inbound) + a.Of(id).Kept() == Held(a.inbound) + x.Kept() && a.Of(id).Kept() <= Held(a.inbound) by { HeldUpdate(a, id, x); }
    forall j ensures b.Of(j) == if j == id then x else a.Of(j) {
      OfReplaced(a, b, id, x, j);
    }
  }

  lemma OfReplaced(a: Receiving, b: Receiving, id: nat, x: Inbound, j: nat)
    requires b.inbound == a.inbound[id := x]
    ensures b.Of(j) == if j == id then x else a.Of(j)
  {
  }
}
