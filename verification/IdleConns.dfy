/** The idle connections of an HTTP/1 transport: a list for each host, and the order in which the
    connections became idle. */
module IdleConns {
  import opened GoInt
  import opened Options

  type Key = nat

  datatype Timer = NoTimer | Running | Over

  class PersistConn {
    const cacheKey: Key
    var broken: bool
    var isH2: bool
    var timer: Timer
    var reused: bool
    var closed: bool

    constructor (cacheKey: Key, isH2: bool)
      ensures this.cacheKey == cacheKey && this.isH2 == isH2 && !broken && !closed && timer == NoTimer
    {
      this.cacheKey, this.isH2 := cacheKey, isH2;
      broken, reused, closed, timer := false, false, false, NoTimer;
    }

    /** The connection can be used, and its timer, if any, has not run out. */
    predicate Usable()
      reads this
    {
      !broken && !timer.Over?
    }

    /** Whether the connection can still be taken: it is not broken, and its timer, which is stopped, had not run out. */
    method StopTimer() returns (usable: bool)
      modifies this`timer
      ensures usable <==> old(Usable())
      ensures timer == if old(broken || timer == NoTimer) then old(timer) else Over
    {
      if broken {
        return false;
      }
      usable := true;
      if timer != NoTimer {
        usable := timer == Running;
        timer := Over;
      }
    }

    method Close()
      modifies this`closed, this`broken
      ensures closed && broken
    {
      closed, broken := true, true;
    }
  }

  // ---- Sequences without repetitions

  ghost predicate Distinct<T>(s: seq<T>) {
    forall i, j :: 0 <= i < j < |s| ==> s[i] != s[j]
  }

  /** The connections of s for the host key, in order. */
  ghost function Under(s: seq<PersistConn>, key: Key): (r: seq<PersistConn>) {
    if s == [] then []
    else Under(s[..|s| - 1], key) + if s[|s| - 1].cacheKey == key then [s[|s| - 1]] else []
  }

  ghost function Without(s: seq<PersistConn>, x: PersistConn): seq<PersistConn> {
    if s == [] then []
    else Without(s[..|s| - 1], x) + if s[|s| - 1] == x then [] else [s[|s| - 1]]
  }

  lemma UnderAppend(s: seq<PersistConn>, x: PersistConn, key: Key)
    ensures Under(s + [x], key) == Under(s, key) + if x.cacheKey == key then [x] else []
  {
    assert (s + [x])[..|s|] == s;
  }

  lemma {:induction false} UnderMembers(s: seq<PersistConn>, key: Key)
    ensures forall x :: x in Under(s, key) <==> x in s && x.cacheKey == key
    ensures Distinct(s) ==> Distinct(Under(s, key))
    ensures |Under(s, key)| <= |s|
  {
    if s != [] {
      UnderMembers(s[..|s| - 1], key);
      assert forall x :: x in s <==> x in s[..|s| - 1] || x == s[|s| - 1];
    }
  }

  lemma {:induction false} WithoutMembers(s: seq<PersistConn>, x: PersistConn)
    ensures forall y :: y in Without(s, x) <==> y in s && y != x
    ensures x !in s ==> Without(s, x) == s
    ensures Distinct(s) ==> Distinct(Without(s, x)) && |Without(s, x)| == |s| - if x in s then 1 else 0
  {
    if s != [] {
      var t, y := s[..|s| - 1], s[|s| - 1];
      WithoutMembers(t, x);
      assert s == t + [y];
      assert forall z :: z in s <==> z in t || z == y;
      if Distinct(s) { DistinctFront(s, x); }
    }
  }

  /** The last of distinct things is not among the others, and taking x out of them keeps them distinct. */
  lemma DistinctFront(s: seq<PersistConn>, x: PersistConn)
    requires s != [] && Distinct(s)
    ensures Distinct(s[..|s| - 1]) && s[|s| - 1] !in s[..|s| - 1]
  {
  }

  /** Removing a connection from the order removes it from the list of its host, and changes no other. */
  lemma {:induction false} UnderWithout(s: seq<PersistConn>, x: PersistConn, key: Key)
    ensures Under(Without(s, x), key) == if x.cacheKey == key then Without(Under(s, key), x) else Under(s, key)
  {
    if s != [] {
      var t, y := s[..|s| - 1], s[|s| - 1];
      UnderWithout(t, x, key);
      assert Under(s, key) == Under(t, key) + if y.cacheKey == key then [y] else [];
      if y.cacheKey == key { WithoutAppend(Under(t, key), y, x); }
      if y != x {
        UnderAppend(Without(t, x), y, key);
        assert Without(s, x) == Without(t, x) + [y];
      } else {
        assert Without(s, x) == Without(t, x);
      }
      if y.cacheKey != key {
        assert Under(s, key) == Under(t, key);
      }
    }
  }

  lemma WithoutAppend(s: seq<PersistConn>, y: PersistConn, x: PersistConn)
    ensures Without(s + [y], x) == Without(s, x) + if y == x then [] else [y]
  {
    assert (s + [y])[..|s|] == s;
  }

  lemma {:induction false} WithoutAt(s: seq<PersistConn>, i: nat)
    requires Distinct(s) && i < |s|
    ensures Without(s, s[i]) == s[..i] + s[i + 1..]
  {
    var x := s[i];
    if i == |s| - 1 {
      WithoutMembers(s[..|s| - 1], x);
    } else {
      WithoutAt(s[..|s| - 1], i);
      assert s[i + 1..] == s[..|s| - 1][i + 1..] + [s[|s| - 1]];
    }
  }

  lemma {:induction false} FirstUnder(s: seq<PersistConn>)
    requires s != []
    ensures Under(s, s[0].cacheKey) != [] && Under(s, s[0].cacheKey)[0] == s[0]
  {
    if |s| > 1 {
      FirstUnder(s[..|s| - 1]);
    }
  }

  // ---- The order in which connections became idle

  /** A node of the list; the number tells nodes with the same connection apart. */
  datatype Element = Element(id: nat, value: PersistConn)

  class ConnLRU {
    /** The newest connection comes first. */
    var ll: seq<Element>
    var m: map<PersistConn, Element>
    var nextID: nat

    ghost predicate Valid()
      reads this
    {
      Linked(ll, m, nextID)
    }

    /** The connections from the one idle longest to the newest. */
    ghost function Order(): (s: seq<PersistConn>)
      reads this
    {
      Oldest(ll)
    }

    constructor ()
      ensures Valid() && Order() == []
    {
      ll, m, nextID := [], map[], 0;
    }

    /** Adding a connection twice is a panic. */
    method Add(pc: PersistConn)
      requires Valid() && pc !in Order()
      modifies this
      ensures Valid() && Order() == old(Order()) + [pc]
    {
      AddLinked(ll, m, nextID, pc);
      var ele := Element(nextID, pc);
      nextID := nextID + 1;
      ll := [ele] + ll;
      m := m[pc := ele];
    }

    /** Unlinks a node. */
    method Unlink(i: nat)
      requires Valid() && i < |ll|
      modifies this
      ensures Valid() && Order() == Without(old(Order()), old(ll[i].value))
    {
      UnlinkLinked(ll, m, nextID, i);
      m := m - {ll[i].value};
      ll := ll[..i] + ll[i + 1..];
    }

    method RemoveOldest() returns (pc: PersistConn)
      requires Valid() && Order() != []
      modifies this
      ensures Valid() && pc == old(Order())[0] && Order() == Without(old(Order()), pc)
    {
      pc := ll[|ll| - 1].value;
      Unlink(|ll| - 1);
    }

    method Remove(pc: PersistConn)
      requires Valid()
      modifies this
      ensures Valid() && Order() == Without(old(Order()), pc)
    {
      LinkedOrder(ll, m, nextID, pc);
      if pc in m {
        var i :| 0 <= i < |ll| && ll[i] == m[pc];
        Unlink(i);
      } else {
        WithoutMembers(Order(), pc);
      }
    }

    function Len(): (n: nat)
      requires Valid()
      reads this
      ensures n == |Order()|
    {
      Sizes(ll, m);
      |m|
    }
  }

  /** The map finds every node by its connection, and no connection is there twice. */
  ghost predicate Linked(ll: seq<Element>, m: map<PersistConn, Element>, nextID: nat) {
    && (forall i :: 0 <= i < |ll| ==> ll[i].value in m && m[ll[i].value] == ll[i] && ll[i].id < nextID)
    && (forall pc :: pc in m ==> m[pc] in ll && m[pc].value == pc)
    && (forall i, j :: 0 <= i < j < |ll| ==> ll[i].value != ll[j].value)
  }

  ghost function Oldest(ll: seq<Element>): (s: seq<PersistConn>)
    ensures |s| == |ll| && forall i :: 0 <= i < |s| ==> s[i] == ll[|ll| - 1 - i].value
  {
    seq(|ll|, i requires 0 <= i < |ll| => ll[|ll| - 1 - i].value)
  }

  lemma LinkedOrder(ll: seq<Element>, m: map<PersistConn, Element>, nextID: nat, pc: PersistConn)
    requires Linked(ll, m, nextID)
    ensures pc in m <==> pc in Oldest(ll)
    ensures Distinct(Oldest(ll))
  {
    if pc in m {
      var i :| 0 <= i < |ll| && ll[i] == m[pc];
      assert Oldest(ll)[|ll| - 1 - i] == pc;
    }
  }

  lemma AddLinked(ll: seq<Element>, m: map<PersistConn, Element>, nextID: nat, pc: PersistConn)
    requires Linked(ll, m, nextID) && pc !in Oldest(ll)
    ensures var ele := Element(nextID, pc);
      pc !in m && Linked([ele] + ll, m[pc := ele], nextID + 1) && Oldest([ele] + ll) == Oldest(ll) + [pc]
  {
    LinkedOrder(ll, m, nextID, pc);
    var ele := Element(nextID, pc);
    var l, n := [ele] + ll, m[pc := ele];
    forall q | q in n ensures n[q] in l && n[q].value == q {
      if q != pc { assert m[q] in ll; }
    }
    forall i | 0 <= i < |l| ensures l[i].value in n && n[l[i].value] == l[i] && l[i].id < nextID + 1 {
      if i > 0 { assert l[i] == ll[i - 1] && ll[i - 1].value in m; }
    }
  }

  lemma UnlinkLinked(ll: seq<Element>, m: map<PersistConn, Element>, nextID: nat, i: nat)
    requires Linked(ll, m, nextID) && i < |ll|
    ensures var l := ll[..i] + ll[i + 1..];
      Linked(l, m - {ll[i].value}, nextID) && Oldest(l) == Without(Oldest(ll), ll[i].value)
  {
    hide Without, Under;
    var x := ll[i].value;
    var l, n := ll[..i] + ll[i + 1..], m - {x};
    var order, k := Oldest(ll), |ll| - 1 - i;
    LinkedOrder(ll, m, nextID, x);
    WithoutAt(order, k);
    assert Oldest(l) == order[..k] + order[k + 1..];
    forall q | q in n ensures n[q] in l && n[q].value == q {
      assert m[q] in ll && m[q] != ll[i];
    }
    forall j | 0 <= j < |l| ensures l[j].value in n && n[l[j].value] == l[j] && l[j].id < nextID {
      var h := if j < i then j else j + 1;
      assert l[j] == ll[h] && ll[h].value in m;
    }
  }

  lemma {:induction false} Sizes(ll: seq<Element>, m: map<PersistConn, Element>)
    requires forall i :: 0 <= i < |ll| ==> ll[i].value in m && m[ll[i].value] == ll[i]
    requires forall pc :: pc in m ==> m[pc] in ll && m[pc].value == pc
    requires forall i, j :: 0 <= i < j < |ll| ==> ll[i].value != ll[j].value
    ensures |m| == |ll|
  {
    if ll == [] {
      assert m == map[];
    } else {
      var x := ll[0].value;
      var n := m - {x};
      forall pc | pc in n ensures n[pc] in ll[1..] {
        assert m[pc] in ll && m[pc] != ll[0];
      }
      Sizes(ll[1..], n);
      assert m.Keys == n.Keys + {x};
      assert |m.Keys| == |n.Keys| + 1;
    }
  }

  /** The order without the connections in gone. */
  ghost function Keep(s: seq<PersistConn>, gone: set<PersistConn>): seq<PersistConn> {
    if s == [] then []
    else Keep(s[..|s| - 1], gone) + if s[|s| - 1] in gone then [] else [s[|s| - 1]]
  }

  ghost function Members(s: seq<PersistConn>): set<PersistConn> {
    set x | x in s
  }

  lemma {:induction false} KeepStep(s: seq<PersistConn>, gone: set<PersistConn>, x: PersistConn)
    ensures Without(Keep(s, gone), x) == Keep(s, gone + {x})
    ensures Keep(s, {}) == s
  {
    if s != [] {
      var t, y := s[..|s| - 1], s[|s| - 1];
      KeepStep(t, gone, x);
      assert s == t + [y];
      if y in gone {
        assert Keep(s, gone) == Keep(t, gone);
      } else {
        WithoutAppend(Keep(t, gone), y, x);
      }
    }
  }

  // ---- Lists and order

  /** Every host's list is what the order holds for the host, and no host has an empty list. */
  ghost predicate Agree(m: map<Key, seq<PersistConn>>, order: seq<PersistConn>) {
    && Distinct(order)
    && (forall key :: key in m ==> m[key] != [] && m[key] == Under(order, key))
    && (forall key :: key !in m ==> Under(order, key) == [])
  }

  ghost function ListOf(m: map<Key, seq<PersistConn>>, key: Key): seq<PersistConn> {
    if key in m then m[key] else []
  }

  /** What agreement means: the lists and the order hold the same connections, each in the list of its own
      host and once only, and no list is empty. */
  lemma AgreeMeans(m: map<Key, seq<PersistConn>>, order: seq<PersistConn>)
    requires Agree(m, order)
    ensures forall x :: x in order <==> x.cacheKey in m && x in m[x.cacheKey]
    ensures forall key, x :: key in m && x in m[key] ==> x.cacheKey == key
    ensures forall key :: key in m ==> m[key] != [] && Distinct(m[key])
  {
    forall x | x in order ensures x.cacheKey in m && x in m[x.cacheKey] {
      UnderMembers(order, x.cacheKey);
      assert x in Under(order, x.cacheKey);
    }
    forall key | key in m ensures Distinct(m[key]) && forall x :: x in m[key] ==> x in order && x.cacheKey == key {
      UnderMembers(order, key);
    }
  }

  lemma AgreeAppend(m: map<Key, seq<PersistConn>>, order: seq<PersistConn>, x: PersistConn)
    requires Agree(m, order) && x !in order
    ensures Agree(m[x.cacheKey := ListOf(m, x.cacheKey) + [x]], order + [x])
  {
    forall key ensures Under(order + [x], key) == Under(order, key) + if x.cacheKey == key then [x] else [] {
      UnderAppend(order, x, key);
    }
  }

  /** The lists without x. */
  ghost function Cut(m: map<Key, seq<PersistConn>>, x: PersistConn): map<Key, seq<PersistConn>> {
    var l := Without(ListOf(m, x.cacheKey), x);
    if l == [] then m - {x.cacheKey} else m[x.cacheKey := l]
  }

  lemma CutShorter(m: map<Key, seq<PersistConn>>, x: PersistConn, max: int)
    requires forall key :: key in m ==> |m[key]| <= max
    ensures forall key :: key in Cut(m, x) ==> |Cut(m, x)[key]| <= max
  {
    var l := ListOf(m, x.cacheKey);
    WithoutShorter(l, x);
  }

  lemma {:induction false} WithoutShorter(s: seq<PersistConn>, x: PersistConn)
    ensures |Without(s, x)| <= |s|
  {
    if s != [] { WithoutShorter(s[..|s| - 1], x); }
  }

  lemma AgreeWithout(m: map<Key, seq<PersistConn>>, order: seq<PersistConn>, x: PersistConn)
    requires Agree(m, order)
    ensures Agree(Cut(m, x), Without(order, x))
  {
    WithoutMembers(order, x);
    forall key ensures Under(Without(order, x), key) == if x.cacheKey == key then Without(Under(order, key), x) else Under(order, key) {
      UnderWithout(order, x, key);
    }
  }

  lemma WithoutTwice(s: seq<PersistConn>, x: PersistConn)
    ensures Without(Without(s, x), x) == Without(s, x)
  {
    WithoutMembers(s, x);
    WithoutMembers(Without(s, x), x);
  }

  lemma AgreeDistinct(m: map<Key, seq<PersistConn>>, order: seq<PersistConn>)
    requires Agree(m, order)
    ensures Distinct(order)
  {
  }

  lemma WithoutFirst(s: seq<PersistConn>)
    requires Distinct(s) && s != []
    ensures Without(s, s[0]) == s[1..]
  {
    WithoutAt(s, 0);
  }

  /** Removing x from a list of its host. */
  lemma ListWithout(m: map<Key, seq<PersistConn>>, order: seq<PersistConn>, x: PersistConn)
    requires Agree(m, order)
    ensures var l := ListOf(m, x.cacheKey);
      && Distinct(l) && (forall i :: 0 <= i < |l| && l[i] == x ==> Without(l, x) == l[..i] + l[i + 1..])
      && (x !in l ==> Without(l, x) == l) && (l == [] <==> x.cacheKey !in m)
  {
    var l := ListOf(m, x.cacheKey);
    if x.cacheKey in m { UnderMembers(order, x.cacheKey); }
    WithoutMembers(l, x);
    forall i | 0 <= i < |l| && l[i] == x ensures Without(l, x) == l[..i] + l[i + 1..] {
      WithoutAt(l, i);
    }
  }

  // ---- The transport

  datatype PutError = KeepAlivesDisabled | ConnBroken | NotCachingH2Conn | WantIdle | TooManyIdleHost

  const DEFAULT_PER_HOST: nat := 2

  class Transport {
    const disableKeepAlives: bool
    const maxIdleConns: int
    const maxIdleConnsPerHost: int
    const idleTimeout: bool
    var idleConn: map<Key, seq<PersistConn>>
    /** The hosts for which a dialer may be waiting. */
    var idleConnCh: set<Key>
    var wantIdle: bool
    var idleLRU: ConnLRU

    function PerHost(): int {
      if maxIdleConnsPerHost != 0 then maxIdleConnsPerHost else DEFAULT_PER_HOST
    }

    ghost function Order(): seq<PersistConn>
      reads this, idleLRU
    {
      idleLRU.Order()
    }

    ghost predicate Valid()
      reads this, idleLRU
    {
      && idleLRU.Valid() && Agree(idleConn, Order())
      && (forall key :: key in idleConn ==> |idleConn[key]| <= PerHost())
      && (maxIdleConns > 0 ==> |Order()| <= maxIdleConns) && (maxIdleConns < 0 ==> Order() == [])
    }

    constructor (disableKeepAlives: bool, maxIdleConns: int, maxIdleConnsPerHost: int, idleTimeout: bool)
      ensures Valid() && fresh(idleLRU) && Order() == []
    {
      this.disableKeepAlives, this.maxIdleConns, this.maxIdleConnsPerHost, this.idleTimeout :=
        disableKeepAlives, maxIdleConns, maxIdleConnsPerHost, idleTimeout;
      idleConn, idleConnCh, wantIdle := map[], {}, false;
      idleLRU := new ConnLRU();
    }

    /** Registers a connection as idle, unless a dialer that waits takes it (handed); if it is
        registered already, the program exits. */
    method TryPutIdleConn(pconn: PersistConn, handed: bool) returns (err: Option<PutError>)
      requires Valid() && pconn !in Order()
      modifies this`idleConn, this`idleConnCh, idleLRU
      modifies set x | x in Order() + [pconn]
      ensures Valid()
      ensures err == old(PutRefusal(pconn, handed))
      ensures Order() == old(if PutRefusal(pconn, handed).Some? || Handed(pconn, handed) then Order() else Capped(Order() + [pconn]))
    {
      hide Agree;
      if disableKeepAlives || maxIdleConnsPerHost < 0 {
        return Some(KeepAlivesDisabled);
      }
      if pconn.broken {
        return Some(ConnBroken);
      }
      if pconn.isH2 {
        return Some(NotCachingH2Conn);
      }
      pconn.reused := true;
      var key := pconn.cacheKey;
      if key in idleConnCh {
        if handed {
          return None;
        }
        idleConnCh := idleConnCh - {key};
      }
      if wantIdle {
        return Some(WantIdle);
      }
      if key in idleConn && |idleConn[key]| >= PerHost() {
        return Some(TooManyIdleHost);
      }
      Put(pconn);
      if idleTimeout {
        pconn.timer := Running;
      }
      return None;
    }

    /** Adds a connection to the list of its host and to the order, and drops the oldest if they are too many. */
    method Put(pconn: PersistConn)
      requires Valid() && pconn !in Order() && |ListOf(idleConn, pconn.cacheKey)| < PerHost()
      modifies this`idleConn, idleLRU
      modifies set x | x in Order() + [pconn]
      ensures Valid() && Order() == Capped(old(Order()) + [pconn])
    {
      hide Agree, Cut, Under, Without;
      ghost var order := Order();
      AgreeAppend(idleConn, order, pconn);
      AgreeDistinct(idleConn[pconn.cacheKey := ListOf(idleConn, pconn.cacheKey) + [pconn]], order + [pconn]);
      var key := pconn.cacheKey;
      var idles := if key in idleConn then idleConn[key] else [];
      idleConn := idleConn[key := idles + [pconn]];
      idleLRU.Add(pconn);
      if maxIdleConns != 0 && idleLRU.Len() > maxIdleConns {
        WithoutFirst(order + [pconn]);
        var oldest := idleLRU.RemoveOldest();
        oldest.Close();
        CutShorter(idleConn, oldest, PerHost());
        RemoveIdleConnLocked(oldest, order + [pconn]);
      }
    }

    predicate Handed(pconn: PersistConn, handed: bool)
      reads this
    {
      handed && pconn.cacheKey in idleConnCh
    }

    /** Why a connection is not registered. */
    function PutRefusal(pconn: PersistConn, handed: bool): Option<PutError>
      reads this, pconn
    {
      if disableKeepAlives || maxIdleConnsPerHost < 0 then Some(KeepAlivesDisabled)
      else if pconn.broken then Some(ConnBroken)
      else if pconn.isH2 then Some(NotCachingH2Conn)
      else if Handed(pconn, handed) then None
      else if wantIdle then Some(WantIdle)
      else if pconn.cacheKey in idleConn && |idleConn[pconn.cacheKey]| >= PerHost() then Some(TooManyIdleHost)
      else None
    }

    /** The order without the connection idle longest, if it is over the limit. */
    ghost function Capped(order: seq<PersistConn>): seq<PersistConn> {
      if order != [] && maxIdleConns != 0 && |order| > maxIdleConns then order[1..] else order
    }

    /** Takes a connection out of the order, if it is still there, and out of the list of its host. The order was
        that before anything was taken out. */
    method RemoveIdleConnLocked(pconn: PersistConn, ghost order: seq<PersistConn>)
      requires idleLRU.Valid() && Agree(idleConn, order) && (Order() == order || Order() == Without(order, pconn))
      modifies this`idleConn, idleLRU, pconn`timer
      ensures idleLRU.Valid() && Order() == Without(order, pconn) && Agree(idleConn, Order()) && idleConn == Cut(old(idleConn), pconn)
    {
      hide Agree, Cut;
      if pconn.timer != NoTimer {
        pconn.timer := Over;
      }
      WithoutTwice(order, pconn);
      AgreeWithout(idleConn, order, pconn);
      idleLRU.Remove(pconn);
      CutList(pconn, order);
    }

    /** Takes a connection out of the list of its host, and the list away if it was the only one. */
    method CutList(pconn: PersistConn, ghost order: seq<PersistConn>)
      requires Agree(idleConn, order)
      modifies this`idleConn
      ensures idleConn == Cut(old(idleConn), pconn)
    {
      hide Agree;
      ListWithout(idleConn, order, pconn);
      var key := pconn.cacheKey;
      var pconns := if key in idleConn then idleConn[key] else [];
      if |pconns| == 0 {
      } else if |pconns| == 1 {
        if pconns[0] == pconn {
          idleConn := idleConn - {key};
        }
      } else {
        for i := 0 to |pconns|
          invariant idleConn == old(idleConn) && forall k :: 0 <= k < i ==> pconns[k] != pconn
        {
          if pconns[i] == pconn {
            idleConn := idleConn[key := pconns[..i] + pconns[i + 1..]];
            return;
          }
        }
      }
    }

    /** Takes the newest connection of a host. */
    method TakeLast(key: Key) returns (pconn: PersistConn)
      requires Valid() && key in idleConn
      modifies this`idleConn, idleLRU
      ensures Valid() && Order() == Without(old(Order()), pconn)
      ensures var l := old(ListOf(idleConn, key)); l != [] && pconn == l[|l| - 1] && ListOf(idleConn, key) == l[..|l| - 1]
      ensures pconn.cacheKey == key && pconn in old(Order())
    {
      hide Agree, Under, Without, Cut;
      LastTaken(idleConn, Order(), key);
      var pconns := idleConn[key];
      CutShorter(idleConn, pconns[|pconns| - 1], PerHost());
      if |pconns| == 1 {
        pconn := pconns[0];
        idleConn := idleConn - {key};
      } else {
        pconn := pconns[|pconns| - 1];
        idleConn := idleConn[key := pconns[..|pconns| - 1]];
      }
      idleLRU.Remove(pconn);
    }

    lemma HostFacts(key: Key)
      requires Valid()
      ensures var l := ListOf(idleConn, key);
        Distinct(l) && (l == [] <==> key !in idleConn) && forall x :: x in l ==> x in Order() && x.cacheKey == key
    {
      HostList(idleConn, Order(), key);
    }

    /** Takes the newest usable connection of a host: n is its place in the list, and the connections after it,
        or all of them if there is none, could not be used and are gone too. */
    method GetIdleConn(key: Key) returns (res: PersistConn?, ghost n: nat)
      requires Valid()
      modifies this`idleConn, idleLRU, (set x | x in Order())`timer
      ensures Valid()
      ensures var l := old(ListOf(idleConn, key));
        && n <= |l| && ListOf(idleConn, key) == l[..n] && Order() == Keep(old(Order()), Members(l[n..]))
        && (res == null ==> n == 0 && forall x :: x in l ==> !old(x.Usable()))
        && (res != null ==> n < |l| && l[n] == res && old(res.Usable()) && res.cacheKey == key && forall x :: x in l[n + 1..] ==> !old(x.Usable()))
    {
      hide Agree, Under, Without, Keep, Members, Transport.Valid;
      ghost var order, l := Order(), ListOf(idleConn, key);
      HostFacts(key);
      KeepNothing(order);
      n := |l|;
      NoMembers();
      assert l[n..] == [];
      while key in idleConn
        invariant Valid() && n <= |l| && ListOf(idleConn, key) == l[..n] && Order() == Keep(order, Members(l[n..]))
        invariant forall i :: 0 <= i < n ==> l[i].timer == old(l[i].timer)
        invariant forall x :: x in l[n..] ==> !old(x.Usable())
        decreases n
      {
        var pconn := TakeLast(key);
        TakenMore(order, l, n);
        assert l[n - 1..] == [l[n - 1]] + l[n..];
        n := n - 1;
        var usable := pconn.StopTimer();
        if usable {
          return pconn, n;
        }
      }
      res := null;
    }

    /** A connection is dead. */
    method RemoveIdleConn(pconn: PersistConn)
      requires Valid()
      modifies this`idleConn, idleLRU, pconn`timer
      ensures Valid() && Order() == Without(old(Order()), pconn)
    {
      hide Agree, Cut;
      CutShorter(idleConn, pconn, PerHost());
      WithoutShorter(Order(), pconn);
      RemoveIdleConnLocked(pconn, Order());
    }

    /** The idle timer of pc has run out: pc is closed if it is idle still. */
    method CloseConnIfStillIdle(pc: PersistConn)
      requires Valid()
      modifies this`idleConn, idleLRU, pc`timer, pc`closed, pc`broken
      ensures Valid() && Order() == Without(old(Order()), pc)
      ensures if pc in old(Order()) then pc.closed else pc.closed == old(pc.closed)
    {
      LinkedOrder(idleLRU.ll, idleLRU.m, idleLRU.nextID, pc);
      if pc !in idleLRU.m {
        WithoutMembers(Order(), pc);
        return;
      }
      RemoveIdleConn(pc);
      pc.Close();
    }

    /** A dialer for the host may wait for a connection that becomes idle. */
    method GetIdleConnCh(key: Key)
      modifies this`wantIdle, this`idleConnCh
      ensures disableKeepAlives ==> wantIdle == old(wantIdle) && idleConnCh == old(idleConnCh)
      ensures !disableKeepAlives ==> !wantIdle && idleConnCh == old(idleConnCh) + {key}
    {
      if disableKeepAlives {
        return;
      }
      wantIdle := false;
      idleConnCh := idleConnCh + {key};
    }

    /** Closes every idle connection. None becomes idle again until one has been asked for. */
    method CloseIdleConnections()
      requires Valid()
      modifies this, set x | x in Order()
      ensures Valid() && Order() == [] && wantIdle && idleConnCh == {}
      ensures forall x :: x in old(Order()) ==> x.closed
    {
      hide Agree, Under, Keep;
      ghost var order := Order();
      var m := idleConn;
      AgreeMeans(m, order);
      idleConn, idleConnCh, wantIdle := map[], {}, true;
      idleLRU := new ConnLRU();
      NothingAgrees();
      var todo := m.Keys;
      while todo != {}
        invariant todo <= m.Keys && Valid() && Order() == [] && wantIdle && idleConnCh == {}
        invariant forall x :: x in order && x.cacheKey !in todo ==> x.closed
      {
        var key :| key in todo;
        HostList(m, order, key);
        CloseAll(m[key]);
        todo := todo - {key};
      }
    }
  }

  method CloseAll(conns: seq<PersistConn>)
    modifies (set x | x in conns)`closed, (set x | x in conns)`broken
    ensures forall x :: x in conns ==> x.closed
    ensures forall x: PersistConn :: old(allocated(x)) && old(x.closed) ==> x.closed
  {
    for i := 0 to |conns|
      invariant forall k :: 0 <= k < i ==> conns[k].closed
      invariant forall x: PersistConn :: old(allocated(x)) && old(x.closed) ==> x.closed
    {
      conns[i].Close();
    }
  }

  lemma NothingAgrees()
    ensures Agree(map[], [])
  {
  }

  lemma HostList(m: map<Key, seq<PersistConn>>, order: seq<PersistConn>, key: Key)
    requires Agree(m, order)
    ensures var l := ListOf(m, key);
      Distinct(l) && (l == [] <==> key !in m) && forall x :: x in l ==> x in order && x.cacheKey == key
  {
    UnderMembers(order, key);
  }

  lemma NoMembers()
    ensures Members([]) == {}
  {
  }

  lemma KeepNothing(s: seq<PersistConn>)
    ensures Keep(s, {}) == s
  {
    if s != [] { KeepStep(s, {}, s[0]); }
  }

  /** Taking the last connection of a list. */
  lemma LastTaken(m: map<Key, seq<PersistConn>>, order: seq<PersistConn>, key: Key)
    requires Agree(m, order) && key in m
    ensures m[key] != []
    ensures var l := m[key]; var x := l[|l| - 1];
      && x.cacheKey == key && x in order && Cut(m, x) == (if |l| == 1 then m - {key} else m[key := l[..|l| - 1]]) && Agree(Cut(m, x), Without(order, x))
      && |Without(order, x)| <= |order|
  {
    HostList(m, order, key);
    var l := m[key];
    var x := l[|l| - 1];
    WithoutAt(l, |l| - 1);
    assert l[..|l| - 1] + l[|l|..] == l[..|l| - 1];
    AgreeWithout(m, order, x);
    WithoutShorter(order, x);
  }

  lemma TakenMore(order: seq<PersistConn>, l: seq<PersistConn>, n: nat)
    requires 0 < n <= |l|
    ensures Without(Keep(order, Members(l[n..])), l[n - 1]) == Keep(order, Members(l[n - 1..]))
  {
    KeepStep(order, Members(l[n..]), l[n - 1]);
    assert l[n - 1..] == [l[n - 1]] + l[n..];
    assert Members(l[n - 1..]) == Members(l[n..]) + {l[n - 1]};
  }
}
