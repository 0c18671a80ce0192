/** The walk that finds the next frame: down the tree, siblings in an order chosen by a sort. */
module PriorityWalks {
  import opened GoInt
  import opened Forest
  import opened FlowControl
  import opened WriteQueues
  import opened PriorityNodes
  import opened PriorityTrees

  /** Between V and W the kids D of n have lost their parent, and L are the kids n has left. */
  ghost predicate Loosened(V: View, W: View, n: Node, D: set<Node>, L: seq<Node>) {
    && n in V && W.Keys == V.Keys && Linked(V) && Linked(W)
    && (forall x :: x in D ==> x in V && x != n && V[x].parent == n)
    && (forall x :: x in V ==> W[x].parent == if x in D then null else V[x].parent)
    && (forall x :: x in V ==> W[x].kidSeq == if x == n then L else V[x].kidSeq)
  }

  lemma LoosenStart(V: View, n: Node)
    requires n in V && Linked(V)
    ensures Loosened(V, V, n, {}, V[n].kidSeq) && V[n].kids == At(V[n].kidSeq, 0)
  {
    assert KidsLinked(V, n);
  }

  lemma LoosenReady(V: View, W: View, n: Node, D: set<Node>, L: seq<Node>)
    requires Loosened(V, W, n, D, L) && V[n].parent != n
    ensures W[n].kids == At(L, 0) && Linked(W) && W.Keys == V.Keys
    ensures L != [] ==> L[0] in V && L[0] != n && L[0] !in D && V[L[0]].parent == n
  {
    assert KidsLinked(W, n);
    if L != [] { KidParent(W, n, 0); }
  }

  lemma LoosenStep(V: View, W: View, X: View, n: Node, D: set<Node>, L: seq<Node>)
    requires Loosened(V, W, n, D, L) && L != [] && V[n].parent != n && Moved(W, X, L[0], null)
    ensures Loosened(V, X, n, D + {L[0]}, L[1..])
  {
    LoosenReady(V, W, n, D, L);
    assert W[L[0]].parent == n;
  }

  lemma FastenStep(V: View, W: View, X: View, n: Node, D: set<Node>, L: seq<Node>, t: Node)
    requires Loosened(V, W, n, D, L) && t in D && Moved(W, X, t, n)
    ensures Loosened(V, X, n, D - {t}, [t] + L)
  {
  }

  lemma FastenDone(V: View, W: View, n: Node, L: seq<Node>)
    requires Loosened(V, W, n, {}, L)
    ensures Parents(W) == Parents(V)
  {
  }

  /** p rearranges c things. */
  ghost predicate Shuffle(p: seq<nat>, c: nat) {
    && |p| == c && (forall i :: 0 <= i < c ==> p[i] < c)
    && (forall i, j :: 0 <= i < j < c ==> p[i] != p[j])
    && forall k :: 0 <= k < c ==> k in p
  }

  /** The outcome of every sort: the kids of the stream id, c in number, end up in the order order(id, c). */
  ghost predicate Shuffles(order: (nat, nat) -> seq<nat>) {
    forall id: nat, c: nat :: Shuffle(order(id, c), c)
  }

  /** T is K rearranged. */
  ghost predicate SameKids(K: seq<Node>, T: seq<Node>) {
    |T| == |K| && (forall x :: x in T ==> x in K) && (forall x :: x in K ==> x in T)
  }

  function Shuffled(K: seq<Node>, p: seq<nat>): seq<Node>
    requires forall i :: 0 <= i < |p| ==> p[i] < |K|
  {
    seq(|p|, i requires 0 <= i < |p| => K[p[i]])
  }

  lemma ShuffledSame(K: seq<Node>, p: seq<nat>)
    requires Distinct(K) && Shuffle(p, |K|)
    ensures Distinct(Shuffled(K, p)) && SameKids(K, Shuffled(K, p))
  {
    var T := Shuffled(K, p);
    forall x | x in K ensures x in T {
      var k :| 0 <= k < |K| && K[k] == x;
      assert k in p;
      var i :| 0 <= i < |p| && p[i] == k;
      assert T[i] == x;
    }
  }

  /** Takes the kids of n off one by one, in order. */
  method DetachKids(n: Node, ghost U: set<Node>) returns (tmp: seq<Node>, ghost D: set<Node>)
    requires n in U && Forested(U)
    modifies U`parent, U`kids, U`prev, U`next, U`kidSeq
    ensures tmp == old(n.kidSeq) && Distinct(tmp) && FirstOf(tmp, |tmp|, D)
    ensures Loosened(old(ViewOf(U)), ViewOf(U), n, D, [])
  {
    hide Moved, Linked, Acyclic, Parents, Loosened, FirstOf;
    ghost var V := ViewOf(U);
    ghost var K := n.kidSeq;
    SortFacts(V, U, n);
    FirstOfStart(K);
    tmp, D := [], {};
    ghost var L := K;
    while n.kids != null
      invariant Loosened(V, ViewOf(U), n, D, L) && n.kids == At(L, 0)
      invariant tmp + L == K && FirstOf(K, |tmp|, D)
      decreases |L|
    {
      ghost var W := ViewOf(U);
      LoosenReady(V, W, n, D, L);
      var k := n.kids;
      FirstOfNext(K, tmp, L, D);
      SetParent(k, null, U);
      LoosenStep(V, W, ViewOf(U), n, D, L);
      tmp, D, L := tmp + [k], D + {k}, L[1..];
      LoosenReady(V, ViewOf(U), n, D, L);
    }
    assert tmp == K;
  }

  /** Puts the kids of n back, from last to first, so that they end up in the given order. */
  method AttachKids(n: Node, tmp: seq<Node>, ghost V: View, ghost D0: set<Node>, ghost U: set<Node>)
    requires n in U && V.Keys == U && Loosened(V, ViewOf(U), n, D0, []) && Distinct(tmp) && FirstOf(tmp, |tmp|, D0)
    modifies U`parent, U`kids, U`prev, U`next, U`kidSeq
    ensures Loosened(V, ViewOf(U), n, {}, tmp)
  {
    hide *;
    ghost var D := D0;
    var i := |tmp|;
    assert tmp[i..] == [];
    while i > 0
      invariant 0 <= i <= |tmp|
      invariant Loosened(V, ViewOf(U), n, D, tmp[i..]) && FirstOf(tmp, i, D)
    {
      i := i - 1;
      ghost var W := ViewOf(U);
      FirstOfDrop(tmp, i, D);
      FastenReady(V, W, U, n, D, tmp[i + 1..], tmp[i]);
      SetParent(tmp[i], n, U);
      FastenStep(V, W, ViewOf(U), n, D, tmp[i + 1..], tmp[i]);
      assert tmp[i..] == [tmp[i]] + tmp[i + 1..];
      D := D - {tmp[i]};
    }
    FirstOfNone(tmp, D);
  }

  lemma FastenReady(V: View, W: View, U: set<Node>, n: Node, D: set<Node>, L: seq<Node>, t: Node)
    requires Loosened(V, W, n, D, L) && t in D && V.Keys == U
    ensures t in U && t != n && W.Keys == U && Linked(W)
  {
  }

  lemma FirstOfStart(T: seq<Node>)
    ensures FirstOf(T, 0, {})
  {
  }

  lemma FirstOfDrop(T: seq<Node>, i: nat, D: set<Node>)
    requires Distinct(T) && i < |T| && FirstOf(T, i + 1, D)
    ensures T[i] in D && FirstOf(T, i, D - {T[i]})
  {
  }

  lemma FirstOfNone(T: seq<Node>, D: set<Node>)
    requires FirstOf(T, 0, D)
    ensures D == {}
  {
  }

  /** Sorts the kids of n by detaching them all and putting them back from last to first. The sort
      itself is any function that permutes its argument. */
  method SortKids(n: Node, order: (nat, nat) -> seq<nat>, ghost U: set<Node>)
    requires n in U && Forested(U) && Shuffles(order)
    modifies U`parent, U`kids, U`prev, U`next, U`kidSeq
    ensures Forested(U) && ParentsOf(U) == old(ParentsOf(U))
    ensures n.kidSeq == Shuffled(old(n.kidSeq), order(n.id, |old(n.kidSeq)|)) && forall x :: x in U && x != n ==> x.kidSeq == old(x.kidSeq)
  {
    hide Moved, KidsLinked, Acyclic, Parents, Listed;
    ghost var V := ViewOf(U);
    var tmp, D := DetachKids(n, U);
    var p := order(n.id, |tmp|);
    assert Shuffle(p, |tmp|);
    ShuffledSame(tmp, p);
    FirstOfAll(tmp, Shuffled(tmp, p), D);
    tmp := Shuffled(tmp, p);
    AttachKids(n, tmp, V, D, U);
    FastenDone(V, ViewOf(U), n, tmp);
  }

  lemma FirstOfAll(K: seq<Node>, T: seq<Node>, D: set<Node>)
    requires FirstOf(K, |K|, D) && (forall x :: x in T ==> x in K) && (forall x :: x in K ==> x in T)
    ensures FirstOf(T, |T|, D)
  {
    forall j | 0 <= j < |T| ensures T[j] in D {
      assert T[j] in K;
      var i :| 0 <= i < |K| && K[i] == T[j];
    }
  }

  lemma SortFacts(V: View, U: set<Node>, n: Node)
    requires n in U && V.Keys == U && Linked(V) && Acyclic(Parents(V), U)
    ensures Loosened(V, V, n, {}, V[n].kidSeq) && Distinct(V[n].kidSeq) && V[n].parent != n && V[n].kids == At(V[n].kidSeq, 0)
  {
    LoosenStart(V, n);
    assert KidsLinked(V, n);
    NotOwnParent(V, U, n);
  }

  lemma FirstOfNext(K: seq<Node>, tmp: seq<Node>, L: seq<Node>, D: set<Node>)
    requires Distinct(K) && tmp + L == K && L != [] && FirstOf(K, |tmp|, D)
    ensures FirstOf(K, |tmp| + 1, D + {L[0]}) && (tmp + [L[0]]) + L[1..] == K
  {
    assert K[|tmp|] == L[0];
  }

  /** Whether the kids of n, which has some, do not all weigh the same. */
  method NeedSort(n: Node, ghost U: set<Node>) returns (b: bool)
    requires n in U && Linked(ViewOf(U)) && n.kids != null
    ensures b <==> exists i, j :: 0 <= i < j < |n.kidSeq| && n.kidSeq[i].weight != n.kidSeq[j].weight
  {
    ghost var V := ViewOf(U);
    assert KidsLinked(V, n) && KidLinked(V, n, 0);
    var w := n.kids.weight;
    var k := n.kids.next;
    ghost var i := 1;
    while k != null
      invariant 1 <= i <= |n.kidSeq| && k == At(n.kidSeq, i)
      invariant forall j :: 0 <= j < i ==> n.kidSeq[j].weight == w
      decreases |n.kidSeq| - i
    {
      assert KidLinked(V, n, i);
      if k.weight != w {
        return true;
      }
      k := k.next;
      i := i + 1;
    }
    return false;
  }

  type Snap = map<Node, QueueState>
  /** Every node has its own valid queue, whose requests depend on no other windows than FS and on
      no other connections than CS. */
  ghost predicate Queues(U: set<Node>, FS: set<Flow>, CS: set<Conn>)
    reads set x | x in U :: x.q
  {
    && (forall x :: x in U ==> x.q.Valid() && FlowsWithin(x.q.s, FS) && ConnsWithin(x.q.s, CS))
    && forall x, y :: x in U && y in U && x != y ==> x.q != y.q
  }

  /** The queues and the windows are as S and F say. */
  ghost predicate Matches(U: set<Node>, FS: set<Flow>, CS: set<Conn>, S: Snap, F: Windows)
    reads set x | x in U :: x.q
    reads FS, CS
  {
    && S.Keys == U && F.flow.Keys == FS && F.frame.Keys == CS
    && (forall x :: x in U ==> StateOf(x.q) == S[x])
    && (forall f :: f in FS ==> f.n == F.flow[f])
    && forall c :: c in CS ==> c.maxFrameSize == F.frame[c]
  }

  /** From the state S, F one request wr has been taken from the queue of n, and its windows have
      shrunk by what it carries. */
  ghost predicate Served(U: set<Node>, FS: set<Flow>, S: Snap, F: Windows, n: Node, wr: Request, limit: int)
    reads set x | x in U :: x.q
    reads FS
  {
    && n in U && S.Keys == U && F.flow.Keys == FS && S[n].s != []
    && Delivers(S[n].s, n.q.s, wr, Min(limit, CreditIn(S[n].s[0], F)))
    && n.q.popped == S[n].popped + Trace(wr) && n.q.pushed == S[n].pushed
    && (forall x :: x in U && x != n ==> StateOf(x.q) == S[x])
    && forall f :: f in FS ==> f.n == F.flow[f] - if f in S[n].s[0].Flows() then wr.DataSize() else 0
  }

  /** Tries to take a request from the queue of n. */
  method VisitQueue(n: Node, limit: Int32, ghost U: set<Node>, ghost FS: set<Flow>, ghost CS: set<Conn>, ghost S: Snap, ghost F: Windows) returns (wr: Request, ok: bool)
    requires n in U && 0 < limit && Queues(U, FS, CS) && Matches(U, FS, CS, S, F)
    modifies n.q, FS`n
    ensures Queues(U, FS, CS)
    ensures ok <==> Ready(S[n].s, F)
    ensures !ok ==> Matches(U, FS, CS, S, F)
    ensures ok ==> Served(U, FS, S, F, n, wr, limit)
  {
    hide Trace, FlowsWithin, ConnsWithin, Delivers, CreditIn, Ready, WriteQueue.Valid;
    wr, ok := TakeFrom(n.q, limit, FS, CS, F);
  }

  /** The visit of one node: what is taken from its queue counts for it and for everything above it. */
  method Visit(n: Node, limit: Int32, ghost U: set<Node>, ghost FS: set<Flow>, ghost CS: set<Conn>, ghost S: Snap, ghost F: Windows) returns (wr: Request, ok: bool)
    requires n in U && 0 < limit && Forested(U) && Queues(U, FS, CS) && Matches(U, FS, CS, S, F)
    modifies n`bytes, U`subtreeBytes, n.q, FS`n
    ensures Queues(U, FS, CS)
    ensures ok <==> Ready(S[n].s, F)
    ensures !ok ==> Matches(U, FS, CS, S, F)
    ensures ok ==> Served(U, FS, S, F, n, wr, limit)
  {
    hide *;
    wr, ok := VisitQueue(n, limit, U, FS, CS, S, F);
    if ok {
      AddBytes(n, wr.DataSize(), U);
    }
  }

  /** Nothing at or below n is ready. */
  ghost predicate NoneReady(P: map<Node, Node>, U: set<Node>, S: Snap, F: Windows, n: Node)
    requires U <= S.Keys
  {
    forall x :: x in U && Reaches(P, x, {n}) ==> !Ready(S[x].s, F)
  }

  /** Nothing strictly between m and n, and not n itself, is ready. */
  ghost predicate Overtaken(P: map<Node, Node>, U: set<Node>, S: Snap, F: Windows, n: Node, m: Node)
    requires U <= S.Keys
  {
    forall a :: a in U && a != m && Reaches(P, m, {a}) && Reaches(P, a, {n}) ==> !Ready(S[a].s, F)
  }

  /** Some stream strictly above m, up to n, is open; the root does not count. */
  ghost predicate OpenAbove(P: map<Node, Node>, U: set<Node>, n: Node, m: Node)
    reads U`state
  {
    exists a :: a in U && a != m && Reaches(P, m, {a}) && Reaches(P, a, {n}) && a.id != 0 && a.state == Open
  }

  predicate OpenStreamNode(n: Node)
    reads n`state
  {
    n.id != 0 && n.state == Open
  }

  /** How the kid k of n relates to what is below and above. */
  lemma KidChain(V: View, U: set<Node>, n: Node, k: Node)
    requires V.Keys == U && Linked(V) && Acyclic(Parents(V), U) && n in U && k in V[n].kidSeq
    ensures var P := Parents(V);
      && k in U && k in P && P[k] == n && !Reaches(P, n, {k})
      && (forall x :: x in U && Reaches(P, x, {k}) ==> Reaches(P, x, {n}) && x != n)
      && forall m, a :: m in U && a in U && Reaches(P, m, {k}) && Reaches(P, m, {a}) && Reaches(P, a, {n}) && a != n ==> Reaches(P, a, {k})
  {
    var P := Parents(V);
    var i :| 0 <= i < |V[n].kidSeq| && V[n].kidSeq[i] == k;
    KidParent(V, n, i);
    assert Finite(P, n);
    NotAbove(P, n, {k});
    forall x | x in U && Reaches(P, x, {k}) ensures Reaches(P, x, {n}) && x != n {
      var j: nat :| Lands(P, x, {k}, j);
      ReachesOn(P, x, k, n, j);
    }
    forall m, a | m in U && a in U && Reaches(P, m, {k}) && Reaches(P, m, {a}) && Reaches(P, a, {n}) && a != n ensures Reaches(P, a, {k}) {
      var j: nat :| Lands(P, m, {k}, j);
      ChainPassesKid(P, m, k, n, a, j);
    }
  }

  lemma {:induction false} ReachesOn(P: map<Node, Node>, x: Node, k: Node, n: Node, j: nat)
    requires Lands(P, x, {k}, j) && k in P && P[k] == n
    ensures Reaches(P, x, {n})
    decreases j
  {
    ReachesStep(P, x, {n});
    if x == k { ReachesSelf(P, n, {n}); } else { ReachesOn(P, P[x], k, n, j - 1); }
  }

  /** If neither n nor anything below its kids is ready, nothing below n is. */
  lemma NoneReadyBelow(V: View, U: set<Node>, S: Snap, F: Windows, n: Node)
    requires V.Keys == U && Linked(V) && n in U && U <= S.Keys
    requires !Ready(S[n].s, F)
    requires forall j :: 0 <= j < |V[n].kidSeq| ==> NoneReady(Parents(V), U, S, F, V[n].kidSeq[j])
    ensures NoneReady(Parents(V), U, S, F, n)
  {
    var P := Parents(V);
    forall x | x in U && Reaches(P, x, {n}) ensures !Ready(S[x].s, F) {
      if x != n {
        var i: nat :| Lands(P, x, {n}, i);
        var k := LastStep(P, x, n, i);
        KidOf(V, k);
        var j :| 0 <= j < |V[n].kidSeq| && V[n].kidSeq[j] == k;
        assert NoneReady(P, U, S, F, V[n].kidSeq[j]);
      }
    }
  }

  /** What was overtaken below the kid k of n, and n itself, is what was overtaken below n. */
  lemma OvertakenAbove(V: View, U: set<Node>, S: Snap, F: Windows, n: Node, k: Node, m: Node)
    requires V.Keys == U && Linked(V) && Acyclic(Parents(V), U) && n in U && k in V[n].kidSeq && m in U && U <= S.Keys
    requires Reaches(Parents(V), m, {k}) && Overtaken(Parents(V), U, S, F, k, m) && !Ready(S[n].s, F)
    ensures Overtaken(Parents(V), U, S, F, n, m) && Reaches(Parents(V), m, {n}) && m != n
  {
    KidChain(V, U, n, k);
  }

  lemma OpenAboveKid(V: View, U: set<Node>, n: Node, k: Node, m: Node)
    requires V.Keys == U && Linked(V) && Acyclic(Parents(V), U) && n in U && k in V[n].kidSeq && m in U
    requires Reaches(Parents(V), m, {k})
    ensures OpenAbove(Parents(V), U, n, m) <==> OpenStreamNode(n) || OpenAbove(Parents(V), U, k, m)
  {
    var P := Parents(V);
    KidChain(V, U, n, k);
    ReachesSelf(P, n, {n});
    if OpenAbove(P, U, k, m) {
      var a :| a in U && a != m && Reaches(P, m, {a}) && Reaches(P, a, {k}) && a.id != 0 && a.state == Open;
      assert Reaches(P, a, {n});
    }
    if OpenAbove(P, U, n, m) {
      var a :| a in U && a != m && Reaches(P, m, {a}) && Reaches(P, a, {n}) && a.id != 0 && a.state == Open;
      assert a == n || Reaches(P, a, {k});
    }
  }

  /** The lists of the nodes at or below n may have been permuted, the others have not. */
  ghost predicate ListsKept(P: map<Node, Node>, U: set<Node>, V: View, W: View, n: Node)
    requires V.Keys == W.Keys == U
  {
    forall x :: x in U && !Reaches(P, x, {n}) ==> W[x].kidSeq == V[x].kidSeq
  }

  /** What a walk from n reports. */
  ghost predicate Found(P: map<Node, Node>, U: set<Node>, FS: set<Flow>, CS: set<Conn>, S: Snap, F: Windows, n: Node, m: Node?, wr: Request, limit: int)
    reads set x | x in U :: x.q
    reads FS, CS
    requires S.Keys == U
  {
    if m == null then Matches(U, FS, CS, S, F) && NoneReady(P, U, S, F, n)
    else m in U && Reaches<Node>(P, m, {n}) && Overtaken(P, U, S, F, n, m) && Served(U, FS, S, F, m, wr, limit)
  }

  function Limit(open: bool, throttle: Int32): Int32 {
    if open then throttle else MAX_INT32
  }

  lemma LooksLike(U: set<Node>, n: Node)
    requires n in U && Forested(U)
    ensures ViewOf(U).Keys == U && ViewOf(U)[n].kidSeq == n.kidSeq && n.kids == At(n.kidSeq, 0)
    ensures Linked(ViewOf(U)) && Acyclic(Parents(ViewOf(U)), U) && ParentsOf(U) == Parents(ViewOf(U))
  {
    assert KidsLinked(ViewOf(U), n);
  }

  lemma KeptSelf(P: map<Node, Node>, U: set<Node>, V: View, n: Node)
    requires V.Keys == U
    ensures ListsKept(P, U, V, V, n)
  {
  }

  /** Sorting the kids of n, or not, touches no other list. */
  lemma KeptSort(P: map<Node, Node>, U: set<Node>, V: View, W: View, n: Node)
    requires V.Keys == W.Keys == U && forall x :: x in U && x != n ==> W[x].kidSeq == V[x].kidSeq
    ensures ListsKept(P, U, V, W, n)
  {
    ReachesSelf(P, n, {n});
  }

  lemma KeptChain(P: map<Node, Node>, U: set<Node>, V: View, V1: View, V2: View, n: Node)
    requires V.Keys == V1.Keys == V2.Keys == U && ListsKept(P, U, V, V1, n) && ListsKept(P, U, V1, V2, n)
    ensures ListsKept(P, U, V, V2, n)
  {
  }

  lemma KeptKid(U: set<Node>, V1: View, V2: View, n: Node, k: Node)
    requires V1.Keys == V2.Keys == U && Linked(V1) && Acyclic(Parents(V1), U) && n in U && k in V1[n].kidSeq
    requires ListsKept(Parents(V1), U, V1, V2, k)
    ensures ListsKept(Parents(V1), U, V1, V2, n) && V2[n].kidSeq == V1[n].kidSeq
  {
    KidChain(V1, U, n, k);
  }

  /** Entering the i-th round of the loop over the kids of n. */
  lemma KidRound(U: set<Node>, n: Node, k: Node, i: nat, d: nat, B: nat)
    requires n in U && Forested(U) && i < |n.kidSeq| && n.kidSeq[i] == k
    requires HasDepth(ParentsOf(U), n, d) && Bounded(ParentsOf(U), U, B)
    ensures k in U && k in n.kidSeq && HasDepth(ParentsOf(U), k, d + 1) && d < B
    ensures k.next == At(n.kidSeq, i + 1)
  {
    assert KidsLinked(ViewOf(U), n);
    assert KidLinked(ViewOf(U), n, i);
    KidParent(ViewOf(U), n, i);
    assert HasDepth(ParentsOf(U), k, d + 1);
  }

  lemma AtSome(s: seq<Node>, i: nat, k: Node?)
    requires i <= |s| && k == At(s, i)
    ensures if k == null then i == |s| else i < |s| && s[i] == k
  {
  }

  lemma FoundCases(P: map<Node, Node>, U: set<Node>, FS: set<Flow>, CS: set<Conn>, S: Snap, F: Windows, n: Node, m: Node?, wr: Request, limit: int)
    requires S.Keys == U
    ensures m == null ==> (Found(P, U, FS, CS, S, F, n, m, wr, limit) <==> Matches(U, FS, CS, S, F) && NoneReady(P, U, S, F, n))
    ensures m != null ==> (Found(P, U, FS, CS, S, F, n, m, wr, limit) <==>
      m in U && Reaches<Node>(P, m, {n}) && Overtaken(P, U, S, F, n, m) && Served(U, FS, S, F, m, wr, limit))
  {
  }

  /** The request found at n itself. */
  lemma FoundHere(P: map<Node, Node>, U: set<Node>, FS: set<Flow>, CS: set<Conn>, S: Snap, F: Windows, n: Node, wr: Request, limit: int)
    requires Acyclic(P, U) && n in U && S.Keys == U && Served(U, FS, S, F, n, wr, limit)
    ensures Found(P, U, FS, CS, S, F, n, n, wr, limit) && !OpenAbove(P, U, n, n)
  {
    ReachesSelf(P, n, {n});
    assert Finite(P, n);
    forall a | a in U && Reaches(P, n, {a}) && Reaches(P, a, {n}) ensures a == n { SameIfMutual(P, n, a); }
  }

  lemma OpenAboveOpen(P: map<Node, Node>, U: set<Node>, n: Node, m: Node)
    requires n in U && m != n && Reaches(P, m, {n}) && OpenStreamNode(n)
    ensures OpenAbove(P, U, n, m)
  {
    ReachesSelf(P, n, {n});
  }

  lemma MatchesKeys(U: set<Node>, FS: set<Flow>, CS: set<Conn>, S: Snap, F: Windows)
    requires Matches(U, FS, CS, S, F)
    ensures S.Keys == U
  {
  }

  lemma LimitPositive(open: bool, throttle: Int32)
    requires 0 < throttle
    ensures 0 < Limit(open, throttle)
  {
  }

  lemma FoundFromKid(U: set<Node>, FS: set<Flow>, CS: set<Conn>, S: Snap, F: Windows, n: Node, k: Node, m: Node, wr: Request, limit: int)
    requires Forested(U) && n in U && k in n.kidSeq && S.Keys == U && !Ready(S[n].s, F)
    requires Found(ParentsOf(U), U, FS, CS, S, F, k, m, wr, limit)
    ensures Found(ParentsOf(U), U, FS, CS, S, F, n, m, wr, limit) && m != n && m in U && Reaches(ParentsOf(U), m, {n})
    ensures OpenAbove(ParentsOf(U), U, n, m) <==> OpenStreamNode(n) || OpenAbove(ParentsOf(U), U, k, m)
  {
    OvertakenAbove(ViewOf(U), U, S, F, n, k, m);
    OpenAboveKid(ViewOf(U), U, n, k, m);
  }

  /** Puts the kids of n in order, if their weights differ. */
  method Arrange(n: Node, order: (nat, nat) -> seq<nat>, ghost U: set<Node>)
    requires n in U && n.kids != null && Forested(U) && Shuffles(order)
    modifies U`parent, U`kids, U`prev, U`next, U`kidSeq
    ensures Forested(U) && ParentsOf(U) == old(ParentsOf(U))
    ensures ViewOf(U).Keys == U && ListsKept(ParentsOf(U), U, old(ViewOf(U)), ViewOf(U), n)
  {
    hide *;
    ghost var P, V := ParentsOf(U), ViewOf(U);
    LooksLike(U, n);
    LooksAll(U);
    KeptSelf(P, U, V, n);
    var sort := NeedSort(n, U);
    if sort {
      SortKids(n, order, U);
      LooksAlike(P, U, V, n);
    }
  }

  /** Visits the nodes at or below n, every node before its kids, until a request can be taken. */
  method Walk(n: Node, openParent: bool, throttle: Int32, order: (nat, nat) -> seq<nat>,
              ghost U: set<Node>, ghost FS: set<Flow>, ghost CS: set<Conn>, ghost S: Snap, ghost F: Windows, ghost d: nat, ghost B: nat)
    returns (m: Node?, open: bool, wr: Request)
    requires n in U && 0 < throttle && Forested(U) && Queues(U, FS, CS) && Matches(U, FS, CS, S, F)
    requires Shuffles(order)
    requires HasDepth(ParentsOf(U), n, d) && Bounded(ParentsOf(U), U, B)
    modifies U`parent, U`kids, U`prev, U`next, U`kidSeq, U`bytes, U`subtreeBytes, FS`n, set x | x in U :: x.q
    ensures Forested(U) && ParentsOf(U) == old(ParentsOf(U)) && Queues(U, FS, CS)
    ensures ViewOf(U).Keys == U && ListsKept(ParentsOf(U), U, old(ViewOf(U)), ViewOf(U), n)
    ensures Found(ParentsOf(U), U, FS, CS, S, F, n, m, wr, Limit(open, throttle))
    ensures m != null ==> (open <==> openParent || OpenAbove(ParentsOf(U), U, n, m))
    decreases B - d, 1
  {
    hide *;
    ghost var P := ParentsOf(U);
    ghost var V := ViewOf(U);
    LooksLike(U, n);
    MatchesKeys(U, FS, CS, S, F);
    LimitPositive(openParent, throttle);
    KeptSelf(P, U, V, n);
    var ok: bool;
    wr, ok := Visit(n, Limit(openParent, throttle), U, FS, CS, S, F);
    if ok {
      FoundHere(P, U, FS, CS, S, F, n, wr, Limit(openParent, throttle));
      return n, openParent, wr;
    }
    if n.kids == null {
      m, open, wr := null, false, EMPTY;
      LeafNotReady(U, S, F, n);
      FoundCases(P, U, FS, CS, S, F, n, m, wr, Limit(open, throttle));
      return;
    }
    Arrange(n, order, U);
    ghost var W := ViewOf(U);
    m, open, wr := WalkKids(n, openParent || OpenStreamNode(n), throttle, order, U, FS, CS, S, F, d, B);
    KeptChain(P, U, V, W, ViewOf(U), n);
    if m != null && OpenStreamNode(n) { OpenAboveOpen(P, U, n, m); }
  }

  /** The loop over the kids of n, once n itself has been visited. */
  method WalkKids(n: Node, openParent: bool, throttle: Int32, order: (nat, nat) -> seq<nat>,
                  ghost U: set<Node>, ghost FS: set<Flow>, ghost CS: set<Conn>, ghost S: Snap, ghost F: Windows, ghost d: nat, ghost B: nat)
    returns (m: Node?, open: bool, wr: Request)
    requires n in U && 0 < throttle && Forested(U) && Queues(U, FS, CS) && Matches(U, FS, CS, S, F)
    requires Shuffles(order)
    requires HasDepth(ParentsOf(U), n, d) && Bounded(ParentsOf(U), U, B)
    requires n in S && !Ready(S[n].s, F) && (OpenStreamNode(n) ==> openParent)
    modifies U`parent, U`kids, U`prev, U`next, U`kidSeq, U`bytes, U`subtreeBytes, FS`n, set x | x in U :: x.q
    ensures Forested(U) && ParentsOf(U) == old(ParentsOf(U)) && Queues(U, FS, CS)
    ensures ViewOf(U).Keys == U && ListsKept(ParentsOf(U), U, old(ViewOf(U)), ViewOf(U), n)
    ensures Found(ParentsOf(U), U, FS, CS, S, F, n, m, wr, Limit(open, throttle))
    ensures m != null ==> m != n && m in U && Reaches<Node>(ParentsOf(U), m, {n}) && (open <==> openParent || OpenAbove(ParentsOf(U), U, n, m))
    decreases B - d, 0
  {
    hide *;
    ghost var P, V, K := ParentsOf(U), ViewOf(U), n.kidSeq;
    LooksLike(U, n);
    MatchesKeys(U, FS, CS, S, F);
    KeptSelf(P, U, V, n);
    ghost var i := 0;
    var k := n.kids;
    while k != null
      invariant Forested(U) && ParentsOf(U) == P && Queues(U, FS, CS) && Matches(U, FS, CS, S, F)
      invariant ViewOf(U).Keys == U && ListsKept(P, U, V, ViewOf(U), n) && n.kidSeq == K
      invariant 0 <= i <= |K| && k == At(K, i)
      invariant forall j :: 0 <= j < i ==> NoneReady(P, U, S, F, K[j])
      decreases |K| - i
    {
      AtSome(K, i, k);
      LooksLike(U, n);
      KidRound(U, n, k, i, d, B);
      ghost var V1 := ViewOf(U);
      m, open, wr := Walk(k, openParent, throttle, order, U, FS, CS, S, F, d + 1, B);
      LooksLike(U, n);
      KeptKid(U, V1, ViewOf(U), n, k);
      KeptChain(P, U, V, V1, ViewOf(U), n);
      FoundCases(P, U, FS, CS, S, F, k, m, wr, Limit(open, throttle));
      if m != null {
        FoundFromKid(U, FS, CS, S, F, n, k, m, wr, Limit(open, throttle));
        return;
      }
      KidRound(U, n, k, i, d, B);
      k := k.next;
      i := i + 1;
    }
    AtSome(K, i, k);
    LooksLike(U, n);
    NoneReadyBelow(ViewOf(U), U, S, F, n);
    m, open, wr := null, false, EMPTY;
    FoundCases(P, U, FS, CS, S, F, n, m, wr, Limit(open, throttle));
  }

  lemma LeafNotReady(U: set<Node>, S: Snap, F: Windows, n: Node)
    requires Forested(U) && n in U && n.kids == null && S.Keys == U && !Ready(S[n].s, F)
    ensures NoneReady(ParentsOf(U), U, S, F, n)
  {
    LooksLike(U, n);
    NoneReadyBelow(ViewOf(U), U, S, F, n);
  }

  lemma LooksAll(U: set<Node>)
    ensures ViewOf(U).Keys == U && forall x :: x in U ==> ViewOf(U)[x].kidSeq == x.kidSeq
  {
  }

  lemma LooksAlike(P: map<Node, Node>, U: set<Node>, V: View, n: Node)
    requires V.Keys == U && forall x :: x in U && x != n ==> x.kidSeq == V[x].kidSeq
    ensures ViewOf(U).Keys == U && ListsKept(P, U, V, ViewOf(U), n)
  {
    KeptSort(P, U, V, ViewOf(U), n);
  }

  ghost function SnapOf(U: set<Node>): (S: Snap)
    reads set x | x in U :: x.q
    ensures S.Keys == U
  {
    map x | x in U :: StateOf(x.q)
  }

  lemma MatchesNow(U: set<Node>, FS: set<Flow>, CS: set<Conn>)
    ensures Matches(U, FS, CS, SnapOf(U), WindowsOf(FS, CS)) && SnapOf(U).Keys == U
  {
  }

  /** A queue that was served was ready. */
  lemma ServedReady(U: set<Node>, FS: set<Flow>, S: Snap, F: Windows, n: Node, wr: Request, limit: int)
    requires Served(U, FS, S, F, n, wr, limit)
    ensures n in S && Ready(S[n].s, F)
  {
    assert Delivers(S[n].s, n.q.s, wr, Min(limit, CreditIn(S[n].s[0], F)));
    if S[n].s[0].Metered() && wr != S[n].s[0] { assert Split(S[n].s[0], wr, n.q.s[0]); }
  }

  /** A walk finds something exactly when something is ready. */
  lemma FoundMeans(P: map<Node, Node>, U: set<Node>, FS: set<Flow>, CS: set<Conn>, S: Snap, F: Windows, n: Node, m: Node?, wr: Request, limit: int)
    requires S.Keys == U && Found(P, U, FS, CS, S, F, n, m, wr, limit)
    ensures m == null ==> Matches(U, FS, CS, S, F)
    ensures m == null <==> NoneReady(P, U, S, F, n)
    ensures m != null ==> m in U && Reaches<Node>(P, m, {n}) && Overtaken(P, U, S, F, n, m) && Served(U, FS, S, F, m, wr, limit)
  {
    if m != null { ServedReady(U, FS, S, F, m, wr, limit); }
  }
}
