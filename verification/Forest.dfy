/** Forests given by a parent map: a node that is not in the map is the top of its chain.
    The lemmas here say which rewirings of a parent map keep every chain finite and keep
    every node connected to a given top. */
module Forest {

  /** The chain that starts at n has exactly k steps. */
  ghost predicate HasDepth<T>(P: map<T, T>, n: T, k: nat) {
    if n in P then k > 0 && HasDepth(P, P[n], k - 1) else k == 0
  }

  /** Following P from n meets S within k steps. */
  ghost predicate Lands<T>(P: map<T, T>, n: T, S: set<T>, k: nat) {
    n in S || (k > 0 && n in P && Lands(P, P[n], S, k - 1))
  }

  ghost predicate Reaches<T>(P: map<T, T>, n: T, S: set<T>) {
    exists k: nat :: Lands(P, n, S, k)
  }

  ghost predicate Finite<T>(P: map<T, T>, n: T) {
    exists k: nat :: HasDepth(P, n, k)
  }

  /** Every chain from a node of U ends. */
  ghost predicate Acyclic<T>(P: map<T, T>, U: set<T>) {
    forall n :: n in U ==> Finite(P, n)
  }

  ghost predicate AllReach<T>(P: map<T, T>, N: set<T>, S: set<T>) {
    forall n :: n in N ==> Reaches(P, n, S)
  }

  ghost predicate AgreeAt<T>(P: map<T, T>, Q: map<T, T>, m: T) {
    (m in P <==> m in Q) && (m in P ==> P[m] == Q[m])
  }

  ghost predicate AgreeOutside<T>(P: map<T, T>, Q: map<T, T>, M: set<T>) {
    forall m :: m in P.Keys + Q.Keys && m !in M ==> AgreeAt(P, Q, m)
  }

  lemma {:induction false} DepthUnique<T>(P: map<T, T>, n: T, j: nat, k: nat)
    requires HasDepth(P, n, j) && HasDepth(P, n, k)
    ensures j == k
    decreases j
  {
    if n in P { DepthUnique(P, P[n], j - 1, k - 1); }
  }

  /** A node met on the chain of n is no deeper than n. */
  lemma {:induction false} DepthOnChain<T>(P: map<T, T>, n: T, k: nat, S: set<T>, j: nat) returns (m: T, d: nat)
    requires HasDepth(P, n, k) && Lands(P, n, S, j)
    ensures m in S && HasDepth(P, m, d) && d <= k && (n !in S ==> d < k)
    decreases j
  {
    if n in S {
      m, d := n, k;
    } else {
      m, d := DepthOnChain(P, P[n], k - 1, S, j - 1);
    }
  }

  lemma ReachesSelf<T>(P: map<T, T>, n: T, S: set<T>)
    requires n in S
    ensures Reaches(P, n, S)
  {
    assert Lands(P, n, S, 0);
  }

  /** A top reaches only itself. */
  lemma TopReaches<T>(P: map<T, T>, n: T, S: set<T>)
    requires n !in P
    ensures Reaches(P, n, S) <==> n in S
  {
    if n in S { ReachesSelf(P, n, S); }
  }

  lemma ReachesStep<T>(P: map<T, T>, n: T, S: set<T>)
    requires n in P
    ensures n !in S ==> (Reaches(P, n, S) <==> Reaches(P, P[n], S))
    ensures Reaches(P, P[n], S) ==> Reaches(P, n, S)
  {
    if Reaches(P, P[n], S) {
      var k: nat :| Lands(P, P[n], S, k);
      assert Lands(P, n, S, k + 1);
    }
    if Reaches(P, n, S) && n !in S {
      var k: nat :| Lands(P, n, S, k);
      assert Lands(P, P[n], S, k - 1);
    }
  }

  lemma FiniteStep<T>(P: map<T, T>, n: T)
    ensures n in P ==> (Finite(P, n) <==> Finite(P, P[n]))
    ensures n !in P ==> Finite(P, n)
  {
    if n in P {
      if Finite(P, P[n]) {
        var k: nat :| HasDepth(P, P[n], k);
        assert HasDepth(P, n, k + 1);
      }
      if Finite(P, n) {
        var k: nat :| HasDepth(P, n, k);
        assert HasDepth(P, P[n], k - 1);
      }
    } else {
      assert HasDepth(P, n, 0);
    }
  }

  /** A chain that avoids the rewired nodes is the same chain afterwards. */
  lemma {:induction false} ChainKept<T>(P: map<T, T>, Q: map<T, T>, M: set<T>, n: T, k: nat)
    requires HasDepth(P, n, k) && !Reaches(P, n, M) && AgreeOutside(P, Q, M)
    ensures HasDepth(Q, n, k)
    ensures forall S: set<T>, j: nat :: Lands(P, n, S, j) <==> Lands(Q, n, S, j)
    decreases k
  {
    if n in M { ReachesSelf(P, n, M); }
    assert AgreeAt(P, Q, n);
    if n in P {
      ReachesStep(P, n, M);
      ChainKept(P, Q, M, P[n], k - 1);
      forall S: set<T>, j: nat
        ensures Lands(P, n, S, j) <==> Lands(Q, n, S, j)
      {
        if j > 0 { assert Lands(P, P[n], S, j - 1) <==> Lands(Q, P[n], S, j - 1); }
      }
    }
  }

  /** If the rewired nodes have finite chains in Q, so has every node. */
  lemma {:induction false} RewireFinite<T>(P: map<T, T>, Q: map<T, T>, M: set<T>, n: T, k: nat)
    requires HasDepth(P, n, k) && AgreeOutside(P, Q, M)
    requires forall m :: m in M ==> Finite(Q, m)
    ensures Finite(Q, n)
    decreases k
  {
    if n !in M {
      assert AgreeAt(P, Q, n) || (n !in P && n !in Q);
      FiniteStep(Q, n);
      if n in P { RewireFinite(P, Q, M, P[n], k - 1); }
    }
  }

  /** If the rewired nodes reach S in Q, so does every node that reached S in P. */
  lemma {:induction false} RewireReaches<T>(P: map<T, T>, Q: map<T, T>, M: set<T>, S: set<T>, n: T, k: nat)
    requires Lands(P, n, S, k) && AgreeOutside(P, Q, M)
    requires forall m :: m in M ==> Reaches(Q, m, S)
    ensures Reaches(Q, n, S)
    decreases k
  {
    if n in S {
      ReachesSelf(Q, n, S);
    } else if n !in M {
      assert AgreeAt(P, Q, n);
      RewireReaches(P, Q, M, S, P[n], k - 1);
      ReachesStep(Q, n, S);
    }
  }

  lemma RewireAll<T>(P: map<T, T>, Q: map<T, T>, M: set<T>, U: set<T>)
    requires Acyclic(P, U) && AgreeOutside(P, Q, M)
    requires forall m :: m in M ==> Finite(Q, m)
    ensures Acyclic(Q, U)
  {
    forall n | n in U ensures Finite(Q, n) {
      assert Finite(P, n);
      var k: nat :| HasDepth(P, n, k);
      RewireFinite(P, Q, M, n, k);
    }
  }

  lemma RewireAllReach<T>(P: map<T, T>, Q: map<T, T>, M: set<T>, N: set<T>, S: set<T>)
    requires AllReach(P, N, S) && AgreeOutside(P, Q, M)
    requires forall m :: m in M ==> Reaches(Q, m, S)
    ensures AllReach(Q, N, S)
  {
    forall n | n in N ensures Reaches(Q, n, S) {
      assert Reaches(P, n, S);
      var k: nat :| Lands(P, n, S, k);
      RewireReaches(P, Q, M, S, n, k);
    }
  }

  /** A node that is a kid of p, or a node below it, is not on the chain of p. */
  lemma NotAbove<T>(P: map<T, T>, p: T, M: set<T>)
    requires Finite(P, p)
    requires forall m :: m in M ==> m in P && P[m] == p
    ensures !Reaches(P, p, M)
  {
    if Reaches(P, p, M) {
      var k: nat :| HasDepth(P, p, k);
      var j: nat :| Lands(P, p, M, j);
      var m, d := DepthOnChain(P, p, k, M, j);
      DepthUnique(P, p, d - 1, k);
    }
  }

  /** The chain of p up to a rewired node survives, so what p reached it still reaches. */
  lemma KeptReaches<T>(P: map<T, T>, Q: map<T, T>, M: set<T>, p: T)
    requires Finite(P, p) && !Reaches(P, p, M) && AgreeOutside(P, Q, M)
    ensures Finite(Q, p)
    ensures forall S: set<T> :: Reaches(P, p, S) <==> Reaches(Q, p, S)
  {
    var k: nat :| HasDepth(P, p, k);
    ChainKept(P, Q, M, p, k);
  }

  lemma {:induction false} ReachesUnion<T>(P: map<T, T>, n: T, A: set<T>, B: set<T>, k: nat)
    requires Lands(P, n, A + B, k)
    ensures Lands(P, n, A, k) || Lands(P, n, B, k)
    decreases k
  {
    if n !in A + B { ReachesUnion(P, P[n], A, B, k - 1); }
  }

  /** The rewiring done by an Exclusive insertion: n goes below p and adopts the kids K of p.
      Every chain stays finite and whoever reached S before still does, provided n is not above p. */
  lemma Graft<T>(P: map<T, T>, Q: map<T, T>, n: T, p: T, K: set<T>, U: set<T>)
    requires Acyclic(P, U) && Finite(P, p)
    requires !Reaches(P, p, {n})
    requires forall k :: k in K ==> k in P && P[k] == p && k != n
    requires AgreeOutside(P, Q, K + {n})
    requires n in Q && Q[n] == p
    requires forall k :: k in K ==> k in Q && Q[k] == n
    ensures Acyclic(Q, U)
    ensures forall N: set<T>, S: set<T> :: AllReach(P, N, S) && Reaches(P, p, S) ==> AllReach(Q, N, S) && Reaches(Q, n, S)
  {
    var M := K + {n};
    NotAbove(P, p, K);
    if Reaches(P, p, M) {
      var k: nat :| Lands(P, p, M, k);
      ReachesUnion(P, p, K, {n}, k);
      assert false;
    }
    KeptReaches(P, Q, M, p);
    FiniteStep(Q, n);
    forall m | m in M ensures Finite(Q, m) { FiniteStep(Q, m); }
    RewireAll(P, Q, M, U);
    forall N: set<T>, S: set<T> | AllReach(P, N, S) && Reaches(P, p, S)
      ensures AllReach(Q, N, S) && Reaches(Q, n, S)
    {
      ReachesStep(Q, n, S);
      forall m | m in M ensures Reaches(Q, m, S) { ReachesStep(Q, m, S); }
      RewireAllReach(P, Q, M, N, S);
    }
  }

  /** The rewiring done first when n lies above p: p is hung from the parent of n, or becomes a
      top if n has none. Afterwards n is no longer above p. */
  lemma Promote<T>(P: map<T, T>, Q: map<T, T>, n: T, p: T, U: set<T>)
    requires Acyclic(P, U) && Finite(P, p)
    requires p != n && Reaches(P, p, {n})
    requires AgreeOutside(P, Q, {p})
    requires n in P <==> p in Q
    requires n in P ==> Q[p] == P[n]
    ensures Acyclic(Q, U) && Finite(Q, p)
    ensures !Reaches(Q, p, {n})
    ensures forall N: set<T>, S: set<T> :: AllReach(P, N, S) && Reaches(P, n, S) && n !in S ==> AllReach(Q, N, S) && Reaches(Q, p, S)
  {
    var k: nat :| HasDepth(P, p, k);
    var j: nat :| Lands(P, p, {n}, j);
    var m, d := DepthOnChain(P, p, k, {n}, j);
    if n in P {
      var g := P[n];
      NothingDeeperAbove(P, g, d - 1, {p}, k);
      NothingDeeperAbove(P, g, d - 1, {n}, d);
      KeptReaches(P, Q, {p}, g);
      ReachesStep(Q, p, {n});
      FiniteStep(Q, p);
    } else {
      FiniteStep(Q, p);
      assert forall i: nat :: !Lands(Q, p, {n}, i);
    }
    RewireAll(P, Q, {p}, U);
    forall N: set<T>, S: set<T> | AllReach(P, N, S) && Reaches(P, n, S) && n !in S
      ensures AllReach(Q, N, S) && Reaches(Q, p, S)
    {
      if n !in P { TopReaches(P, n, S); }
      ReachesStep(P, n, S);
      ReachesStep(Q, p, S);
      RewireAllReach(P, Q, {p}, N, S);
    }
  }

  /** Nodes at least as deep as the start are not on its chain, unless they are the start. */
  lemma NothingDeeperAbove<T>(P: map<T, T>, g: T, k: nat, M: set<T>, d: nat)
    requires HasDepth(P, g, k) && k < d
    requires forall m :: m in M ==> HasDepth(P, m, d)
    ensures !Reaches(P, g, M)
  {
    if Reaches(P, g, M) {
      var j: nat :| Lands(P, g, M, j);
      var m, e := DepthOnChain(P, g, k, M, j);
      DepthUnique(P, m, d, e);
    }
  }

  /** Cutting n off and hanging the kids K from the parent of n, as a removal should. */
  lemma Drain<T>(P: map<T, T>, Q: map<T, T>, n: T, U: set<T>)
    requires Acyclic(P, U) && Finite(P, n)
    requires forall k :: k in P.Keys + Q.Keys && k != n && !(k in P && P[k] == n) ==> AgreeAt(P, Q, k)
    requires n !in Q
    requires forall k :: k in P && P[k] == n ==> if n in P then k in Q && Q[k] == P[n] else k !in Q
    ensures Acyclic(Q, U)
    ensures forall N: set<T>, S: set<T> :: AllReach(P, N, S) && n !in S && n !in N ==> AllReach(Q, N, S)
  {
    forall m, k: nat | HasDepth(P, m, k) ensures Finite(Q, m) { DrainFinite(P, Q, n, m, k); }
    forall m | m in U ensures Finite(Q, m) { assert Finite(P, m); }
    forall N: set<T>, S: set<T> | AllReach(P, N, S) && n !in S && n !in N ensures AllReach(Q, N, S) {
      forall m | m in N ensures Reaches(Q, m, S) {
        assert Reaches(P, m, S);
        var k: nat :| Lands(P, m, S, k);
        DrainReaches(P, Q, n, m, S, k);
      }
    }
  }

  lemma {:induction false} DrainFinite<T>(P: map<T, T>, Q: map<T, T>, n: T, m: T, k: nat)
    requires HasDepth(P, m, k)
    requires forall k :: k in P.Keys + Q.Keys && k != n && !(k in P && P[k] == n) ==> AgreeAt(P, Q, k)
    requires n !in Q
    requires forall k :: k in P && P[k] == n ==> if n in P then k in Q && Q[k] == P[n] else k !in Q
    ensures Finite(Q, m)
    decreases k
  {
    FiniteStep(Q, m);
    if m != n && m in P {
      DrainFinite(P, Q, n, P[m], k - 1);
      if P[m] == n && n in P { DrainFinite(P, Q, n, P[n], k - 2); } else { assert AgreeAt(P, Q, m) || P[m] == n; }
    } else {
      assert m == n || AgreeAt(P, Q, m) || m !in Q;
    }
  }

  lemma {:induction false} DrainReaches<T>(P: map<T, T>, Q: map<T, T>, n: T, m: T, S: set<T>, k: nat)
    requires Lands(P, m, S, k) && m != n && n !in S
    requires forall k :: k in P.Keys + Q.Keys && k != n && !(k in P && P[k] == n) ==> AgreeAt(P, Q, k)
    requires n !in Q
    requires forall k :: k in P && P[k] == n ==> if n in P then k in Q && Q[k] == P[n] else k !in Q
    ensures Reaches(Q, m, S)
    decreases k
  {
    if m in S {
      ReachesSelf(Q, m, S);
    } else if P[m] == n {
      SelfLoop(P, n, S);
      DrainReaches(P, Q, n, P[n], S, k - 2);
      ReachesStep(Q, m, S);
    } else {
      assert AgreeAt(P, Q, m);
      DrainReaches(P, Q, n, P[m], S, k - 1);
      ReachesStep(Q, m, S);
    }
  }

  /** A node that is its own parent reaches nothing else. */
  lemma SelfLoop<T>(P: map<T, T>, n: T, S: set<T>)
    requires n !in S
    ensures n in P && P[n] == n ==> forall k: nat :: !Lands(P, n, S, k)
  {
    if n in P && P[n] == n {
      forall k: nat ensures !Lands(P, n, S, k) { SelfLoopStep(P, n, S, k); }
    }
  }

  lemma {:induction false} SelfLoopStep<T>(P: map<T, T>, n: T, S: set<T>, k: nat)
    requires n in P && P[n] == n && n !in S
    ensures !Lands(P, n, S, k)
    decreases k
  {
    if k > 0 { SelfLoopStep(P, n, S, k - 1); }
  }

  /** The parents after the stream n has been made to depend on p (section 5.3.3 of RFC 7540): if p
      depended on n, it first moves to the old parent of n; an exclusive n adopts the kids of p. */
  ghost function Adjusted<T>(P: map<T, T>, n: T, p: T, exclusive: bool): map<T, T> {
    Adopted(Promoted(P, n, p), n, p, exclusive)
  }

  ghost function Promoted<T>(P: map<T, T>, n: T, p: T): map<T, T> {
    if !Reaches(P, p, {n}) then P
    else if n in P then P[p := P[n]]
    else P - {p}
  }

  ghost function Adopted<T>(P: map<T, T>, n: T, p: T, exclusive: bool): map<T, T> {
    (map x | x in P :: if exclusive && P[x] == p && x != n then n else P[x])[n := p]
  }

  /** Making n depend on p keeps every chain finite, although adopting the kids of p may close a
      cycle before n itself has moved. */
  lemma AdjustedAcyclic<T>(P: map<T, T>, n: T, p: T, exclusive: bool, U: set<T>)
    requires Acyclic(P, U) && p in U && n != p
    ensures Acyclic(Adjusted(P, n, p, exclusive), U)
  {
    var Q := Promoted(P, n, p);
    assert Finite(P, p);
    if Reaches(P, p, {n}) { Promote(P, Q, n, p, U); }
    var K := if exclusive then set x | x in Q && Q[x] == p && x != n else {};
    Graft(Q, Adopted(Q, n, p, exclusive), n, p, K, U);
  }

  /** Making n depend on p keeps everybody connected to the root. */
  lemma AdjustedReach<T>(P: map<T, T>, n: T, p: T, exclusive: bool, U: set<T>, N: set<T>, S: set<T>)
    requires Acyclic(P, U) && p in U && n != p
    requires AllReach(P, N, S) && n in N && p in N && n !in S
    ensures AllReach(Adjusted(P, n, p, exclusive), N, S)
  {
    var Q := Promoted(P, n, p);
    assert Finite(P, p) && Reaches(P, n, S) && Reaches(P, p, S);
    if Reaches(P, p, {n}) { Promote(P, Q, n, p, U); }
    var K := if exclusive then set x | x in Q && Q[x] == p && x != n else {};
    Graft(Q, Adopted(Q, n, p, exclusive), n, p, K, U);
  }

  lemma NoShortLoop<T>(P: map<T, T>, n: T)
    requires Finite(P, n)
    ensures n in P ==> P[n] != n
    ensures n in P && P[n] in P ==> P[P[n]] != n
  {
    var k: nat :| HasDepth(P, n, k);
    if n in P {
      if P[n] == n { DepthUnique(P, n, k, k - 1); }
      if P[n] in P {
        assert HasDepth(P, P[n], k - 1) && k - 1 > 0;
        if P[P[n]] == n { DepthUnique(P, n, k, k - 2); }
      }
    }
  }

  /** The tops of Q are finite, so cutting n out of a finite forest leaves it finite. */
  lemma CutFinite<T>(P: map<T, T>, n: T, U: set<T>)
    requires Acyclic(P, U)
    ensures Acyclic(P - {n}, U)
  {
    FiniteStep(P - {n}, n);
    RewireAll(P, P - {n}, {n}, U);
  }

  /** A node that nobody has as a parent is above nobody else. */
  lemma {:induction false} NobodysParent<T>(P: map<T, T>, p: T, n: T, k: nat)
    requires p != n && forall x :: x in P ==> P[x] != n
    ensures !Lands(P, p, {n}, k)
    decreases k
  {
    if k > 0 && p in P { NobodysParent(P, P[p], n, k - 1); }
  }

  /** Hanging a kidless top below p. */
  lemma AttachForest<T>(P: map<T, T>, n: T, p: T, U: set<T>)
    requires Acyclic(P, U) && p in U && n != p && n !in P
    requires forall x :: x in P ==> P[x] != n
    ensures Acyclic(P[n := p], U)
  {
    forall k: nat ensures !Lands(P, p, {n}, k) { NobodysParent(P, p, n, k); }
    assert Finite(P, p);
    Graft(P, P[n := p], n, p, {}, U);
  }

  lemma AttachReach<T>(P: map<T, T>, n: T, p: T, U: set<T>, N: set<T>, S: set<T>)
    requires Acyclic(P, U) && p in U && n != p && n !in P
    requires forall x :: x in P ==> P[x] != n
    requires AllReach(P, N, S) && p in N
    ensures AllReach(P[n := p], N + {n}, S)
  {
    forall k: nat ensures !Lands(P, p, {n}, k) { NobodysParent(P, p, n, k); }
    assert Finite(P, p) && Reaches(P, p, S);
    Graft(P, P[n := p], n, p, {}, U);
    assert AllReach(P[n := p], N, S) && Reaches(P[n := p], n, S);
  }

  /** Two nodes above each other are the same. */
  lemma SameIfMutual<T>(P: map<T, T>, a: T, b: T)
    requires Finite(P, a) && Reaches(P, a, {b}) && Reaches(P, b, {a})
    ensures a == b
  {
    var k: nat :| HasDepth(P, a, k);
    var i: nat :| Lands(P, a, {b}, i);
    var m, d := DepthOnChain(P, a, k, {b}, i);
    var j: nat :| Lands(P, b, {a}, j);
    var m', d' := DepthOnChain(P, b, d, {a}, j);
    DepthUnique(P, a, d', k);
  }

  /** On the chain of s, whatever is below n is at or below the kid k of n through which the chain passes. */
  lemma {:induction false} ChainPassesKid<T>(P: map<T, T>, s: T, k: T, n: T, a: T, i: nat)
    requires k in P && P[k] == n && Finite(P, n) && a != n
    requires Lands(P, s, {k}, i) && Reaches(P, s, {a}) && Reaches(P, a, {n})
    ensures Reaches(P, a, {k})
    decreases i
  {
    if s == a {
      assert Lands(P, a, {k}, i);
    } else if s == k {
      ReachesStep(P, k, {a});
      SameIfMutual(P, n, a);
    } else {
      ReachesStep(P, s, {a});
      ChainPassesKid(P, P[s], k, n, a, i - 1);
    }
  }

  /** The chain of x reaches n from one of its kids. */
  lemma {:induction false} LastStep<T>(P: map<T, T>, x: T, n: T, i: nat) returns (k: T)
    requires x != n && Lands(P, x, {n}, i)
    ensures k in P && P[k] == n && Reaches(P, x, {k})
    decreases i
  {
    if P[x] == n {
      k := x;
      ReachesSelf(P, x, {k});
    } else {
      k := LastStep(P, P[x], n, i - 1);
      ReachesStep(P, x, {k});
    }
  }

  /** The chain of x, and with it the chain of anything it reaches, is no longer than B. */
  ghost predicate Bounded<T>(P: map<T, T>, U: set<T>, B: nat) {
    forall x, k: nat :: x in U && HasDepth(P, x, k) ==> k <= B
  }

  lemma {:induction false} BoundExists<T>(P: map<T, T>, U: set<T>) returns (B: nat)
    requires Acyclic(P, U)
    ensures Bounded(P, U, B)
    decreases U
  {
    if U == {} {
      B := 0;
    } else {
      var x :| x in U;
      assert Acyclic(P, U - {x}) && Finite(P, x);
      var C := BoundExists(P, U - {x});
      var k: nat :| HasDepth(P, x, k);
      B := if C < k then k else C;
      forall y, j: nat | y in U && HasDepth(P, y, j) ensures j <= B {
        if y == x { DepthUnique(P, x, j, k); } else { assert y in U - {x}; }
      }
    }
  }
}
