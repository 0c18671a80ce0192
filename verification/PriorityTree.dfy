/** Reshaping the priority tree: removing a node and changing a dependency, in place. */
module PriorityTrees {
  import opened GoInt
  import opened Forest
  import opened FlowControl
  import opened WriteQueues
  import opened PriorityNodes

  ghost function ParentsOf(U: set<Node>): map<Node, Node>
    reads U`parent, U`kids, U`prev, U`next, U`kidSeq
  {
    Parents(ViewOf(U))
  }

  /** The links of U form well-formed lists, and following parents always ends. */
  ghost predicate Forested(U: set<Node>)
    reads U`parent, U`kids, U`prev, U`next, U`kidSeq
  {
    Linked(ViewOf(U)) && Acyclic(ParentsOf(U), U)
  }

  lemma KidParent(V: View, n: Node, i: nat)
    requires Linked(V) && n in V && i < |V[n].kidSeq|
    ensures V[n].kidSeq[i] in V && V[V[n].kidSeq[i]].parent == n && V[n].kidSeq[i] in Parents(V)
  {
    assert KidsLinked(V, n);
    assert KidLinked(V, n, i);
  }

  lemma KidOf(V: View, k: Node)
    requires Linked(V) && k in V && V[k].parent != null
    ensures V[k].parent in V && k in V[V[k].parent].kidSeq
  {
    assert Listed(V, k);
  }

  /** The links after the first kid of n has moved to the parent of n. */
  ghost predicate Hoisted(V: View, W: View, n: Node)
    requires n in V
  {
    if V[n].kids == null then W == V else Moved(V, W, V[n].kids, V[n].parent)
  }

  /** The loop of removeNode. It follows k.next after k has been relinked, so from the second round
      on it only visits nodes that already hang from the parent of n. */
  method MoveFirstKid(n: Node, ghost U: set<Node>)
    requires n in U && Forested(U)
    modifies U`parent, U`kids, U`prev, U`next, U`kidSeq
    ensures Hoisted(old(ViewOf(U)), ViewOf(U), n)
  {
    hide Moved, KidsLinked;
    ghost var V := ViewOf(U);
    ghost var W, j := V, 0;
    var k := n.kids;
    while k != null
      invariant ViewOf(U) == W && Hoisting(V, W, U, n, k, j)
      decreases if j == 0 then 1 else 0, KidCount(W, V[n].parent) - j
    {
      HoistReady(V, W, U, n, k, j);
      SetParent(k, n.parent, U);
      HoistStep(V, W, ViewOf(U), U, n, k, j);
      k := k.next;
      W, j := ViewOf(U), j + 1;
    }
  }

  /** Where the loop of removeNode stands after j rounds. */
  ghost predicate Hoisting(V: View, W: View, U: set<Node>, n: Node, k: Node?, j: nat) {
    && V.Keys == U && W.Keys == U && n in U && Linked(V) && Linked(W) && Acyclic(Parents(V), U)
    && W[n].parent == V[n].parent
    && if j == 0 then W == V && k == V[n].kids
       else V[n].kids != null && Moved(V, W, V[n].kids, V[n].parent) && k == KidAt(W, V[n].parent, j)
  }

  lemma HoistReady(V: View, W: View, U: set<Node>, n: Node, k: Node, j: nat)
    requires Hoisting(V, W, U, n, k, j)
    ensures k in U && k != W[n].parent && (W[n].parent != null ==> W[n].parent in U)
    ensures j > 0 ==> W[k].parent == V[n].parent && j < KidCount(W, V[n].parent)
  {
    FirstKidFacts(V, U, n);
    if j > 0 {
      var p: Node := V[n].parent;
      KidAtFacts(W, p, j);
      NotOwnParent(V, U, p);
    }
  }

  lemma HoistStep(V: View, W: View, X: View, U: set<Node>, n: Node, k: Node, j: nat)
    requires Hoisting(V, W, U, n, k, j) && Moved(W, X, k, W[n].parent)
    ensures Hoisting(V, X, U, n, X[k].next, j + 1)
  {
    if j == 0 {
      FirstKidFacts(V, U, n);
      HoistFacts(V, X, n);
    } else {
      KidAtFacts(W, V[n].parent, j);
      assert X == W;
    }
  }

  ghost function KidAt(V: View, p: Node?, j: nat): Node? {
    if p == null || p !in V then null else At(V[p].kidSeq, j)
  }

  ghost function KidCount(V: View, p: Node?): nat {
    if p == null || p !in V then 0 else |V[p].kidSeq|
  }

  lemma KidAtFacts(V: View, p: Node?, j: nat)
    requires Linked(V) && KidAt(V, p, j) != null
    ensures var k := KidAt(V, p, j);
      k in V && p in V && V[k].parent == p && V[k].next == KidAt(V, p, j + 1) && j < KidCount(V, p)
  {
    assert KidsLinked(V, p);
    assert KidLinked(V, p, j);
  }

  /** After the first move the moved kid is the first of its new siblings, or has none. */
  lemma HoistFacts(V: View, W: View, n: Node)
    requires n in V && V[n].kids != null && Moved(V, W, V[n].kids, V[n].parent)
    requires V[V[n].kids].parent != V[n].parent
    ensures W[V[n].kids].next == KidAt(W, V[n].parent, 1)
  {
    var k, p := V[n].kids, V[n].parent;
    if p != null {
      assert W[p].kidSeq[0] == k;
      KidAtFacts(W, p, 0);
    } else {
      assert Listed(W, k);
    }
  }

  lemma NotOwnParent(V: View, U: set<Node>, n: Node)
    requires V.Keys == U && Acyclic(Parents(V), U) && n in U
    ensures V[n].parent != n
    ensures forall k :: k in U && V[k].parent == n ==> V[n].parent != k
  {
    assert Finite(Parents(V), n);
    NoShortLoop(Parents(V), n);
    forall k | k in U && V[k].parent == n ensures V[n].parent != k {
      assert Finite(Parents(V), k);
      NoShortLoop(Parents(V), k);
    }
  }

  lemma FirstKidFacts(V: View, U: set<Node>, n: Node)
    requires Linked(V) && V.Keys == U && Acyclic(Parents(V), U) && n in U && V[n].kids != null
    ensures var k := V[n].kids; var p := V[n].parent;
      k in V && k != n && k != p && p != n && V[k].parent == n && (p != null ==> p in V)
  {
    assert KidsLinked(V, n) && Listed(V, n);
    assert V[n].kids == V[n].kidSeq[0];
    KidParent(V, n, 0);
    NotOwnParent(V, U, n);
  }

  lemma ParentStep(V: View, k: Node, n: Node, S: set<Node>)
    requires k in V && V[k].parent == n
    ensures k in Parents(V) && Parents(V)[k] == n
    ensures Reaches(Parents(V), n, S) ==> Reaches(Parents(V), k, S)
  {
    ReachesStep(Parents(V), k, S);
  }

  lemma HoistForest(V: View, W: View, U: set<Node>, n: Node)
    requires V.Keys == U && n in U && Linked(V) && Acyclic(Parents(V), U) && Hoisted(V, W, n)
    ensures W.Keys == U && Linked(W) && Acyclic(Parents(W), U) && W[n].parent == V[n].parent
  {
    hide AllReach, Reaches, HasDepth, KidsLinked, Listed;
    if V[n].kids != null {
      var k: Node := V[n].kids;
      FirstKidFacts(V, U, n);
      ReachesSelf(Parents(V), n, {n});
      ParentStep(V, k, n, {n});
      assert Finite(Parents(V), k);
      Promote(Parents(V), Parents(W), n, k, U);
    }
  }

  lemma RemovedForest(V: View, X: View, W: View, U: set<Node>, n: Node)
    requires V.Keys == U && n in U && Linked(V) && Acyclic(Parents(V), U)
    requires Hoisted(V, X, n) && Moved(X, W, n, null)
    ensures W.Keys == U && Linked(W) && Acyclic(Parents(W), U)
  {
    HoistForest(V, X, U, n);
    CutFinite(Parents(X), n, U);
  }

  /** The nodes M are exactly the nodes of one tree, whose root is r. */
  ghost predicate IsTree(V: View, r: Node, M: set<Node>) {
    && (forall x :: x in V ==> (x == r || V[x].parent != null <==> x in M))
    && AllReach(Parents(V), M, {r})
  }

  /** Every kid of n has moved to the parent of n, which itself is gone from the tree. */
  ghost predicate Drained(V: View, W: View, n: Node) {
    && n in V && W.Keys == V.Keys
    && forall x :: x in V ==> W[x].parent == DrainedParent(V, n, x)
  }

  ghost function DrainedParent(V: View, n: Node, x: Node): Node?
    requires n in V && x in V
  {
    if x == n then null else if V[x].parent == n then V[n].parent else V[x].parent
  }

  /** With at most one kid, removal as written is the removal intended. */
  lemma RemovedDrains(V: View, X: View, W: View, U: set<Node>, n: Node)
    requires V.Keys == U && n in U && Linked(V) && Acyclic(Parents(V), U)
    requires Hoisted(V, X, n) && Moved(X, W, n, null)
    requires |V[n].kidSeq| <= 1
    ensures Drained(V, W, n)
  {
    forall x | x in V ensures W.Keys == V.Keys && W[x].parent == DrainedParent(V, n, x) {
      RemovedParent(V, X, W, n, x);
      if V[x].parent == n { OnlyKid(V, n, x); }
      if x == V[n].kids { FirstKidFacts(V, U, n); }
    }
  }

  lemma OnlyKid(V: View, n: Node, x: Node)
    requires Linked(V) && n in V && x in V && V[x].parent == n && |V[n].kidSeq| <= 1
    ensures V[n].kids == x
  {
    assert KidsLinked(V, n);
    KidOf(V, x);
  }

  lemma RemovedParent(V: View, X: View, W: View, n: Node, x: Node)
    requires n in V && x in V && Hoisted(V, X, n) && Moved(X, W, n, null)
    ensures W.Keys == V.Keys && W[x].parent == if x == n then null else if x == V[n].kids then V[n].parent else V[x].parent
  {
  }

  lemma DrainedReach(V: View, W: View, U: set<Node>, n: Node, N: set<Node>, S: set<Node>)
    requires V.Keys == U && n in U && Acyclic(Parents(V), U) && Drained(V, W, n)
    requires AllReach(Parents(V), N, S) && n !in S && n !in N
    ensures AllReach(Parents(W), N, S)
  {
    var P, Q := Parents(V), Parents(W);
    NotOwnParent(V, U, n);
    forall k | k in P.Keys + Q.Keys && k != n && !(k in P && P[k] == n) ensures AgreeAt(P, Q, k) {
      assert W[k].parent == DrainedParent(V, n, k);
    }
    forall k | k in P && P[k] == n ensures if n in P then k in Q && Q[k] == P[n] else k !in Q {
      assert W[k].parent == DrainedParent(V, n, k);
    }
    assert W[n].parent == DrainedParent(V, n, n);
    assert Finite(P, n);
    Drain(P, Q, n, U);
  }

  /** Draining a node of a tree leaves a tree. */
  lemma DrainedTree(V: View, W: View, U: set<Node>, r: Node, M: set<Node>, n: Node)
    requires V.Keys == U && n in U && Acyclic(Parents(V), U) && M <= U
    requires r in U && n != r && V[r].parent == null && IsTree(V, r, M)
    requires Drained(V, W, n)
    ensures IsTree(W, r, M - {n})
  {
    forall x | x in W ensures x == r || W[x].parent != null <==> x in M - {n} {
      assert W[x].parent == DrainedParent(V, n, x);
      if V[x].parent == n { ParentOfKid(V, r, M, n, x); }
    }
    assert AllReach(Parents(V), M - {n}, {r});
    DrainedReach(V, W, U, n, M - {n}, {r});
  }

  /** A node with a kid in the tree is in the tree too. */
  lemma ParentOfKid(V: View, r: Node, M: set<Node>, n: Node, k: Node)
    requires r in V && n in V && k in V && n != r && V[k].parent == n && IsTree(V, r, M) && V[r].parent == null
    ensures k in M && V[n].parent != null
  {
    assert Reaches(Parents(V), k, {r});
    ReachesStep(Parents(V), k, {r});
    if n !in Parents(V) { TopReaches(Parents(V), n, {r}); }
  }

  /** With two kids or more, removal as written leaves the second one below a node that is gone. */
  lemma RemovedOrphan(V: View, X: View, W: View, U: set<Node>, n: Node, k: Node)
    requires V.Keys == U && n in U && Linked(V) && Acyclic(Parents(V), U)
    requires Hoisted(V, X, n) && Moved(X, W, n, null)
    requires |V[n].kidSeq| > 1 && k == V[n].kidSeq[1]
    ensures k in U && k != n && W[k].parent == n && W[n].parent == null && V[k].parent == n
  {
    assert KidsLinked(V, n);
    KidParent(V, n, 1);
    FirstKidFacts(V, U, n);
  }

  /** A mapped node below a node that is no longer attached breaks the tree. */
  lemma OrphanBreaksTree(V: View, r: Node, M: set<Node>, n: Node, k: Node)
    requires n in V && k in V && n != r && V[k].parent == n && V[n].parent == null && k in M && V[r := V[n]].Keys == V.Keys
    requires k != r
    ensures !IsTree(V, r, M)
  {
    if AllReach(Parents(V), M, {r}) {
      assert Reaches(Parents(V), k, {r});
      ReachesStep(Parents(V), k, {r});
      TopReaches(Parents(V), n, {r});
    }
  }

  /** Whether n is above p, found by walking up from p. */
  method IsAbove(n: Node, p: Node, ghost U: set<Node>) returns (b: bool)
    requires n in U && p in U && n != p && Forested(U)
    ensures b <==> Reaches(ParentsOf(U), p, {n})
  {
    ghost var P := ParentsOf(U);
    ghost var V := ViewOf(U);
    assert Finite(P, p);
    ghost var d: nat :| HasDepth(P, p, d);
    StepUp(V, p, n);
    var x := p.parent;
    while x != null
      invariant x != null ==> x in U && d > 0 && HasDepth<Node>(P, x, d - 1)
      invariant Reaches<Node>(P, p, {n}) <==> x != null && Reaches<Node>(P, x, {n})
      decreases d
    {
      if x == n {
        ReachesSelf<Node>(P, n, {n});
        return true;
      }
      StepUp(V, x, n);
      x, d := x.parent, d - 1;
    }
    return false;
  }

  lemma StepUp(V: View, x: Node, n: Node)
    requires Linked(V) && x in V && x != n
    ensures x in Parents(V) <==> V[x].parent != null
    ensures V[x].parent != null ==> V[x].parent in V && (Reaches(Parents(V), x, {n}) <==> Reaches(Parents(V), Parents(V)[x], {n}))
    ensures V[x].parent == null ==> !Reaches(Parents(V), x, {n})
  {
    assert Listed(V, x);
    if V[x].parent == null { TopReaches(Parents(V), x, {n}); } else { ReachesStep(Parents(V), x, {n}); }
  }

  /** A are the first i of K. */
  ghost predicate FirstOf(K: seq<Node>, i: nat, A: set<Node>) {
    && i <= |K|
    && (forall j :: 0 <= j < |K| ==> (j < i <==> K[j] in A))
    && forall x :: x in A ==> x in K
  }

  /** The links after the first i kids A that p had in V, but for n, have moved below n. */
  ghost predicate Adopting(V: View, W: View, n: Node, p: Node, i: nat, A: set<Node>) {
    && n in V && p in V && n != p && W.Keys == V.Keys && Linked(V) && Linked(W)
    && FirstOf(V[p].kidSeq, i, A)
    && (forall x :: x in V ==> W[x].parent == if x != n && x in A then n else V[x].parent)
    && W[p].kidSeq == (if n in A then [n] else []) + V[p].kidSeq[i..]
  }

  lemma AdoptNext(V: View, W: View, n: Node, p: Node, i: nat, A: set<Node>)
    requires Adopting(V, W, n, p, i, A) && i < |V[p].kidSeq|
    ensures var k := V[p].kidSeq[i];
      k in V && k in W && Linked(W) && W[k].next == At(V[p].kidSeq, i + 1) && V[k].parent == p && (k != n ==> W[k].parent == p)
  {
    KidParent(V, p, i);
    KidAtFacts(W, p, if n in A then 1 else 0);
  }

  lemma AdoptStepList(K: seq<Node>, L: seq<Node>, n: Node, i: nat, b: bool)
    requires i < |K|
    requires L == (if b then [n] else []) + K[i..]
    ensures K[i] != n ==> Without(L, K[i]) == (if b then [n] else []) + K[i + 1..]
    ensures K[i] == n && !b ==> L == [n] + K[i + 1..]
  {
    assert K[i..] == [K[i]] + K[i + 1..];
    if b {
      assert L == [n] + K[i..];
      assert L[1..] == K[i..];
    }
  }

  lemma FirstOfStep(V: View, p: Node, i: nat, A: set<Node>)
    requires p in V && Linked(V) && FirstOf(V[p].kidSeq, i, A) && i < |V[p].kidSeq|
    ensures FirstOf(V[p].kidSeq, i + 1, A + {V[p].kidSeq[i]})
  {
    assert KidsLinked(V, p);
  }

  lemma AdoptStart(V: View, n: Node, p: Node)
    requires n in V && p in V && n != p && Linked(V)
    ensures Adopting(V, V, n, p, 0, {}) && V[p].kids == At(V[p].kidSeq, 0)
  {
    assert KidsLinked(V, p);
  }

  lemma AdoptSkip(V: View, W: View, n: Node, p: Node, i: nat, A: set<Node>)
    requires Adopting(V, W, n, p, i, A) && i < |V[p].kidSeq| && V[p].kidSeq[i] == n
    ensures Adopting(V, W, n, p, i + 1, A + {n})
  {
    FirstOfStep(V, p, i, A);
    AdoptStepList(V[p].kidSeq, W[p].kidSeq, n, i, n in A);
  }

  lemma AdoptMove(V: View, W: View, X: View, n: Node, p: Node, i: nat, A: set<Node>)
    requires Adopting(V, W, n, p, i, A) && i < |V[p].kidSeq| && V[p].kidSeq[i] != n
    requires Moved(W, X, V[p].kidSeq[i], n)
    ensures Adopting(V, X, n, p, i + 1, A + {V[p].kidSeq[i]})
  {
    var K, k := V[p].kidSeq, V[p].kidSeq[i];
    AdoptNext(V, W, n, p, i, A);
    FirstOfStep(V, p, i, A);
    AdoptStepList(K, W[p].kidSeq, n, i, n in A);
    assert X[p].kidSeq == Without(W[p].kidSeq, k);
    forall x | x in V ensures X[x].parent == if x != n && x in A + {k} then n else V[x].parent {
      assert X[x].parent == if x == k then n else W[x].parent;
    }
  }

  lemma AdoptedAll(V: View, W: View, n: Node, p: Node, exclusive: bool, x: Node, A: set<Node>)
    requires n in V && p in V && n != p && Linked(V) && x in V
    requires if exclusive then Adopting(V, W, n, p, |V[p].kidSeq|, A) else W == V
    ensures W[x].parent == if exclusive && V[x].parent == p && x != n then n else V[x].parent
  {
    var K := V[p].kidSeq;
    if V[x].parent == p { KidOf(V, x); }
    if x in K {
      var i :| 0 <= i < |K| && K[i] == x;
      KidParent(V, p, i);
    }
  }

  lemma AdoptedAt(P: map<Node, Node>, n: Node, p: Node, exclusive: bool, x: Node)
    ensures x in Adopted(P, n, p, exclusive) <==> x == n || x in P
    ensures x in Adopted(P, n, p, exclusive) ==>
      Adopted(P, n, p, exclusive)[x] == if x == n then p else if exclusive && P[x] == p then n else P[x]
  {
  }

  lemma AdoptedParents(V: View, X: View, n: Node, p: Node, exclusive: bool)
    requires n in V && X.Keys == V.Keys
    requires forall x :: x in V ==> X[x].parent == if x == n then p else if exclusive && V[x].parent == p then n else V[x].parent
    ensures Parents(X) == Adopted(Parents(V), n, p, exclusive)
  {
    var Q, A := Parents(X), Adopted(Parents(V), n, p, exclusive);
    forall x: Node ensures x in Q <==> x in A { AdoptedAt(Parents(V), n, p, exclusive, x); }
    forall x | x in Q ensures Q[x] == A[x] { AdoptedAt(Parents(V), n, p, exclusive, x); }
  }

  /** Once all kids have been adopted and n has moved below p, the parents are as RFC 7540 asks. */
  lemma AdoptDone(V: View, W: View, X: View, n: Node, p: Node, exclusive: bool, A: set<Node>)
    requires n in V && p in V && n != p && Linked(V)
    requires if exclusive then Adopting(V, W, n, p, |V[p].kidSeq|, A) else W == V
    requires Moved(W, X, n, p)
    ensures Parents(X) == Adopted(Parents(V), n, p, exclusive)
  {
    forall x | x in V ensures X[x].parent == if x == n then p else if exclusive && V[x].parent == p then n else V[x].parent {
      AdoptedAll(V, W, n, p, exclusive, x, A);
    }
    AdoptedParents(V, X, n, p, exclusive);
  }

  /** The loop of an exclusive change: the kids of p, but for n, move below n. When p is below n a
      cycle is closed for the moment. */
  method AdoptKids(n: Node, p: Node, ghost U: set<Node>) returns (ghost A: set<Node>)
    requires n in U && p in U && n != p && Linked(ViewOf(U))
    modifies U`parent, U`kids, U`prev, U`next, U`kidSeq
    ensures Adopting(old(ViewOf(U)), ViewOf(U), n, p, |old(ViewOf(U))[p].kidSeq|, A)
  {
    hide Moved, Adopting, Linked;
    ghost var V := ViewOf(U);
    ghost var i := 0;
    A := {};
    var k := p.kids;
    AdoptStart(V, n, p);
    while k != null
      invariant Adopting(V, ViewOf(U), n, p, i, A) && i <= |V[p].kidSeq|
      invariant k == At(V[p].kidSeq, i)
      decreases |V[p].kidSeq| - i
    {
      ghost var W := ViewOf(U);
      AdoptNext(V, W, n, p, i, A);
      var next := k.next;
      if k != n {
        SetParent(k, n, U);
        AdoptMove(V, W, ViewOf(U), n, p, i, A);
      } else {
        AdoptSkip(V, W, n, p, i, A);
      }
      A, i := A + {k}, i + 1;
      k := next;
    }
  }

  /** Makes n depend on p: the core of AdjustStream. */
  method Depend(n: Node, p: Node, exclusive: bool, ghost U: set<Node>)
    requires n in U && p in U && n != p && Forested(U)
    modifies U`parent, U`kids, U`prev, U`next, U`kidSeq
    ensures Forested(U)
    ensures ParentsOf(U) == Adjusted(old(ParentsOf(U)), n, p, exclusive)
  {
    ghost var P := ParentsOf(U);
    var above := IsAbove(n, p, U);
    if above {
      PromoteReady(ViewOf(U), U, n, p);
      SetParent(p, n.parent, U);
    }
    ghost var V := ViewOf(U);
    assert Parents(V) == Promoted(P, n, p);
    ghost var A := {};
    if exclusive {
      A := AdoptKids(n, p, U);
    }
    ghost var W := ViewOf(U);
    SetParent(n, p, U);
    AdoptDone(V, W, ViewOf(U), n, p, exclusive, A);
    AdjustedAcyclic(P, n, p, exclusive, U);
  }

  lemma PromoteReady(V: View, U: set<Node>, n: Node, p: Node)
    requires Linked(V) && V.Keys == U && n in U && p in U && n != p && Acyclic(Parents(V), U) && Reaches(Parents(V), p, {n})
    ensures V[n].parent != p && (V[n].parent != null ==> V[n].parent in U)
  {
    assert Listed(V, n) && Finite(Parents(V), p);
    if V[n].parent == p { NotAbove(Parents(V), p, {n}); }
  }

  /** Changing a dependency within a tree leaves a tree. */
  lemma AdjustedTree(V: View, W: View, U: set<Node>, r: Node, M: set<Node>, n: Node, p: Node, exclusive: bool)
    requires V.Keys == U && W.Keys == U && Acyclic(Parents(V), U) && M <= U
    requires r in U && V[r].parent == null && IsTree(V, r, M)
    requires n in M && p in M && n != r && n != p
    requires Parents(W) == Adjusted(Parents(V), n, p, exclusive)
    ensures IsTree(W, r, M) && W[r].parent == null
  {
    var P := Parents(V);
    AdjustedReach(P, n, p, exclusive, U, M, {r});
    if p == r { TopReaches(P, p, {n}); }
    assert Promoted(P, n, p).Keys == P.Keys;
    assert Parents(W).Keys == P.Keys + {n} == P.Keys;
    forall x | x in W ensures x == r || W[x].parent != null <==> x in M {
      assert W[x].parent != null <==> x in Parents(W);
    }
  }

  lemma RemovedTops(V: View, X: View, W: View, U: set<Node>, n: Node, x: Node)
    requires V.Keys == U && n in U && x in U && Linked(V) && Acyclic(Parents(V), U)
    requires Hoisted(V, X, n) && Moved(X, W, n, null)
    ensures W.Keys == U && (V[x].parent == null ==> W[x].parent == null)
  {
    RemovedParent(V, X, W, n, x);
    if V[n].kids != null { FirstKidFacts(V, U, n); }
  }

  /** Removal leaves a tree exactly when the removed node had at most one kid. */
  lemma RemovedTreeIff(V: View, X: View, W: View, U: set<Node>, r: Node, M: set<Node>, n: Node)
    requires V.Keys == U && n in U && Linked(V) && Acyclic(Parents(V), U) && M <= U
    requires r in U && n != r && V[r].parent == null && IsTree(V, r, M)
    requires Hoisted(V, X, n) && Moved(X, W, n, null)
    ensures W.Keys == U && (IsTree(W, r, M - {n}) <==> |V[n].kidSeq| <= 1)
  {
    hide Moved, Hoisted, Drained;
    RemovedTops(V, X, W, U, n, r);
    if |V[n].kidSeq| <= 1 {
      RemovedDrains(V, X, W, U, n);
      DrainedTree(V, W, U, r, M, n);
    } else {
      var k := V[n].kidSeq[1];
      RemovedOrphan(V, X, W, U, n, k);
      assert k in M;
      OrphanBreaksTree(W, r, M - {n}, n, k);
    }
  }

  /** removeNode on the links: the kids of n should move to its parent, but only the first one does. */
  method Extract(n: Node, ghost U: set<Node>, ghost r: Node, ghost M: set<Node>)
    requires n in U && r in U && n != r && r.parent == null && M <= U && Forested(U)
    modifies U`parent, U`kids, U`prev, U`next, U`kidSeq
    ensures Forested(U) && r.parent == null
    ensures old(IsTree(ViewOf(U), r, M)) ==> (IsTree(ViewOf(U), r, M - {n}) <==> |old(n.kidSeq)| <= 1)
    ensures |old(n.kidSeq)| > 1 ==> Stranded(n, old(n.kidSeq)[1], U) && old(n.kidSeq[1].parent) == n
    ensures forall x :: x in U ==> x.parent == old(x.parent) || x.parent == null || x.parent == old(n.parent)
  {
    hide Moved, Hoisted, IsTree, Linked, Acyclic, Parents;
    ghost var V := ViewOf(U);
    MoveFirstKid(n, U);
    ghost var X := ViewOf(U);
    HoistForest(V, X, U, n);
    SetParent(n, null, U);
    ghost var W := ViewOf(U);
    RemovedForest(V, X, W, U, n);
    RemovedTops(V, X, W, U, n, r);
    if IsTree(V, r, M) { RemovedTreeIff(V, X, W, U, r, M, n); }
    if |V[n].kidSeq| > 1 { RemovedOrphan(V, X, W, U, n, V[n].kidSeq[1]); }
    forall x | x in U ensures W[x].parent == V[x].parent || W[x].parent == null || W[x].parent == V[n].parent { RemovedParent(V, X, W, n, x); }
  }

  /** k hangs from n, which hangs from nothing. */
  ghost predicate Stranded(n: Node, k: Node, U: set<Node>)
    reads n`parent, k`parent
  {
    n in U && k in U && k != n && k.parent == n && n.parent == null
  }

  /** m or something above it is x. */
  ghost predicate AtOrAbove(V: View, m: Node?, x: Node) {
    m != null && Reaches<Node>(Parents(V), m, {x})
  }

  /** addBytes: the node and everything above it account for b more bytes. */
  method AddBytes(n: Node, b: int, ghost U: set<Node>)
    requires n in U && Forested(U)
    modifies n`bytes, U`subtreeBytes
    ensures n.bytes == old(n.bytes) + b
    ensures forall x :: x in U ==> x.subtreeBytes == old(x.subtreeBytes) + if AtOrAbove(ViewOf(U), n, x) then b else 0
  {
    hide AtOrAbove, HasDepth, Linked, Acyclic, Finite;
    ghost var V := ViewOf(U);
    ghost var d := DepthOf(V, U, n);
    n.bytes := n.bytes + b;
    var m: Node? := n;
    ghost var done: set<Node> := {};
    while m != null
      invariant m != null ==> m in U && HasDepth<Node>(Parents(V), m, d)
      invariant n.bytes == old(n.bytes) + b
      invariant forall x :: x in U ==> x.subtreeBytes == old(x.subtreeBytes) + if x in done then b else 0
      invariant forall x :: x in U ==> (AtOrAbove(V, n, x) <==> x in done || AtOrAbove(V, m, x))
      invariant forall x :: x in U && x in done ==> !AtOrAbove(V, m, x)
      invariant m == null ==> forall x :: x in U ==> !AtOrAbove(V, m, x)
      decreases m != null, d
    {
      AboveSplit(V, U, m, d);
      assert AtOrAbove(V, m, m);
      m.subtreeBytes := m.subtreeBytes + b;
      done := done + {m};
      m := m.parent;
      d := if d > 0 then d - 1 else 0;
    }
  }

  /** Closes a node: its bytes no longer count and its queue is emptied. */
  method Retire(n: Node, ghost U: set<Node>)
    requires n in U && Forested(U)
    modifies n`state, n`bytes, U`subtreeBytes, n.q
    ensures n.state == Closed && n.bytes == 0 && n.q.Valid() && n.q.s == []
    ensures forall x :: x in U ==> x.subtreeBytes == old(x.subtreeBytes) - if AtOrAbove(ViewOf(U), n, x) then old(n.bytes) else 0
  {
    hide *;
    n.state := Closed;
    AddBytes(n, -n.bytes, U);
    n.q.Clear();
  }

  lemma DepthOf(V: View, U: set<Node>, n: Node) returns (d: nat)
    requires n in U && Acyclic(Parents(V), U)
    ensures HasDepth(Parents(V), n, d)
  {
    assert Finite(Parents(V), n);
    d :| HasDepth(Parents(V), n, d);
  }

  /** What is at or above m is m itself and what is at or above its parent, which m is not. */
  lemma AboveSplit(V: View, U: set<Node>, m: Node, d: nat)
    requires V.Keys == U && m in U && Linked(V) && Acyclic(Parents(V), U) && HasDepth(Parents(V), m, d)
    ensures var p := V[m].parent;
      && (p != null ==> p in U && d > 0 && HasDepth<Node>(Parents(V), p, d - 1))
      && !AtOrAbove(V, p, m)
      && (p == null ==> forall x :: x in U ==> !AtOrAbove(V, p, x))
    ensures forall x :: x in U ==> (AtOrAbove(V, m, x) <==> x == m || AtOrAbove(V, V[m].parent, x))
  {
    var P := Parents(V);
    assert Listed(V, m);
    forall x | x in U ensures AtOrAbove(V, m, x) <==> x == m || AtOrAbove(V, V[m].parent, x) {
      if x == m { ReachesSelf(P, m, {x}); } else { StepUp(V, m, x); }
    }
    if V[m].parent != null {
      var p: Node := V[m].parent;
      assert Finite(P, p);
      NotAbove(P, p, {m});
    }
  }

  const LOOSE := Links(null, null, null, null, [])

  /** A new node, tied to nothing, changes nothing for the others. */
  lemma LooseNode(V: View, U: set<Node>, n: Node, r: Node, M: set<Node>)
    requires V.Keys == U && n !in U && Linked(V) && Acyclic(Parents(V), U) && r in U && M <= U
    ensures var W := V[n := LOOSE];
      Linked(W) && Acyclic(Parents(W), U + {n}) && (IsTree(V, r, M) ==> IsTree(W, r, M))
    ensures forall x :: x in Parents(V) ==> Parents(V)[x] != n
  {
    var W := V[n := LOOSE];
    assert Parents(W) == Parents(V);
    FiniteStep(Parents(V), n);
    forall x | x in W ensures KidsLinked(W, x) && Listed(W, x) {
      if x != n {
        assert KidsLinked(V, x) && Listed(V, x);
        forall i | 0 <= i < |W[x].kidSeq| ensures KidLinked(W, x, i) { assert KidLinked(V, x, i); }
      }
    }
    forall x | x in Parents(V) ensures Parents(V)[x] != n { assert Listed(V, x); }
  }

  /** Hanging a loose node below p keeps the forest, and the tree if p is in it. */
  lemma AttachedForest(V: View, W: View, U: set<Node>, n: Node, p: Node, r: Node, M: set<Node>)
    requires V.Keys == U && n in U && p in U && Linked(V) && Acyclic(Parents(V), U) && r in U && n != r && V[r].parent == null && M <= U
    requires V[n].parent == null && (forall x :: x in Parents(V) ==> Parents(V)[x] != n)
    requires Moved(V, W, n, p)
    ensures Acyclic(Parents(W), U) && W[r].parent == null
    ensures IsTree(V, r, M) && p in M ==> IsTree(W, r, M + {n})
  {
    hide Acyclic, AllReach, Linked;
    AttachForest(Parents(V), n, p, U);
    if IsTree(V, r, M) && p in M {
      AttachReach(Parents(V), n, p, U, M, {r});
      forall x | x in W ensures x == r || W[x].parent != null <==> x in M + {n} { }
    }
  }

  /** Creates a node below p. */
  method Sprout(id: nat, weight: nat, state: NodeState, p: Node, ghost U: set<Node>, ghost r: Node, ghost M: set<Node>) returns (n: Node)
    requires p in U && r in U && r.parent == null && M <= U && Forested(U)
    modifies U`parent, U`kids, U`prev, U`next, U`kidSeq
    ensures fresh(n) && fresh(n.q) && n.id == id && n.weight == weight && n.state == state && n.bytes == 0
    ensures n.q.Valid() && n.q.s == []
    ensures n.parent == p && n.kidSeq == [] && Forested(U + {n}) && r.parent == null
    ensures old(IsTree(ViewOf(U), r, M)) && p in M ==> IsTree(ViewOf(U + {n}), r, M + {n})
    ensures forall x :: x in U ==> x.parent == old(x.parent) && x.kidSeq == if x == p then [n] + old(x.kidSeq) else old(x.kidSeq)
  {
    hide Linked, Acyclic, IsTree, KidsLinked, AllReach, HasDepth, Lands, Reaches, Finite, Place;
    ghost var V := ViewOf(U);
    n := new Node(id, weight, state);
    LooseNode(V, U, n, r, M);
    assert ViewOf(U + {n}) == V[n := LOOSE];
    ghost var V1 := ViewOf(U + {n});
    assert Parents(V1) == Parents(V);
    SetParent(n, p, U + {n});
    AttachedForest(V1, ViewOf(U + {n}), U + {n}, n, p, r, M);
  }

  /** Moving n below the root is a plain change of dependency. */
  method DependOnRoot(n: Node, r: Node, ghost U: set<Node>)
    requires n in U && r in U && n != r && r.parent == null && Forested(U)
    modifies U`parent, U`kids, U`prev, U`next, U`kidSeq
    ensures Forested(U)
    ensures ParentsOf(U) == Adjusted(old(ParentsOf(U)), n, r, false)
  {
    hide Linked, Acyclic;
    ghost var P := ParentsOf(U);
    RootAdjusted(P, n, r);
    AdjustedAcyclic(P, n, r, false, U);
    SetParent(n, r, U);
  }

  lemma RootAdjusted(P: map<Node, Node>, n: Node, r: Node)
    requires n != r && r !in P
    ensures Adjusted(P, n, r, false) == P[n := r]
  {
    TopReaches(P, r, {n});
  }

  /** A change of dependency in a tree that makes a kidless n depend on p touches neither a stranded
      node nor the removed one it hangs from. */
  lemma AdjustedStranded(P: map<Node, Node>, n: Node, p: Node, exclusive: bool, v: Node, k: Node)
    requires n != p && k != n && v != n && v != p
    requires forall x :: x in P ==> P[x] != n
    requires k in P && P[k] == v && v !in P
    ensures var Q := Adjusted(P, n, p, exclusive); k in Q && Q[k] == v && v !in Q
  {
    forall j: nat ensures !Lands(P, p, {n}, j) { NobodysParent(P, p, n, j); }
  }

  lemma AdjustedTop(V: View, W: View, U: set<Node>, r: Node, n: Node, p: Node, exclusive: bool)
    requires V.Keys == U && W.Keys == U && r in U && V[r].parent == null && n != r
    requires Parents(W) == Adjusted(Parents(V), n, p, exclusive)
    ensures W[r].parent == null
  {
    var P := Parents(V);
    assert r !in P;
    if p == r { TopReaches(P, p, {n}); }
    assert r !in Adjusted(P, n, p, exclusive);
    assert W[r].parent != null ==> r in Parents(W);
  }
}
