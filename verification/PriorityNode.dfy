/** The nodes of the priority tree (section 5.3 of RFC 7540) and the relinking of one node. */
module PriorityNodes {
  import opened GoInt
  import opened Forest
  import opened WriteQueues

  datatype NodeState = Open | Closed | Idle

  class Node {
    const id: nat
    const q: WriteQueue
    var weight: nat
    var state: NodeState
    var bytes: int
    var subtreeBytes: int

    var parent: Node?
    var kids: Node?
    var prev: Node?
    var next: Node?

    /** The siblings linked from kids, in order. */
    ghost var kidSeq: seq<Node>

    constructor (id: nat, weight: nat, state: NodeState)
      ensures this.id == id && this.weight == weight && this.state == state
      ensures bytes == 0 && subtreeBytes == 0
      ensures parent == null && kids == null && prev == null && next == null && kidSeq == []
      ensures fresh(q) && q.Valid() && q.s == [] && q.pushed == [] && q.popped == []
    {
      this.id, this.weight, this.state := id, weight, state;
      q := new WriteQueue();
      bytes, subtreeBytes := 0, 0;
      parent, kids, prev, next, kidSeq := null, null, null, null, [];
    }

    /** Makes the neighbours of this node point past it. */
    method Skip(ghost U: set<Node>)
      requires this in U && parent != null && parent in U
      requires prev != null ==> prev in U && prev != this && prev != next
      requires next != null ==> next in U && next != this
      modifies U`kids, U`prev, U`next
      ensures forall x :: x in U ==> x.kids == if x == parent && old(prev) == null then old(next) else old(x.kids)
      ensures forall x :: x in U ==> x.next == if x == old(prev) then old(next) else old(x.next)
      ensures forall x :: x in U ==> x.prev == if x == old(next) then old(prev) else old(x.prev)
    {
      if prev == null {
        parent.kids := next;
      } else {
        prev.next := next;
      }
      if next != null {
        next.prev := prev;
      }
    }
  }

  function At(s: seq<Node>, i: int): Node? {
    if 0 <= i < |s| then s[i] else null
  }

  ghost predicate Distinct(s: seq<Node>) {
    forall i, j :: 0 <= i < j < |s| ==> s[i] != s[j]
  }

  /** The links of one node, as a value, and the links of a set of nodes. */
  datatype Links = Links(parent: Node?, kids: Node?, prev: Node?, next: Node?, kidSeq: seq<Node>)

  type View = map<Node, Links>

  ghost function LinksOf(n: Node): Links
    reads n`parent, n`kids, n`prev, n`next, n`kidSeq
  {
    Links(n.parent, n.kids, n.prev, n.next, n.kidSeq)
  }

  ghost function ViewOf(U: set<Node>): View
    reads U`parent, U`kids, U`prev, U`next, U`kidSeq
  {
    map n | n in U :: LinksOf(n)
  }

  /** The i-th kid of n names n as its parent and its neighbours in the list as its siblings. */
  ghost predicate KidLinked(V: View, n: Node, i: nat)
    requires n in V && i < |V[n].kidSeq|
  {
    var s := V[n].kidSeq;
    s[i] in V && V[s[i]].parent == n && V[s[i]].prev == At(s, i - 1) && V[s[i]].next == At(s, i + 1)
  }

  /** The kids of n form a doubly linked list. */
  ghost predicate KidsLinked(V: View, n: Node)
    requires n in V
  {
    && V[n].kids == At(V[n].kidSeq, 0)
    && Distinct(V[n].kidSeq)
    && forall i :: 0 <= i < |V[n].kidSeq| ==> KidLinked(V, n, i)
  }

  /** A node with a parent is in the parent's list, and a node without one has no siblings. */
  ghost predicate Listed(V: View, n: Node)
    requires n in V
  {
    if V[n].parent == null then V[n].prev == null && V[n].next == null
    else V[n].parent in V && n in V[V[n].parent].kidSeq
  }

  ghost predicate Linked(V: View) {
    forall n :: n in V ==> KidsLinked(V, n) && Listed(V, n)
  }

  /** Linked but for n, which is in no list. */
  ghost predicate LinkedBut(V: View, n: Node) {
    forall x :: x in V ==> KidsLinked(V, x) && (x != n ==> Listed(V, x)) && n !in V[x].kidSeq
  }

  ghost function Parents(V: View): map<Node, Node> {
    map n | n in V && V[n].parent != null :: V[n].parent
  }

  /** A node is only in the list of its parent. */
  lemma ListOwner(V: View, x: Node, n: Node)
    requires x in V && KidsLinked(V, x) && n in V[x].kidSeq
    ensures n in V && V[n].parent == x
  {
    var i :| 0 <= i < |V[x].kidSeq| && V[x].kidSeq[i] == n;
    assert KidLinked(V, x, i);
  }

  /** The links after the i-th kid of p has been bypassed. */
  ghost function Bypass(V: View, p: Node, i: nat): View
    requires p in V && i < |V[p].kidSeq|
  {
    var s := V[p].kidSeq;
    map x | x in V :: Links(
      V[x].parent,
      if x == p && i == 0 then At(s, 1) else V[x].kids,
      if x == At(s, i + 1) then At(s, i - 1) else V[x].prev,
      if 0 < i && x == s[i - 1] then At(s, i + 1) else V[x].next,
      if x == p then s[..i] + s[i + 1..] else V[x].kidSeq)
  }

  lemma BypassOwn(V: View, p: Node, i: nat)
    requires p in V && KidsLinked(V, p) && i < |V[p].kidSeq|
    ensures KidsLinked(Bypass(V, p, i), p)
  {
    var s, W := V[p].kidSeq, Bypass(V, p, i);
    forall j | 0 <= j < |W[p].kidSeq| ensures KidLinked(W, p, j) {
      if j < i { BypassBefore(V, p, i, j); } else { BypassAfter(V, p, i, j); }
    }
  }

  lemma BypassBefore(V: View, p: Node, i: nat, j: nat)
    requires p in V && KidsLinked(V, p) && j < i < |V[p].kidSeq|
    ensures KidLinked(Bypass(V, p, i), p, j)
  {
    assert KidLinked(V, p, j);
  }

  lemma BypassAfter(V: View, p: Node, i: nat, j: nat)
    requires p in V && KidsLinked(V, p) && i <= j < |V[p].kidSeq| - 1
    ensures KidLinked(Bypass(V, p, i), p, j)
  {
    assert KidLinked(V, p, j + 1);
  }

  lemma BypassOther(V: View, p: Node, i: nat, x: Node)
    requires p in V && KidsLinked(V, p) && i < |V[p].kidSeq|
    requires x in V && KidsLinked(V, x) && x != p
    ensures KidsLinked(Bypass(V, p, i), x)
  {
    var s, W := V[p].kidSeq, Bypass(V, p, i);
    assert i > 0 ==> KidLinked(V, p, i - 1);
    assert i + 1 < |s| ==> KidLinked(V, p, i + 1);
    forall j | 0 <= j < |W[x].kidSeq| ensures KidLinked(W, x, j) {
      assert KidLinked(V, x, j);
    }
  }

  lemma BypassListed(V: View, p: Node, i: nat, x: Node)
    requires p in V && KidsLinked(V, p) && i < |V[p].kidSeq|
    requires x in V && Listed(V, x) && x != V[p].kidSeq[i]
    ensures Listed(Bypass(V, p, i), x)
  {
    var s := V[p].kidSeq;
    assert i > 0 ==> KidLinked(V, p, i - 1);
    assert i + 1 < |s| ==> KidLinked(V, p, i + 1);
    if V[x].parent == p {
      var j :| 0 <= j < |s| && s[j] == x;
      assert (s[..i] + s[i + 1..])[if j < i then j else j - 1] == x;
    }
  }

  lemma BypassLinked(V: View, p: Node, i: nat)
    requires Linked(V) && p in V && i < |V[p].kidSeq|
    ensures LinkedBut(Bypass(V, p, i), V[p].kidSeq[i])
  {
    var n, W := V[p].kidSeq[i], Bypass(V, p, i);
    forall x | x in W ensures KidsLinked(W, x) && (x != n ==> Listed(W, x)) && n !in W[x].kidSeq {
      assert KidsLinked(V, x) && Listed(V, x) && KidsLinked(V, p);
      if x == p { BypassOwn(V, p, i); } else { BypassOther(V, p, i, x); }
      if x != n { BypassListed(V, p, i, x); }
      if n in V[x].kidSeq {
        ListOwner(V, x, n);
        ListOwner(V, p, n);
      }
    }
  }

  ghost predicate IsKid(V: View, p: Node, i: nat, n: Node) {
    p in V && i < |V[p].kidSeq| && V[p].kidSeq[i] == n
  }

  /** The place of n among the kids of its parent. */
  ghost function Place(V: View, n: Node): (i: nat)
    requires Linked(V) && n in V && V[n].parent != null
    ensures V[n].parent in V && IsKid(V, V[n].parent, i, n)
  {
    assert Listed(V, n);
    var i :| 0 <= i < |V[V[n].parent].kidSeq| && V[V[n].parent].kidSeq[i] == n;
    i
  }

  lemma NeighboursOf(V: View, p: Node, i: nat)
    requires Linked(V) && p in V && i < |V[p].kidSeq|
    ensures var s := V[p].kidSeq; var n := s[i];
      && n in V && V[n].prev != n && V[n].next != n && V[n].prev == At(s, i - 1) && V[n].next == At(s, i + 1)
      && (i == 0 <==> V[n].prev == null)
      && (V[n].prev != null ==> V[n].prev in V && V[n].prev != V[n].next)
      && (V[n].next != null ==> V[n].next in V)
  {
    var s := V[p].kidSeq;
    assert KidsLinked(V, p);
    assert KidLinked(V, p, i);
    assert i > 0 ==> KidLinked(V, p, i - 1);
    assert i + 1 < |s| ==> KidLinked(V, p, i + 1);
  }

  /** The heap shows the bypass of n as soon as its neighbours skip it and the ghost list drops it. */
  lemma SeesBypass(V: View, U: set<Node>, p: Node, i: nat)
    requires V.Keys == U && p in U && i < |V[p].kidSeq|
    requires forall x :: x in U ==> x.parent == V[x].parent
    requires forall x :: x in U ==> x.kids == if x == p && i == 0 then At(V[p].kidSeq, 1) else V[x].kids
    requires forall x :: x in U ==> x.next == if x == At(V[p].kidSeq, i - 1) then At(V[p].kidSeq, i + 1) else V[x].next
    requires forall x :: x in U ==> x.prev == if x == At(V[p].kidSeq, i + 1) then At(V[p].kidSeq, i - 1) else V[x].prev
    requires forall x :: x in U ==> x.kidSeq == if x == p then V[p].kidSeq[..i] + V[p].kidSeq[i + 1..] else V[x].kidSeq
    ensures ViewOf(U) == Bypass(V, p, i)
  {
    var W := Bypass(V, p, i);
    forall x | x in U ensures LinksOf(x) == W[x] { }
  }

  /** Takes n out of the list of its parent. */
  method Unlink(n: Node, ghost U: set<Node>)
    requires n in U && Linked(ViewOf(U)) && n.parent != null
    modifies U`kids, U`prev, U`next, U`kidSeq
    ensures ViewOf(U) == Bypass(old(ViewOf(U)), n.parent, Place(old(ViewOf(U)), n))
  {
    ghost var V := ViewOf(U);
    var p := n.parent;
    ghost var i := Place(V, n);
    NeighboursOf(V, p, i);
    n.Skip(U);
    p.kidSeq := p.kidSeq[..i] + p.kidSeq[i + 1..];
    SeesBypass(V, U, p, i);
  }

  /** The links after n has been put in front of the kids of p. */
  ghost function Prepend(V: View, n: Node, p: Node): View
    requires n in V && p in V && n != p
  {
    var s := V[p].kidSeq;
    map x | x in V :: Links(
      if x == n then p else V[x].parent,
      if x == p then n else V[x].kids,
      if x == n then null else if x == V[p].kids then n else V[x].prev,
      if x == n then V[p].kids else V[x].next,
      if x == p then [n] + s else V[x].kidSeq)
  }

  lemma PrependLinked(V: View, n: Node, p: Node)
    requires LinkedBut(V, n) && n in V && p in V && n != p
    ensures Linked(Prepend(V, n, p))
  {
    var W := Prepend(V, n, p);
    assert KidsLinked(V, p) && (V[p].kidSeq != [] ==> KidLinked(V, p, 0));
    forall x | x in W ensures KidsLinked(W, x) && Listed(W, x) {
      assert KidsLinked(V, x) && (x != n ==> Listed(V, x)) && n !in V[x].kidSeq;
      if x == p { PrependOwn(V, n, p); } else { PrependOther(V, n, p, x); }
      if x == n { assert W[p].kidSeq[0] == n; }
    }
  }

  lemma PrependOwn(V: View, n: Node, p: Node)
    requires n in V && p in V && n != p && KidsLinked(V, p) && n !in V[p].kidSeq
    ensures KidsLinked(Prepend(V, n, p), p)
  {
    var s, W := V[p].kidSeq, Prepend(V, n, p);
    forall j | 0 <= j < |W[p].kidSeq| ensures KidLinked(W, p, j) {
      if j > 0 { assert KidLinked(V, p, j - 1); }
    }
  }

  lemma PrependOther(V: View, n: Node, p: Node, x: Node)
    requires n in V && p in V && n != p && KidsLinked(V, p)
    requires x in V && x != p && KidsLinked(V, x) && n !in V[x].kidSeq
    ensures KidsLinked(Prepend(V, n, p), x)
  {
    var W := Prepend(V, n, p);
    assert V[p].kidSeq != [] ==> KidLinked(V, p, 0);
    forall j | 0 <= j < |W[x].kidSeq| ensures KidLinked(W, x, j) {
      assert KidLinked(V, x, j);
    }
  }

  lemma SeesPrepend(V: View, U: set<Node>, n: Node, p: Node)
    requires V.Keys == U && n in U && p in U && n != p
    requires forall x :: x in U ==> x.parent == if x == n then p else V[x].parent
    requires forall x :: x in U ==> x.kids == if x == p then n else V[x].kids
    requires forall x :: x in U ==> x.prev == if x == n then null else if x == V[p].kids then n else V[x].prev
    requires forall x :: x in U ==> x.next == if x == n then V[p].kids else V[x].next
    requires forall x :: x in U ==> x.kidSeq == if x == p then [n] + V[p].kidSeq else V[x].kidSeq
    ensures ViewOf(U) == Prepend(V, n, p)
  {
    var W := Prepend(V, n, p);
    forall x | x in U ensures LinksOf(x) == W[x] { }
  }

  /** Puts n, which is in no list, in front of the kids of p. */
  method Link(n: Node, p: Node, ghost U: set<Node>)
    requires n in U && p in U && n != p && (p.kids != null ==> p.kids in U && p.kids != n)
    modifies U`parent, U`kids, U`prev, U`next, U`kidSeq
    ensures ViewOf(U) == Prepend(old(ViewOf(U)), n, p)
  {
    ghost var V := ViewOf(U);
    n.parent := p;
    n.next := p.kids;
    n.prev := null;
    if n.next != null {
      n.next.prev := n;
    }
    p.kids := n;
    p.kidSeq := [n] + p.kidSeq;
    SeesPrepend(V, U, n, p);
  }

  lemma NotListed(V: View, n: Node)
    requires Linked(V) && n in V && V[n].parent == null
    ensures LinkedBut(V, n)
  {
    forall x | x in V ensures KidsLinked(V, x) && Listed(V, x) && n !in V[x].kidSeq {
      if n in V[x].kidSeq { ListOwner(V, x, n); }
    }
  }

  /** The links after n, which is in no list, has lost its parent. */
  ghost function Orphan(V: View, n: Node): View
    requires n in V
  {
    V[n := V[n].(parent := null, prev := null, next := null)]
  }

  lemma OrphanLinked(V: View, n: Node)
    requires n in V && LinkedBut(V, n)
    ensures Linked(Orphan(V, n))
  {
    var W := Orphan(V, n);
    forall x | x in W ensures KidsLinked(W, x) && Listed(W, x) {
      assert KidsLinked(V, x) && n !in V[x].kidSeq;
      forall j | 0 <= j < |W[x].kidSeq| ensures KidLinked(W, x, j) { assert KidLinked(V, x, j); }
    }
  }

  lemma FirstKid(V: View, n: Node, p: Node)
    requires p in V && LinkedBut(V, n)
    ensures V[p].kids != null ==> V[p].kids in V && V[p].kids != n
  {
    assert KidsLinked(V, p) && n !in V[p].kidSeq;
    assert V[p].kidSeq != [] ==> KidLinked(V, p, 0);
  }

  /** Clears the links that n, which is in no list, has to a parent and siblings. */
  method Drop(n: Node, ghost U: set<Node>)
    requires n in U
    modifies U`parent, U`prev, U`next
    ensures ViewOf(U) == Orphan(old(ViewOf(U)), n)
  {
    ghost var W := Orphan(ViewOf(U), n);
    n.parent := null;
    n.next := null;
    n.prev := null;
    assert forall x :: x in U ==> LinksOf(x) == W[x];
  }

  /** The links after n has been taken out of the list of its parent, if it has one. */
  ghost function Detach(V: View, n: Node): View
    requires Linked(V) && n in V
  {
    if V[n].parent == null then V else Bypass(V, V[n].parent, Place(V, n))
  }

  /** The links after n has been moved to the front of the kids of p, or out of the tree. */
  ghost function Reparent(V: View, n: Node, p: Node?): View
    requires Linked(V) && n in V && n != p && (p != null ==> p in V)
  {
    if V[n].parent == p then V
    else if p == null then Orphan(Detach(V, n), n)
    else Prepend(Detach(V, n), n, p)
  }

  lemma DetachLinked(V: View, n: Node)
    requires Linked(V) && n in V
    ensures LinkedBut(Detach(V, n), n) && Detach(V, n).Keys == V.Keys
  {
    if V[n].parent == null { NotListed(V, n); } else { BypassLinked(V, V[n].parent, Place(V, n)); }
  }

  /** Moving a node keeps all lists well formed. */
  lemma ReparentLinked(V: View, n: Node, p: Node?)
    requires Linked(V) && n in V && n != p && (p != null ==> p in V)
    ensures Linked(Reparent(V, n, p)) && Reparent(V, n, p).Keys == V.Keys
  {
    DetachLinked(V, n);
    if p == null { OrphanLinked(Detach(V, n), n); } else { PrependLinked(Detach(V, n), n, p); }
  }

  /** What a move does to the parents. */
  lemma ReparentParents(V: View, n: Node, p: Node?)
    requires Linked(V) && n in V && n != p && (p != null ==> p in V)
    ensures Parents(Reparent(V, n, p)) == if p == null then Parents(V) - {n} else Parents(V)[n := p]
  {
    DetachLinked(V, n);
    var W := Reparent(V, n, p);
    forall x | x in V ensures x in W && W[x].parent == if x == n then p else V[x].parent { }
    ParentsMoved(V, W, n, p);
  }

  lemma ParentsMoved(V: View, W: View, n: Node, p: Node?)
    requires n in V && W.Keys == V.Keys
    requires forall x :: x in V ==> W[x].parent == if x == n then p else V[x].parent
    ensures Parents(W) == if p == null then Parents(V) - {n} else Parents(V)[n := p]
  {
  }

  ghost function Without(s: seq<Node>, n: Node): seq<Node> {
    if s == [] then [] else if s[0] == n then s[1..] else [s[0]] + Without(s[1..], n)
  }

  lemma {:induction false} WithoutAt(s: seq<Node>, i: nat)
    requires Distinct(s) && i < |s|
    ensures Without(s, s[i]) == s[..i] + s[i + 1..]
  {
    if i > 0 {
      assert s[1..][i - 1] == s[i];
      WithoutAt(s[1..], i - 1);
    }
  }

  /** From V to W the node n has moved to the front of the kids of p, or out of the tree, and
      nothing else has: all lists are well formed again and every other node keeps its parent. */
  ghost predicate Moved(V: View, W: View, n: Node, p: Node?) {
    && n in V && n != p && (p != null ==> p in V)
    && W.Keys == V.Keys && Linked(W)
    && Parents(W) == (if p == null then Parents(V) - {n} else Parents(V)[n := p])
    && W[n].parent == p && (V[n].parent == p ==> W == V)
    && forall x :: x in V ==>
      && (x != n ==> W[x].parent == V[x].parent)
      && W[x].kidSeq == (if V[n].parent == p then V[x].kidSeq
                         else if x == p then [n] + V[x].kidSeq
                         else if x == V[n].parent then Without(V[x].kidSeq, n)
                         else V[x].kidSeq)
  }

  lemma DetachLists(V: View, n: Node, x: Node)
    requires Linked(V) && n in V && x in V
    ensures Detach(V, n)[x].kidSeq == if x == V[n].parent then Without(V[x].kidSeq, n) else V[x].kidSeq
    ensures Detach(V, n)[x].parent == V[x].parent
  {
    if V[n].parent != null {
      assert KidsLinked(V, V[n].parent);
      WithoutAt(V[V[n].parent].kidSeq, Place(V, n));
    }
  }

  lemma ReparentLists(V: View, n: Node, p: Node?, x: Node)
    requires Linked(V) && n in V && n != p && (p != null ==> p in V) && x in V
    ensures var W := Reparent(V, n, p);
      && x in W
      && W[x].parent == (if x == n then p else V[x].parent)
      && W[x].kidSeq == (if V[n].parent == p then V[x].kidSeq
                         else if x == p then [n] + V[x].kidSeq
                         else if x == V[n].parent then Without(V[x].kidSeq, n)
                         else V[x].kidSeq)
  {
    DetachLinked(V, n);
    DetachLists(V, n, x);
  }

  lemma ReparentMoved(V: View, n: Node, p: Node?)
    requires Linked(V) && n in V && n != p && (p != null ==> p in V)
    ensures Moved(V, Reparent(V, n, p), n, p)
  {
    ReparentLinked(V, n, p);
    ReparentParents(V, n, p);
    forall x | x in V { ReparentLists(V, n, p, x); }
  }

  /** Moves n from the list of its parent to the front of the list of another, or out of the tree.
      Making a node its own parent is a panic. */
  method SetParent(n: Node, parent: Node?, ghost U: set<Node>)
    requires n in U && (parent != null ==> parent in U) && Linked(ViewOf(U)) && n != parent
    modifies U`parent, U`kids, U`prev, U`next, U`kidSeq
    ensures Moved(old(ViewOf(U)), ViewOf(U), n, parent)
  {
    ghost var V := ViewOf(U);
    ReparentMoved(V, n, parent);
    if n.parent == parent {
      return;
    }
    DetachLinked(V, n);
    if n.parent != null {
      Unlink(n, U);
    }
    if parent == null {
      Drop(n, U);
    } else {
      FirstKid(ViewOf(U), n, parent);
      Link(n, parent, U);
    }
  }
}
