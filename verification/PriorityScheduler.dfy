/** The priority write scheduler: opening, closing and reprioritizing streams. */
module PriorityScheduling {
  import opened GoInt
  import opened Forest
  import opened FlowControl
  import opened WriteQueues
  import opened PriorityNodes
  import opened PriorityTrees
  import opened PriorityWalks

  const DEFAULT_WEIGHT: nat := 15

  ghost function MappedIn(nodes: map<nat, Node>, U: set<Node>): (M: set<Node>)
    ensures M <= U
  {
    set x | x in U && x.id in nodes && nodes[x.id] == x
  }

  /** There is nothing to remove, or its removal moves all its kids. */
  ghost predicate AtMostOneKid(v: Node?)
    reads (if v == null then {} else {v})`kidSeq
  {
    v != null ==> |v.kidSeq| <= 1
  }

  /** No node of the list has lost its id to another node. */
  ghost predicate KeepIds(list: seq<Node>, nodes: map<nat, Node>) {
    forall x :: x in list ==> x.id in nodes ==> nodes[x.id] == x
  }

  lemma KeepIdsFewer(list: seq<Node>, nodes: map<nat, Node>, id: nat)
    requires KeepIds(list, nodes)
    ensures KeepIds(list, nodes - {id})
  {
  }

  lemma KeepIdsRotate(list: seq<Node>, r: seq<Node>, nodes: map<nat, Node>, n: Node)
    requires KeepIds(list, nodes) && (n.id in nodes ==> nodes[n.id] == n)
    requires forall x :: x in r ==> x in list || x == n
    ensures KeepIds(r, nodes)
  {
  }

  lemma KeepIdsMore(list: seq<Node>, nodes: map<nat, Node>, n: Node)
    requires KeepIds(list, nodes) && forall x :: x in list ==> x.id != n.id
    ensures KeepIds(list, nodes[n.id := n])
  {
  }

  /** A new node with the id of a retained one takes it away. */
  lemma KeepIdsClash(closed: seq<Node>, idle: seq<Node>, nodes: map<nat, Node>, U: set<Node>, n: Node, V: set<Node>)
    requires n.id in nodes && nodes[n.id] == n && n !in V
    requires forall x :: x in closed + idle ==> x in V
    requires exists x :: x in closed + idle && x.id == n.id
    ensures !KeepIds(closed, nodes) || !KeepIds(idle, nodes)
  {
  }

  lemma MappedRemove(nodes: map<nat, Node>, U: set<Node>, n: Node)
    requires n.id in nodes ==> nodes[n.id] == n
    ensures MappedIn(nodes - {n.id}, U) == MappedIn(nodes, U) - {n}
  {
  }

  ghost predicate IndexOf(nodes: map<nat, Node>, U: set<Node>, maxID: nat, closed: seq<Node>, idle: seq<Node>, root: Node) {
    && root in U && root.id == 0
    && 0 in nodes && nodes[0] == root
    && (forall i :: i in nodes ==> nodes[i] in U && nodes[i].id == i)
    && (forall x :: x in U ==> x.id <= maxID && (x.id == 0 <==> x == root))
    && (forall x :: x in closed ==> x in U && x != root)
    && (forall x :: x in idle ==> x in U && x != root)
  }

  lemma IndexMore(nodes: map<nat, Node>, U: set<Node>, maxID: nat, closed: seq<Node>, idle: seq<Node>, root: Node, n: Node)
    requires IndexOf(nodes, U, maxID, closed, idle, root) && n.id !in nodes
    ensures IndexOf(nodes[n.id := n], U + {n}, Max(maxID, n.id), closed, idle, root)
    ensures n.id > 0 && Max(maxID, n.id) == if n.id > maxID then n.id else maxID
  {
  }

  lemma IndexIdle(nodes: map<nat, Node>, U: set<Node>, maxID: nat, closed: seq<Node>, idle: seq<Node>, root: Node, r: seq<Node>)
    requires IndexOf(nodes, U, maxID, closed, idle, root) && forall x :: x in r ==> x in U && x != root
    ensures IndexOf(nodes, U, maxID, closed, r, root)
  {
  }

  class PriorityWriteScheduler {
    const root: Node
    var nodes: map<nat, Node>
    var maxID: nat
    var closedNodes: seq<Node>
    var idleNodes: seq<Node>
    const maxClosedNodesInTree: int
    const maxIdleNodesInTree: int
    var writeThrottleLimit: Int32
    const enableWriteThrottle: bool

    /** Every node ever created. */
    ghost var U: set<Node>

    /** The nodes found under their own id. */
    ghost function Mapped(): set<Node>
      reads this`nodes, this`U
    {
      MappedIn(nodes, U)
    }

    /** The index names nodes by their own id, and stream 0 is the root. */
    ghost predicate Index()
      reads this`nodes, this`U, this`maxID, this`closedNodes, this`idleNodes
    {
      IndexOf(nodes, U, maxID, closedNodes, idleNodes, root)
    }

    /** What holds in every run: a consistent index, well-formed sibling lists and finite chains. */
    ghost predicate Shape()
      reads this`nodes, this`U, this`maxID, this`closedNodes, this`idleNodes
      reads U`parent, U`kids, U`prev, U`next, U`kidSeq
    {
      Index() && root.parent == null && Forested(U)
    }

    /** The index agrees with the tree: the mapped nodes are exactly the nodes of a tree rooted at
        stream 0, and no retained node has lost its id to another stream. */
    ghost predicate Tree()
      reads this`nodes, this`U, this`maxID, this`closedNodes, this`idleNodes
      reads U`parent, U`kids, U`prev, U`next, U`kidSeq
    {
      IsTree(ViewOf(U), root, Mapped()) && KeepIds(closedNodes, nodes) && KeepIds(idleNodes, nodes)
    }

    /** The queues can be served. */
    ghost predicate Prepared(FS: set<Flow>, CS: set<Conn>)
      reads this`U, this`writeThrottleLimit, set x | x in U :: x.q
    {
      Queues(U, FS, CS) && 0 < writeThrottleLimit
    }

    constructor (maxClosed: int, maxIdle: int, throttle: bool, ghost FS: set<Flow>, ghost CS: set<Conn>)
      ensures Shape() && Tree() && Prepared(FS, CS) && fresh(root.q)
      ensures fresh(U) && U == {root} && root.state == Open && nodes == map[0 := root] && maxID == 0 && closedNodes == [] && idleNodes == []
      ensures maxClosedNodesInTree == maxClosed && maxIdleNodesInTree == maxIdle && enableWriteThrottle == throttle
    {
      hide Shape, Tree, Prepared, Queues, WriteQueue.Valid;
      var r := new Node(0, 0, Open);
      root := r;
      nodes := map[0 := r];
      maxID := 0;
      closedNodes, idleNodes := [], [];
      maxClosedNodesInTree, maxIdleNodesInTree := maxClosed, maxIdle;
      enableWriteThrottle := throttle;
      writeThrottleLimit := if throttle then 1024 else MAX_INT32;
      U := {r};
      new;
      OnlyRoot(FS, CS);
    }

    lemma OnlyRoot(FS: set<Flow>, CS: set<Conn>)
      requires U == {root} && nodes == map[0 := root] && maxID == 0 && closedNodes == [] && idleNodes == [] && 0 < writeThrottleLimit
      requires root.id == 0 && LinksOf(root) == LOOSE && root.q.Valid() && root.q.s == []
      ensures Shape() && Tree() && Prepared(FS, CS)
    {
      hide Linked, Acyclic, IsTree;
      LoneRoot(ViewOf(U), root);
      assert Mapped() == {root};
    }

    /** removeNode: its kids should move to its parent, but only the first one does. So what is left
        is a tree exactly when the node had at most one kid. */
    method RemoveNode(n: Node)
      requires Shape() && n in U && n != root
      modifies this`nodes, U`parent, U`kids, U`prev, U`next, U`kidSeq
      ensures Shape() && nodes == old(nodes) - {n.id}
      ensures old(IsTree(ViewOf(U), root, Mapped())) && old(KeepsIdIn(nodes, n)) ==>
        (IsTree(ViewOf(U), root, Mapped()) <==> |old(n.kidSeq)| <= 1)
      ensures |old(n.kidSeq)| > 1 ==> Stranded(n, old(n.kidSeq)[1], U) && old(n.kidSeq[1].parent) == n
      ensures forall x :: x in U ==> x.parent == old(x.parent) || x.parent == null || x.parent == old(n.parent)
    {
      hide Linked, Acyclic, IsTree, MappedIn;
      if KeepsIdIn(nodes, n) { MappedRemove(nodes, U, n); }
      Extract(n, U, root, Mapped());
      nodes := nodes - {n.id};
    }

    /** addClosedOrIdleNode: retains n, evicting the oldest node when the list is full. */
    method AddClosedOrIdleNode(list: seq<Node>, maxSize: int, n: Node) returns (r: seq<Node>)
      requires Shape() && n in U && n != root
      requires forall x :: x in list ==> x in U && x != root
      modifies this`nodes, U`parent, U`kids, U`prev, U`next, U`kidSeq
      ensures Shape() && (forall x :: x in r ==> x in list || x == n)
      ensures r == (if maxSize == 0 then list else (if Victim(list, maxSize) == null then list else list[1..]) + [n])
      ensures var v := Victim(list, maxSize);
        if v == null then
          && nodes == old(nodes) && (forall x :: x in U ==> x.parent == old(x.parent) && x.kidSeq == old(x.kidSeq))
          && (IsTree(ViewOf(U), root, Mapped()) <==> old(IsTree(ViewOf(U), root, Mapped())))
        else
          && nodes == old(nodes) - {v.id}
          && (old(IsTree(ViewOf(U), root, Mapped())) && old(KeepsIdIn(nodes, v)) ==>
               (IsTree(ViewOf(U), root, Mapped()) <==> |old(v.kidSeq)| <= 1))
          && (|old(v.kidSeq)| > 1 ==> Stranded(v, old(v.kidSeq)[1], U) && old(v.kidSeq[1].parent) == v)
          && forall x :: x in U ==> x.parent == old(x.parent) || x.parent == null || x.parent == old(v.parent)
    {
      hide Shape, Index, Forested, Mapped, IsTree, ViewOf, LinksOf, Stranded;
      r := list;
      if maxSize == 0 {
        return;
      }
      if |list| == maxSize {
        RemoveNode(list[0]);
        r := list[1..];
      }
      r := r + [n];
    }

    ghost function Victim(list: seq<Node>, maxSize: int): Node? {
      if maxSize != 0 && |list| == maxSize then list[0] else null
    }

    /** The list once n has been remembered. */
    ghost function Remembered(list: seq<Node>, maxSize: int, n: Node): seq<Node> {
      (if Victim(list, maxSize) == null then list else list[1..]) + [n]
    }

    /** The index once v, if there is one, has been removed. */
    ghost function Without(nodes: map<nat, Node>, v: Node?): map<nat, Node> {
      if v == null then nodes else nodes - {v.id}
    }

    lemma RetentionIs(list: seq<Node>, index: map<nat, Node>, n: Node, v: Node?)
      requires v == Victim(list, maxIdleNodesInTree)
      ensures Without(index, v) == (if v == null then index else index - {v.id})
      ensures Remembered(list, maxIdleNodesInTree, n) == (if v == null then list else list[1..]) + [n]
    {
    }

    lemma MaxIs(id: nat)
      ensures Max(maxID, id) == if id > maxID then id else maxID
      ensures Shape() && id in nodes ==> id <= maxID
    {
    }

    /** Creates a node for a new stream below p and enters it in the index. */
    method NewNode(id: nat, state: NodeState, p: Node) returns (n: Node)
      requires Shape() && id !in nodes && id > 0 && p in U
      modifies this`nodes, this`U, this`maxID, U`parent, U`kids, U`prev, U`next, U`kidSeq
      ensures Shape() && fresh(n) && fresh(n.q) && n.q.Valid() && n.q.s == [] && U == old(U) + {n}
      ensures n.id == id && n.state == state && n.weight == DEFAULT_WEIGHT
      ensures n.kidSeq == [] && n.parent == p && ParentsOf(U) == old(ParentsOf(U))[n := p]
      ensures nodes == old(nodes)[id := n] && maxID == if id > old(maxID) then id else old(maxID)
      ensures forall x :: x in old(U) ==> x.parent == old(x.parent) && x.kidSeq == if x == p then [n] + old(x.kidSeq) else old(x.kidSeq)
      ensures old(IsTree(ViewOf(U), root, Mapped())) && old(p in Mapped()) ==> IsTree(ViewOf(U), root, Mapped())
    {
      hide *;
      ShapeParts();
      ghost var M, V, W := Mapped(), ViewOf(U), U;
      SeesParents(U);
      n := Sprout(id, DEFAULT_WEIGHT, state, p, U, root, M);
      MappedAdd(nodes, U, n);
      IndexMore(nodes, U, maxID, closedNodes, idleNodes, root, n);
      HangsBelow(V, W, n, p);
      nodes := nodes[id := n];
      U := U + {n};
      if id > maxID {
        maxID := id;
      }
      ShapeParts();
    }

    lemma ShapeParts()
      ensures Shape() <==> IndexOf(nodes, U, maxID, closedNodes, idleNodes, root) && root.parent == null && Forested(U)
      ensures IndexOf(nodes, U, maxID, closedNodes, idleNodes, root) ==> root in U && Mapped() <= U
      ensures Mapped() == MappedIn(nodes, U)
    {
    }

    /** No retained node had this id: the stream is not one that was closed before. */
    ghost predicate Unclaimed(streamID: nat)
      reads this`closedNodes, this`idleNodes
    {
      forall x :: x in closedNodes + idleNodes ==> x.id != streamID
    }

    /** Opening a stream that is already open makes the scheduler panic. A node made while the stream
        was idle is reused, and stays in the list of idle nodes. */
    method OpenStream(streamID: nat, pusherID: nat, ghost FS: set<Flow>, ghost CS: set<Conn>) returns (ghost n: Node)
      requires Shape() && Prepared(FS, CS) && (streamID in nodes ==> nodes[streamID].state == Idle) && streamID > 0
      modifies this`nodes, this`U, this`maxID, U`state, U`parent, U`kids, U`prev, U`next, U`kidSeq
      ensures Shape() && Prepared(FS, CS) && n in U && n.id == streamID && n.state == Open && nodes == old(nodes)[streamID := n]
      ensures forall x :: x in old(U) && x != n ==> x.state == old(x.state)
      ensures streamID in old(nodes) ==> n == old(nodes)[streamID] && U == old(U) && ParentsOf(U) == old(ParentsOf(U))
      ensures streamID !in old(nodes) ==>
        && fresh(n) && fresh(n.q) && n.q.Valid() && n.q.s == [] && U == old(U) + {n}
        && n.parent == old(Target(pusherID)) && n.kidSeq == []
        && old(Target(pusherID)).kidSeq == [n] + old(Target(pusherID).kidSeq)
      ensures maxID == Max(old(maxID), streamID)
      ensures old(IsTree(ViewOf(U), root, Mapped())) ==> IsTree(ViewOf(U), root, Mapped())
      ensures old(Tree()) ==> (Tree() <==> streamID in old(nodes) || Unclaimed(streamID))
    {
      hide *;
      ShapeParts();
      MaxIs(streamID);
      if streamID in nodes {
        ShapeAt(streamID);
        n := nodes[streamID];
        SameIndex(streamID);
        nodes[streamID].state := Open;
        return;
      }
      TargetFacts(pusherID);
      TreeParts();
      PreparedIs(FS, CS);
      ListsIn();
      var parent := if pusherID in nodes then nodes[pusherID] else root;
      ghost var before, V := nodes, U;
      var m := NewNode(streamID, Open, parent);
      QueuesMore(V, m, FS, CS);
      n := m;
      if Unclaimed(streamID) {
        UnclaimedIs(streamID);
        if KeepIds(closedNodes, before) && KeepIds(idleNodes, before) {
          KeepIdsMore(closedNodes, before, m);
          KeepIdsMore(idleNodes, before, m);
        }
      } else {
        UnclaimedIs(streamID);
        KeepIdsClash(closedNodes, idleNodes, nodes, U, m, V);
      }
      ShapeParts();
      TreeParts();
      PreparedIs(FS, CS);
    }

    lemma SameIndex(id: nat)
      requires id in nodes
      ensures nodes[id := nodes[id]] == nodes
    {
    }

    lemma ListsIn()
      requires Shape()
      ensures (forall x :: x in closedNodes + idleNodes ==> x in U) && forall x :: x in U ==> x.id <= maxID
    {
    }

    lemma UnclaimedIs(id: nat)
      ensures Unclaimed(id) <==> forall x :: x in closedNodes + idleNodes ==> x.id != id
      ensures Unclaimed(id) ==> (forall x :: x in closedNodes ==> x.id != id) && forall x :: x in idleNodes ==> x.id != id
    {
      assert forall x :: x in closedNodes || x in idleNodes ==> x in closedNodes + idleNodes;
    }

    /** Closing stream 0, an unknown stream or a stream that is not open makes the scheduler panic. */
    method CloseStream(streamID: nat, ghost FS: set<Flow>, ghost CS: set<Conn>) returns (ghost closed: Node)
      requires Shape() && Prepared(FS, CS) && streamID > 0 && streamID in nodes && nodes[streamID].state == Open
      modifies this`nodes, this`closedNodes, U`state, U`bytes, nodes[streamID].q
      modifies U`subtreeBytes, U`parent, U`kids, U`prev, U`next, U`kidSeq
      ensures closed == old(nodes[streamID]) && closed.state == Closed && closed.bytes == 0 && closed.q.Valid() && closed.q.s == []
      ensures forall x :: x in U && x != closed ==> x.state == old(x.state) && x.bytes == old(x.bytes)
      ensures Shape() && Prepared(FS, CS)
      ensures var v := Evicted(old(closedNodes), closed);
        if v == null then nodes == old(nodes) && (forall x :: x in U ==> x.parent == old(x.parent) && x.kidSeq == old(x.kidSeq)) else nodes == old(nodes) - {v.id}
      ensures closedNodes == Retained(old(closedNodes), maxClosedNodesInTree, closed)
      ensures old(Tree()) ==> (Tree() <==> old(AtMostOneKid(Evicted(closedNodes, nodes[streamID]))))
    {
      hide *;
      ShapeAt(streamID);
      closed := nodes[streamID];
      var n := nodes[streamID];
      Silence(n, FS, CS);
      Discard(n);
    }

    /** The part of closing that leaves the tree alone. */
    method Silence(n: Node, ghost FS: set<Flow>, ghost CS: set<Conn>)
      requires Shape() && Prepared(FS, CS) && n in Mapped()
      modifies n`state, n`bytes, n.q, U`subtreeBytes
      ensures n.state == Closed && n.bytes == 0 && n.q.Valid() && n.q.s == []
      ensures Shape() && Prepared(FS, CS) && Tree() == old(Tree())
      ensures AtMostOneKid(Evicted(closedNodes, n)) == old(AtMostOneKid(Evicted(closedNodes, n)))
    {
      hide *;
      MappedAt(n);
      PreparedIs(FS, CS);
      ghost var S := SnapOf(U);
      QueueStates(U, n, FS, CS);
      EvictedIs(n);
      Retire(n, U);
      QueuesCleared(U, n, FS, CS, S);
      PreparedIs(FS, CS);
    }

    lemma EvictedIs(n: Node)
      ensures Evicted(closedNodes, n) == null || Evicted(closedNodes, n) == n || Evicted(closedNodes, n) in closedNodes
    {
    }

    lemma MappedAt(n: Node)
      requires Shape() && n in Mapped()
      ensures n in U && n.id in nodes && nodes[n.id] == n
      ensures Forested(U) && Index() && root.parent == null && ParentsOf(U) == Parents(ViewOf(U))
      ensures ViewOf(U)[root].parent == null && ViewOf(U).Keys == U && Acyclic(Parents(ViewOf(U)), U)
    {
    }

    lemma ShapeAt(id: nat)
      requires Shape() && id in nodes
      ensures nodes[id] in U && nodes[id] in Mapped() && nodes[id].id == id && (id > 0 ==> nodes[id] != root) && Forested(U)
    {
    }

    /** Retains a closed node, or removes it when closed nodes are not kept. */
    method Discard(n: Node)
      requires Shape() && n in Mapped() && n != root
      modifies this`nodes, this`closedNodes, U`parent, U`kids, U`prev, U`next, U`kidSeq
      ensures Shape()
      ensures var v := Evicted(old(closedNodes), n);
        if v == null then nodes == old(nodes) && (forall x :: x in U ==> x.parent == old(x.parent) && x.kidSeq == old(x.kidSeq)) else nodes == old(nodes) - {v.id}
      ensures closedNodes == Retained(old(closedNodes), maxClosedNodesInTree, n)
      ensures old(Tree()) ==> (Tree() <==> old(AtMostOneKid(Evicted(closedNodes, n))))
    {
      hide Forested, IsTree, KeepIds, ViewOf, LinksOf, ParentsOf, MappedIn;
      MappedFacts(nodes, U, n);
      ghost var v := Evicted(closedNodes, n);
      if KeepIds(closedNodes, nodes) && KeepIds(idleNodes, nodes) && v != null {
        KeepIdsHas(closedNodes, nodes, v);
        KeepIdsFewer(closedNodes, nodes, v.id);
        KeepIdsFewer(idleNodes, nodes, v.id);
      }
      if maxClosedNodesInTree > 0 {
        closedNodes := AddClosedOrIdleNode(closedNodes, maxClosedNodesInTree, n);
        if KeepIds(old(closedNodes), nodes) { KeepIdsRotate(old(closedNodes), closedNodes, nodes, n); }
      } else {
        RemoveNode(n);
      }
    }

    /** The list once n has been retained, when that many nodes are. */
    ghost function Retained(list: seq<Node>, maxSize: int, n: Node): seq<Node> {
      if maxSize <= 0 then list else (if Victim(list, maxSize) == null then list else list[1..]) + [n]
    }

    ghost function Evicted(closed: seq<Node>, n: Node): Node? {
      if maxClosedNodesInTree > 0 then Victim(closed, maxClosedNodesInTree) else n
    }
  
    /** Where a stream goes when it is made to depend on dep: below that stream, or below the root
        when the scheduler does not know it. */
    ghost function Target(dep: nat): Node
      reads this`nodes
    {
      if dep in nodes then nodes[dep] else root
    }

    /** The second half of AdjustStream. */
    method Prioritize(n: Node, dep: nat, exclusive: bool, weight: nat)
      requires Shape() && n in Mapped() && n != root
      modifies U`parent, U`kids, U`prev, U`next, U`kidSeq, n`weight
      ensures Shape()
      ensures var p := Target(dep);
        if n == p then ParentsOf(U) == old(ParentsOf(U)) && n.weight == old(n.weight)
        else
          && ParentsOf(U) == Adjusted(old(ParentsOf(U)), n, p, exclusive && dep in nodes)
          && n.weight == if dep in nodes then weight else DEFAULT_WEIGHT
      ensures old(Tree()) ==> Tree()
    {
      hide *;
      MappedAt(n);
      TargetFacts(dep);
      TreeParts();
      ghost var V := ViewOf(U);
      var parent := if dep in nodes then nodes[dep] else root;
      if n == parent {
        return;
      }
      if dep !in nodes {
        DependOnRoot(n, root, U);
        n.weight := DEFAULT_WEIGHT;
      } else {
        Depend(n, parent, exclusive, U);
        n.weight := weight;
      }
      AdjustedShape(V, n, parent, exclusive && dep in nodes);
      TreeParts();
    }

    lemma TreeParts()
      ensures Shape() <==> Index() && root.parent == null && Forested(U)
      ensures Tree() <==> IsTree(ViewOf(U), root, Mapped()) && KeepIds(closedNodes, nodes) && KeepIds(idleNodes, nodes)
    {
    }

    /** After a change of dependency the root is still the root, and a tree is still a tree. */
    lemma AdjustedShape(V: View, n: Node, p: Node, exclusive: bool)
      requires Index() && V.Keys == U && V[root].parent == null && Acyclic(Parents(V), U)
      requires n in Mapped() && p in Mapped() && n != root && n != p
      requires ParentsOf(U) == Adjusted(Parents(V), n, p, exclusive)
      ensures root.parent == null
      ensures IsTree(V, root, Mapped()) ==> IsTree(ViewOf(U), root, Mapped())
    {
      AdjustedTop(V, ViewOf(U), U, root, n, p, exclusive);
      if IsTree(V, root, Mapped()) { AdjustedTree(V, ViewOf(U), U, root, Mapped(), n, p, exclusive); }
    }

    lemma TargetFacts(dep: nat)
      requires Shape()
      ensures Target(dep) in U && Target(dep) in Mapped() && (dep in nodes ==> Target(dep) == nodes[dep])
      ensures dep !in nodes ==> Target(dep) == root
      ensures root in U && root.parent == null && Forested(U)
    {
    }
  
    /** k is known to the index but hangs from a node that is neither known nor attached. */
    ghost predicate Lost(v: Node, k: Node)
      reads this, v`parent, k`parent
    {
      Stranded(v, k, U) && v != root && v !in Mapped() && k in Mapped()
    }

    lemma LostBreaksTree(v: Node, k: Node)
      requires Shape() && Lost(v, k)
      ensures !Tree() && k != root
    {
      OrphanBreaksTree(ViewOf(U), root, Mapped(), v, k);
    }

    /** Retains an idle node, which may evict the oldest idle node. If that one had several kids, the
        second of them is lost. */
    method RetainIdle(n: Node)
      requires Shape() && n in Mapped() && n != root && maxIdleNodesInTree != 0
      modifies this`nodes, this`idleNodes, U`parent, U`kids, U`prev, U`next, U`kidSeq
      ensures Shape()
      ensures nodes == Without(old(nodes), Victim(old(idleNodes), maxIdleNodesInTree)) && idleNodes == Remembered(old(idleNodes), maxIdleNodesInTree, n)
      ensures Victim(old(idleNodes), maxIdleNodesInTree) == null ==> ParentsOf(U) == old(ParentsOf(U))
      ensures var v := Victim(old(idleNodes), maxIdleNodesInTree);
        old(Tree()) && v != null && |old(v.kidSeq)| > 1 ==> v in U && KeepsIdIn(old(nodes), v) && Lost(v, old(v.kidSeq)[1])
      ensures var v := Victim(old(idleNodes), maxIdleNodesInTree);
        forall x :: x in U ==> x.parent == old(x.parent) || x.parent == null || (v != null && x.parent == old(v.parent))
      ensures old(Tree()) ==> (Tree() <==> old(AtMostOneKid(Victim(idleNodes, maxIdleNodesInTree))))
    {
      hide *;
      ghost var v, V, B, I := Victim(idleNodes, maxIdleNodesInTree), ViewOf(U), nodes, idleNodes;
      ghost var k := SecondKid(v);
      BeforeRetain(n, v, k);
      RetentionIs(I, B, n, v);
      var r := AddClosedOrIdleNode(idleNodes, maxIdleNodesInTree, n);
      ShapeParts();
      IndexIdle(nodes, U, maxID, closedNodes, idleNodes, root, r);
      idleNodes := r;
      if KeepIds(I, nodes) { KeepIdsRotate(I, idleNodes, nodes, n); }
      if v == null {
        NobodyMoved(V, U);
      } else if KeepsIdIn(B, v) {
        MappedRemoved(B, U, v, k);
        if k != null && k != v && k in MappedIn(B, U) { LostIs(v, k); }
      }
      ShapeParts();
      TreeParts();
    }

    lemma BeforeRetain(n: Node, v: Node?, k: Node?)
      requires Shape() && n in Mapped() && v == Victim(idleNodes, maxIdleNodesInTree) && k == SecondKid(v)
      ensures n in U && n.id in nodes && nodes[n.id] == n && (v != null ==> n.id in nodes - {v.id} ==> nodes[n.id] == n)
      ensures (forall x :: x in idleNodes ==> x in U && x != root) && (v != null ==> v in U && v != root && v in idleNodes)
      ensures ViewOf(U).Keys == U && ParentsOf(U) == Parents(ViewOf(U)) && forall x :: x in U ==> ViewOf(U)[x].parent == x.parent
      ensures (AtMostOneKid(v) <==> k == null) && (v == null ==> k == null)
      ensures v != null ==> if k == null then |v.kidSeq| <= 1 else |v.kidSeq| > 1 && k == v.kidSeq[1]
      ensures Mapped() == MappedIn(nodes, U)
      ensures Tree() ==> IsTree(ViewOf(U), root, Mapped()) && KeepIds(closedNodes, nodes) && KeepIds(idleNodes, nodes)
      ensures Tree() && v != null ==> KeepsIdIn(nodes, v) && KeepIds(closedNodes, nodes - {v.id}) && KeepIds(idleNodes, nodes - {v.id})
      ensures Tree() && k != null ==> k in Mapped() && k != v
    {
      hide Linked, Acyclic, IsTree;
      if Tree() && k != null { TreeKid(v, k); }
    }

    lemma LostIs(v: Node, k: Node)
      requires Stranded(v, k, U) && v != root && v !in MappedIn(nodes, U) && k in MappedIn(nodes, U)
      ensures Lost(v, k)
    {
    }

    /** AdjustStream. Adjusting stream 0 makes the scheduler panic. */
    method AdjustStream(streamID: nat, dep: nat, exclusive: bool, weight: nat, ghost FS: set<Flow>, ghost CS: set<Conn>) returns (ghost P: map<Node, Node>)
      requires Shape() && Prepared(FS, CS) && streamID > 0
      modifies this`nodes, this`U, this`maxID, this`idleNodes, U`parent, U`kids, U`prev, U`next, U`kidSeq, U`weight
      ensures Shape() && Prepared(FS, CS) && U >= old(U) && fresh(U - old(U)) && forall x :: x in U && x !in old(U) ==> fresh(x.q)
      ensures old(Ignores(streamID)) ==> U == old(U) && nodes == old(nodes) && ParentsOf(U) == old(ParentsOf(U))
      ensures streamID in old(nodes) ==> U == old(U) && nodes == old(nodes) && P == old(ParentsOf(U))
      ensures streamID in old(nodes) || old(Ignores(streamID)) ==> idleNodes == old(idleNodes) && maxID == old(maxID)
      ensures streamID !in old(nodes) && !old(Ignores(streamID)) ==>
        && streamID in nodes && fresh(nodes[streamID]) && nodes[streamID].id == streamID && nodes[streamID].state == Idle && maxID == streamID
        && nodes == Without(old(nodes)[streamID := nodes[streamID]], old(Victim(idleNodes, maxIdleNodesInTree)))
        && idleNodes == Remembered(old(idleNodes), maxIdleNodesInTree, nodes[streamID])
        && (old(Victim(idleNodes, maxIdleNodesInTree)) == null ==> P == old(ParentsOf(U))[nodes[streamID] := root])
      ensures !old(Ignores(streamID)) ==> streamID in nodes && nodes[streamID] in U && Prioritized(nodes[streamID], dep, exclusive, weight, P)
      ensures old(Tree()) ==> (Tree() <==> old(Ignores(streamID)) || streamID in old(nodes) || old(AtMostOneKid(Victim(idleNodes, maxIdleNodesInTree))))
    {
      hide *;
      P := ParentsOf(U);
      IgnoresFacts(streamID);
      if streamID in nodes {
        ShapeAt(streamID);
        Prioritize(nodes[streamID], dep, exclusive, weight);
        PrioritizedIs(nodes[streamID], dep, exclusive, weight, P);
        return;
      }
      if streamID <= maxID || maxIdleNodesInTree == 0 {
        return;
      }
      P := AdjustNew(streamID, dep, exclusive, weight, FS, CS);
    }

    /** The stream is unknown and either old or not worth remembering. */
    ghost predicate Ignores(streamID: nat)
      reads this
    {
      streamID !in nodes && (streamID <= maxID || maxIdleNodesInTree == 0)
    }

    lemma IgnoresFacts(streamID: nat)
      ensures Ignores(streamID) <==> streamID !in nodes && (streamID <= maxID || maxIdleNodesInTree == 0)
    {
    }

    /** AdjustStream for a stream not seen before. P are the parents once it is remembered below the root. */
    method AdjustNew(streamID: nat, dep: nat, exclusive: bool, weight: nat, ghost FS: set<Flow>, ghost CS: set<Conn>) returns (ghost P: map<Node, Node>)
      requires Shape() && Prepared(FS, CS) && streamID > maxID && maxIdleNodesInTree != 0
      modifies this`nodes, this`U, this`maxID, this`idleNodes, U`parent, U`kids, U`prev, U`next, U`kidSeq, U`weight
      ensures Shape() && Prepared(FS, CS) && U >= old(U) && fresh(U - old(U)) && maxID == streamID && forall x :: x in U && x !in old(U) ==> fresh(x.q)
      ensures streamID in nodes && nodes[streamID] in U && fresh(nodes[streamID]) && Prioritized(nodes[streamID], dep, exclusive, weight, P)
      ensures nodes[streamID].id == streamID && nodes[streamID].state == Idle
      ensures nodes == Without(old(nodes)[streamID := nodes[streamID]], old(Victim(idleNodes, maxIdleNodesInTree)))
      ensures idleNodes == Remembered(old(idleNodes), maxIdleNodesInTree, nodes[streamID])
      ensures old(Victim(idleNodes, maxIdleNodesInTree)) == null ==> P == old(ParentsOf(U))[nodes[streamID] := root]
      ensures old(Tree()) ==> (Tree() <==> old(AtMostOneKid(Victim(idleNodes, maxIdleNodesInTree))))
    {
      hide *;
      var n;
      ghost var v, k;
      n, v, k := Remember(streamID, FS, CS);
      P := ParentsOf(U);
      TargetFacts(dep);
      Prioritize(n, dep, exclusive, weight);
      PrioritizedIs(n, dep, exclusive, weight, P);
      AfterPrioritize(P, n, Target(dep), exclusive && dep in nodes, v, k);
    }

    /** n hangs below the stream dep, or below the root, with the weight that goes with it; P were the parents
        before. A stream cannot be made to depend on itself. */
    ghost predicate Prioritized(n: Node, dep: nat, exclusive: bool, weight: nat, P: map<Node, Node>)
      requires n in U
      reads this, U`parent, U`kids, U`prev, U`next, U`kidSeq, U`weight
    {
      if n == Target(dep) then ParentsOf(U) == P
      else ParentsOf(U) == Adjusted(P, n, Target(dep), exclusive && dep in nodes) && n.weight == if dep in nodes then weight else DEFAULT_WEIGHT
    }

    lemma PrioritizedIs(n: Node, dep: nat, exclusive: bool, weight: nat, P: map<Node, Node>)
      requires n in U
      ensures Prioritized(n, dep, exclusive, weight, P) <==>
        if n == Target(dep) then ParentsOf(U) == P
        else ParentsOf(U) == Adjusted(P, n, Target(dep), exclusive && dep in nodes) && n.weight == if dep in nodes then weight else DEFAULT_WEIGHT
    {
    }

    /** Makes an idle node for the stream below the root and retains it, which may evict the oldest idle node v;
        k is the second kid of v. */
    method Remember(streamID: nat, ghost FS: set<Flow>, ghost CS: set<Conn>) returns (n: Node, ghost v: Node?, ghost k: Node?)
      requires Shape() && Prepared(FS, CS) && streamID > maxID && maxIdleNodesInTree != 0
      modifies this`nodes, this`U, this`maxID, this`idleNodes, U`parent, U`kids, U`prev, U`next, U`kidSeq
      ensures Shape() && Prepared(FS, CS) && U == old(U) + {n} && fresh(n) && fresh(n.q) && maxID == streamID
      ensures n in Mapped() && n != root && streamID in nodes && nodes[streamID] == n && n.id == streamID && n.state == Idle
      ensures nodes == Without(old(nodes)[streamID := n], old(Victim(idleNodes, maxIdleNodesInTree)))
      ensures idleNodes == Remembered(old(idleNodes), maxIdleNodesInTree, n)
      ensures old(Victim(idleNodes, maxIdleNodesInTree)) == null ==> ParentsOf(U) == old(ParentsOf(U))[n := root]
      ensures old(Tree()) ==> (Tree() <==> old(AtMostOneKid(Victim(idleNodes, maxIdleNodesInTree))))
      ensures old(Tree()) && !old(AtMostOneKid(Victim(idleNodes, maxIdleNodesInTree))) ==>
        v != null && k != null && v in U && k in U && v != root && v !in Mapped() && k in Mapped() && LostIn(ParentsOf(U), n, v, k)
    {
      hide *;
      v := Victim(idleNodes, maxIdleNodesInTree);
      k := SecondKid(v);
      ghost var B, W := nodes, U;
      BeforeNew(streamID, v, k);
      PreparedIs(FS, CS);
      n := NewNode(streamID, Idle, root);
      QueuesMore(W, n, FS, CS);
      PreparedIs(FS, CS);
      AfterNew(B, n, v, k);
      ShapeParts();
      ghost var A := nodes;
      RetentionIs(idleNodes, A, n, v);
      RetainIdle(n);
      AfterRetain(A, n, v, k);
      LostFacts(v, k);
      PreparedIs(FS, CS);
    }

    ghost function SecondKid(v: Node?): Node?
      reads (if v == null then {} else {v})`kidSeq
    {
      if v != null && |v.kidSeq| > 1 then v.kidSeq[1] else null
    }

    lemma BeforeNew(streamID: nat, v: Node?, k: Node?)
      requires Shape() && streamID > maxID && v == Victim(idleNodes, maxIdleNodesInTree) && k == SecondKid(v)
      ensures root in U && root in Mapped() && streamID !in nodes && streamID > 0
      ensures v != null ==> v in U && v != root && v in idleNodes
      ensures (k == null <==> AtMostOneKid(v)) && (k != null ==> k in U && v != null && |v.kidSeq| > 1 && k == v.kidSeq[1])
      ensures forall x :: x in closedNodes + idleNodes ==> x.id < streamID
      ensures Tree() ==> IsTree(ViewOf(U), root, Mapped()) && KeepIds(closedNodes, nodes) && KeepIds(idleNodes, nodes)
    {
      if k != null { KidParent(ViewOf(U), v, 1); }
    }

    lemma AfterNew(B: map<nat, Node>, n: Node, v: Node?, k: Node?)
      requires Shape() && n in U && n.id !in B && nodes == B[n.id := n] && n.id > 0
      requires forall x :: x in closedNodes + idleNodes ==> x.id < n.id
      requires v == Victim(idleNodes, maxIdleNodesInTree)
      ensures n in Mapped() && n != root && v != n
      ensures KeepIds(closedNodes, B) && KeepIds(idleNodes, B) && IsTree(ViewOf(U), root, Mapped()) ==> Tree()
    {
      if KeepIds(closedNodes, B) && KeepIds(idleNodes, B) {
        KeepIdsMore(closedNodes, B, n);
        KeepIdsMore(idleNodes, B, n);
      }
    }

    lemma AfterRetain(A: map<nat, Node>, n: Node, v: Node?, k: Node?)
      requires Shape() && n in MappedIn(A, U) && n != root && (v != null ==> v in U && v.id < n.id)
      requires nodes == if v == null then A else A - {v.id}
      requires k != n && forall x :: x in U ==> x.parent != n
      ensures n in Mapped()
      ensures v != null && k != null && Lost(v, k) ==> LostIn(ParentsOf(U), n, v, k) && !Tree()
    {
      if v != null && k != null && Lost(v, k) { LostBreaksTree(v, k); }
    }

    lemma LostFacts(v: Node?, k: Node?)
      ensures v != null && k != null && Lost(v, k) ==> v in U && k in U && v != root && v !in Mapped() && k in Mapped()
    {
    }

    /** In terms of parents alone: k hangs from the top v, and n has no kids. */
    ghost predicate LostIn(P: map<Node, Node>, n: Node, v: Node, k: Node) {
      k in P && P[k] == v && v !in P && k != n && v != n && forall x :: x in P ==> P[x] != n
    }

    lemma AfterPrioritize(P: map<Node, Node>, n: Node, p: Node, exclusive: bool, v: Node?, k: Node?)
      requires Shape() && p in Mapped() && n in Mapped()
      requires if n == p then ParentsOf(U) == P else ParentsOf(U) == Adjusted(P, n, p, exclusive)
      ensures v != null && k != null && v in U && k in U && v != root && v !in Mapped() && k in Mapped() && LostIn(P, n, v, k) ==> !Tree()
    {
      if v != null && k != null && v in U && k in U && v != root && v !in Mapped() && k in Mapped() && LostIn(P, n, v, k) {
        if n != p { AdjustedStranded(P, n, p, exclusive, v, k); }
        assert k in ParentsOf(U) && ParentsOf(U)[k] == v && v !in ParentsOf(U);
        LostBreaksTree(v, k);
      }
    }

    /** Queues wr on its stream, or on the root if it belongs to none or to an unknown stream. DATA for
        an unknown stream makes the scheduler panic. */
    method Push(wr: Request, ghost FS: set<Flow>, ghost CS: set<Conn>) returns (ghost n: Node)
      requires Shape() && Prepared(FS, CS) && wr.Valid() && wr.Flows() <= FS && (wr.stream != null ==> wr.stream.sc in CS)
      requires wr.DataSize() > 0 ==> wr.StreamID() in nodes
      modifies set x | x in U :: x.q
      ensures Shape() && Prepared(FS, CS) && n == (if wr.StreamID() in nodes then nodes[wr.StreamID()] else root) && n in U
      ensures n.q.s == old(n.q.s) + [wr] && n.q.pushed == old(n.q.pushed) + Trace(wr) && n.q.popped == old(n.q.popped)
      ensures forall x :: x in U && x != n ==> StateOf(x.q) == old(StateOf(x.q))
    {
      hide Forested, Trace, TraceAll, ViewOf, LinksOf;
      var id := wr.StreamID();
      var m := root;
      if id != 0 && id in nodes {
        m := nodes[id];
      }
      n := m;
      m.q.Push(wr);
    }

    /** Finds the next request in priority order and takes it. */
    method Select(order: (nat, nat) -> seq<nat>, ghost FS: set<Flow>, ghost CS: set<Conn>) returns (wr: Request, m: Node?, open: bool)
      requires Shape() && Queues(U, FS, CS) && 0 < writeThrottleLimit && Shuffles(order)
      modifies U`parent, U`kids, U`prev, U`next, U`kidSeq, U`bytes, U`subtreeBytes, FS`n, set x | x in U :: x.q
      ensures Shape() && Queues(U, FS, CS)
      ensures ParentsOf(U) == old(ParentsOf(U)) && Tree() == old(Tree())
      ensures Found(ParentsOf(U), U, FS, CS, old(SnapOf(U)), old(WindowsOf(FS, CS)), root, m, wr, Limit(open, writeThrottleLimit))
      ensures m != null ==> (open <==> OpenAbove(ParentsOf(U), U, root, m))
    {
      hide *;
      ghost var S, F, V := SnapOf(U), WindowsOf(FS, CS), ViewOf(U);
      MatchesNow(U, FS, CS);
      TreeParts();
      ghost var d, B := RootBound();
      m, open, wr := Walk(root, false, writeThrottleLimit, order, U, FS, CS, S, F, d, B);
      AfterWalk(V);
      TreeParts();
    }

    /** Takes the next request in priority order. order is the outcome of the sorts of this call; m is
        the node that was served. */
    method Pop(order: (nat, nat) -> seq<nat>, ghost FS: set<Flow>, ghost CS: set<Conn>) returns (wr: Request, ok: bool, ghost m: Node?)
      requires Shape() && Prepared(FS, CS) && Shuffles(order)
      modifies U`parent, U`kids, U`prev, U`next, U`kidSeq, U`bytes, U`subtreeBytes, FS`n, set x | x in U :: x.q
      modifies this`writeThrottleLimit
      ensures Shape() && Prepared(FS, CS)
      ensures ParentsOf(U) == old(ParentsOf(U)) && Tree() == old(Tree())
      ensures ok <==> m != null
      ensures ok <==> !NoneReady(ParentsOf(U), U, old(SnapOf(U)), old(WindowsOf(FS, CS)), root)
      ensures !ok ==> Matches(U, FS, CS, old(SnapOf(U)), old(WindowsOf(FS, CS)))
      ensures ok ==> m in U && Reaches<Node>(ParentsOf(U), m, {root})
      ensures ok ==> Overtaken(ParentsOf(U), U, old(SnapOf(U)), old(WindowsOf(FS, CS)), root, m)
      ensures ok ==> Served(U, FS, old(SnapOf(U)), old(WindowsOf(FS, CS)), m, wr, Limit(OpenAbove(ParentsOf(U), U, root, m), old(writeThrottleLimit)))
    {
      hide *;
      ghost var S, F := SnapOf(U), WindowsOf(FS, CS);
      PreparedIs(FS, CS);
      MatchesNow(U, FS, CS);
      var node, open;
      wr, node, open := Select(order, FS, CS);
      m, ok := node, node != null;
      FoundMeans(ParentsOf(U), U, FS, CS, S, F, root, m, wr, Limit(open, writeThrottleLimit));
      if ok {
        Throttle(open);
      }
      PreparedIs(FS, CS);
    }

    lemma PreparedIs(FS: set<Flow>, CS: set<Conn>)
      ensures Prepared(FS, CS) <==> Queues(U, FS, CS) && 0 < writeThrottleLimit
    {
    }

    /** After a request of a stream with an open ancestor the next such request may be larger. */
    method Throttle(open: bool)
      requires 0 < writeThrottleLimit
      modifies this`writeThrottleLimit
      ensures 0 < writeThrottleLimit
      ensures writeThrottleLimit == if open then Min(old(writeThrottleLimit) + 1024, MAX_INT32) else if enableWriteThrottle then 1024 else old(writeThrottleLimit)
    {
      if open {
        writeThrottleLimit := Wrap32(writeThrottleLimit + 1024);
        if writeThrottleLimit < 0 {
          writeThrottleLimit := MAX_INT32;
        }
      } else if enableWriteThrottle {
        writeThrottleLimit := 1024;
      }
    }

    lemma EmptyFacts()
      requires nodes == map[0 := root] && closedNodes == [] && idleNodes == []
      ensures Unclaimed(1) && Unclaimed(3) && Unclaimed(5) && 1 !in nodes && 3 !in nodes && 5 !in nodes && 0 in nodes
    {
    }

    lemma NoneRetained(id: nat)
      ensures closedNodes == [] && idleNodes == [] ==> Unclaimed(id)
    {
    }

    lemma ChildFacts(id: nat)
      ensures id in nodes ==> Target(id) == nodes[id]
      ensures maxClosedNodesInTree <= 0 && id in nodes ==> (AtMostOneKid(Evicted(closedNodes, nodes[id])) <==> |nodes[id].kidSeq| <= 1)
      ensures maxClosedNodesInTree <= 0 && id in nodes ==> Evicted(closedNodes, nodes[id]) == nodes[id]
    {
    }

    lemma RootBound() returns (d: nat, B: nat)
      requires Shape()
      ensures root in U && HasDepth(ParentsOf(U), root, d) && Bounded(ParentsOf(U), U, B)
      ensures Index() && Forested(U) && ViewOf(U).Keys == U && ViewOf(U)[root].parent == null && ParentsOf(U) == Parents(ViewOf(U))
    {
      d := 0;
      B := BoundExists(ParentsOf(U), U);
    }

    /** A walk that leaves the parents alone leaves the scheduler in shape, and a tree a tree. */
    lemma AfterWalk(V: View)
      requires Index() && Forested(U) && V.Keys == U && V[root].parent == null && ParentsOf(U) == Parents(V)
      ensures root.parent == null && (IsTree(V, root, Mapped()) <==> IsTree(ViewOf(U), root, Mapped()))
    {
      var W := ViewOf(U);
      forall x | x in U ensures V[x].parent == W[x].parent {
        assert V[x].parent != null <==> x in Parents(V);
        assert W[x].parent != null <==> x in Parents(W);
      }
    }

    lemma TreeKid(v: Node, k: Node)
      requires Shape() && Tree() && v in U && |v.kidSeq| > 1 && k == v.kidSeq[1]
      ensures k in Mapped() && k != v
    {
      KidParent(ViewOf(U), v, 1);
      NotOwnParent(ViewOf(U), U, v);
      assert ViewOf(U)[k].parent == v;
    }
  }

  ghost predicate KeepsIdIn(nodes: map<nat, Node>, x: Node) {
    x.id in nodes ==> nodes[x.id] == x
  }

  lemma MappedRemoved(B: map<nat, Node>, U: set<Node>, v: Node, k: Node?)
    requires KeepsIdIn(B, v)
    ensures v !in MappedIn(B - {v.id}, U)
    ensures k != null && k in MappedIn(B, U) && k != v ==> k in MappedIn(B - {v.id}, U)
  {
  }

  lemma KeepIdsHas(list: seq<Node>, nodes: map<nat, Node>, n: Node)
    requires KeepIds(list, nodes)
    ensures n in list && n.id in nodes ==> nodes[n.id] == n
  {
  }

  lemma MappedAdd(nodes: map<nat, Node>, U: set<Node>, n: Node)
    requires n.id !in nodes && n !in U
    ensures MappedIn(nodes[n.id := n], U + {n}) == MappedIn(nodes, U) + {n}
  {
  }

  lemma MappedFacts(nodes: map<nat, Node>, U: set<Node>, n: Node)
    requires n in MappedIn(nodes, U)
    ensures n in U && n.id in nodes && nodes[n.id] == n
  {
  }

  lemma LoneRoot(V: View, r: Node)
    requires V == map[r := LOOSE]
    ensures Linked(V) && Acyclic(Parents(V), {r}) && IsTree(V, r, {r})
  {
    FiniteStep(Parents(V), r);
    ReachesSelf(Parents(V), r, {r});
  }

  lemma QueuesMore(U: set<Node>, n: Node, FS: set<Flow>, CS: set<Conn>)
    requires Queues(U, FS, CS) && n.q.Valid() && n.q.s == [] && forall x :: x in U ==> x.q != n.q
    ensures Queues(U + {n}, FS, CS)
  {
  }

  lemma SeesParents(U: set<Node>)
    ensures ViewOf(U).Keys == U && ParentsOf(U) == Parents(ViewOf(U)) && forall x :: x in U ==> ViewOf(U)[x].parent == x.parent
  {
  }

  lemma NobodyMoved(V: View, U: set<Node>)
    requires V.Keys == U && forall x :: x in U ==> x.parent == V[x].parent
    ensures ParentsOf(U) == Parents(V)
  {
  }

  lemma QueueStates(U: set<Node>, n: Node, FS: set<Flow>, CS: set<Conn>)
    requires Queues(U, FS, CS) && n in U
    ensures SnapOf(U).Keys == U && forall x :: x in U ==> SnapOf(U)[x] == StateOf(x.q) && (x != n ==> x.q != n.q)
    ensures (forall x :: x in U ==> Tidy(SnapOf(U)[x], FS, CS)) && forall x, y :: x in U && y in U && x != y ==> x.q != y.q
  {
  }

  /** The contents of a queue that can be served. */
  ghost predicate Tidy(q: QueueState, FS: set<Flow>, CS: set<Conn>) {
    q.pushed == q.popped + TraceAll(q.s) && (forall r :: r in q.s ==> r.Valid()) && FlowsWithin(q.s, FS) && ConnsWithin(q.s, CS)
  }

  lemma QueuesCleared(U: set<Node>, n: Node, FS: set<Flow>, CS: set<Conn>, S: Snap)
    requires n in U && n.q.Valid() && n.q.s == [] && S.Keys == U
    requires forall x :: x in U && x != n ==> StateOf(x.q) == S[x] && Tidy(S[x], FS, CS)
    requires forall x, y :: x in U && y in U && x != y ==> x.q != y.q
    ensures Queues(U, FS, CS)
  {
  }

  /** The heap shows n hanging below p, and nobody else moved. */
  lemma HangsBelow(V: View, W: set<Node>, n: Node, p: Node)
    requires V.Keys == W && n !in W && n.parent == p
    requires forall x :: x in W ==> x.parent == V[x].parent
    ensures ParentsOf(W + {n}) == Parents(V)[n := p]
  {
    var Q, R := ParentsOf(W + {n}), Parents(V)[n := p];
    assert Q.Keys == R.Keys by {
      forall x: Node ensures x in Q <==> x in R { }
    }
  }

  /** A scheduler that retains no closed streams, with stream 1 and its dependants 3 and 5. */
  method TwoDependants() returns (s: PriorityWriteScheduler, ghost a: Node)
    ensures fresh(s) && fresh(s.U) && s.Shape() && s.Tree() && s.Prepared({}, {}) && s.maxClosedNodesInTree == 0
    ensures s.nodes.Keys == {0, 1, 3, 5} && s.nodes[1] == a && a.id == 1 && a in s.U && a.state == Open && |a.kidSeq| == 2 && fresh(a.q)
  {
    hide *;
    s := new PriorityWriteScheduler(0, 0, false, {}, {});
    s.EmptyFacts();
    a := s.OpenStream(1, 0, {}, {});
    AddDependant(s, a, 3);
    AddDependant(s, a, 5);
  }

  /** Opens a stream that stream 1 has pushed. */
  method AddDependant(s: PriorityWriteScheduler, ghost a: Node, id: nat)
    requires s.Shape() && s.Tree() && s.Prepared({}, {}) && s.closedNodes == [] && s.idleNodes == []
    requires id > 1 && id !in s.nodes && 1 in s.nodes && s.nodes[1] == a && a.id == 1 && a in s.U && a.state == Open
    modifies s`nodes, s`U, s`maxID, s.U`state, s.U`parent, s.U`kids, s.U`prev, s.U`next, s.U`kidSeq
    ensures s.Shape() && s.Tree() && s.Prepared({}, {}) && s.nodes.Keys == old(s.nodes).Keys + {id} && s.nodes[1] == a && a in s.U
    ensures |a.kidSeq| == |old(a.kidSeq)| + 1 && a.state == Open && s.U >= old(s.U) && fresh(s.U - old(s.U))
  {
    hide *;
    s.ChildFacts(1);
    s.NoneRetained(id);
    ghost var n := s.OpenStream(id, 1, {}, {});
  }

  /** When stream 1 closes, the dependant opened first is still known to the scheduler, but it is no
      longer part of the tree. */
  method ClosingLosesADependant() returns (s: PriorityWriteScheduler)
    ensures s.Shape() && !s.Tree() && 3 in s.nodes && 5 in s.nodes
  {
    hide *;
    ghost var a;
    s, a := TwoDependants();
    s.ChildFacts(1);
    ghost var d := s.CloseStream(1, {}, {});
  }
}
