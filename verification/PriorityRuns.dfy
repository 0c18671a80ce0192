/** Runs of the priority scheduler: any sequence of calls, and which of them keep the tree. */
module PriorityRuns {
  import opened GoInt
  import opened Forest
  import opened FlowControl
  import opened WriteQueues
  import opened PriorityNodes
  import opened PriorityTrees
  import opened PriorityWalks
  import opened PriorityScheduling
  import opened PriorityIndexes

  /** A call of the scheduler; the order of a PopCall is the outcome of its sorts. */
  datatype Call =
    | OpenCall(streamID: nat, pusherID: nat)
    | CloseCall(streamID: nat)
    | AdjustCall(streamID: nat, dep: nat, exclusive: bool, weight: nat)
    | PushCall(wr: Request)
    | PopCall(order: (nat, nat) -> seq<nat>)
  {
    /** The call passes a request that may be queued, or an order that sorts. */
    ghost predicate Proper(FS: set<Flow>, CS: set<Conn>) {
      && (PushCall? ==> wr.Valid() && wr.Flows() <= FS && (wr.stream != null ==> wr.stream.sc in CS))
      && (PopCall? ==> Shuffles(order))
    }
  }

  /** The calls the scheduler answers with a panic. */
  predicate Panics(s: PriorityWriteScheduler, c: Call)
    reads s`nodes, set i | i in s.nodes :: s.nodes[i]
  {
    match c
    case OpenCall(id, _) => id == 0 || (id in s.nodes && s.nodes[id].state != Idle)
    case CloseCall(id) => id == 0 || id !in s.nodes || s.nodes[id].state != Open
    case AdjustCall(id, _, _, _) => id == 0
    case PushCall(wr) => wr.DataSize() > 0 && wr.StreamID() !in s.nodes
    case PopCall(_) => false
  }

  // ---- The index, as a value

  function Ids(list: seq<Node>): seq<nat> {
    seq(|list|, i requires 0 <= i < |list| => list[i].id)
  }

  ghost function KnownOf(s: PriorityWriteScheduler): Known
    reads s`nodes, s`closedNodes, s`idleNodes, s`maxID, set i | i in s.nodes :: s.nodes[i]
  {
    Known(map i | i in s.nodes :: s.nodes[i].state, Ids(s.closedNodes), Ids(s.idleNodes), s.maxID, s.maxClosedNodesInTree, s.maxIdleNodesInTree)
  }

  /** The call as the index sees it. */
  function OpOf(c: Call): Op {
    match c
    case OpenCall(id, _) => OpenOp(id)
    case CloseCall(id) => CloseOp(id)
    case AdjustCall(id, _, _, _) => AdjustOp(id)
    case PushCall(wr) => if wr.DataSize() > 0 then DataOp(wr.StreamID()) else OtherOp
    case PopCall(_) => OtherOp
  }

  function OpsOf(calls: seq<Call>): seq<Op> {
    seq(|calls|, i requires 0 <= i < |calls| => OpOf(calls[i]))
  }

  lemma PanicsIff(s: PriorityWriteScheduler, c: Call)
    ensures Panics(s, c) <==> Refuses(KnownOf(s), OpOf(c))
  {
  }

  lemma KnownIs(s: PriorityWriteScheduler, t: Known)
    requires t.states.Keys == s.nodes.Keys && forall i :: i in s.nodes ==> s.nodes[i].state == t.states[i]
    requires t.closed == Ids(s.closedNodes) && t.idle == Ids(s.idleNodes) && t.maxID == s.maxID
    requires t.maxClosed == s.maxClosedNodesInTree && t.maxIdle == s.maxIdleNodesInTree
    ensures KnownOf(s) == t
  {
  }

  lemma IdsRetain(list: seq<Node>, max: int, n: Node)
    ensures Retain(Ids(list), max, n.id) == Ids((if max != 0 && |list| == max then list[1..] else list) + [n])
    ensures max != 0 && |list| == max && |list| > 0 ==> Ids(list)[0] == list[0].id
  {
  }

  /** The call leaves a tree a tree: it removes no node with more than one kid, and it gives no retained
      node's id to another stream. */
  ghost predicate KeepsTree(s: PriorityWriteScheduler, c: Call)
    requires s.Index()
    reads s, s.U`kidSeq
  {
    match c
    case OpenCall(id, _) => id in s.nodes || s.Unclaimed(id)
    case CloseCall(id) => id in s.nodes ==> AtMostOneKid(s.Evicted(s.closedNodes, s.nodes[id]))
    case AdjustCall(id, _, _, _) => s.Ignores(id) || id in s.nodes || AtMostOneKid(s.Victim(s.idleNodes, s.maxIdleNodesInTree))
    case PushCall(_) => true
    case PopCall(_) => true
  }

  /** As long as nothing has to be evicted, nothing can break the tree. */
  lemma RoomKeepsTree(s: PriorityWriteScheduler, c: Call)
    requires s.Index() && AllKnown(KnownOf(s)) && HasRoom(KnownOf(s), OpOf(c))
    ensures KeepsTree(s, c)
  {
    if c.OpenCall? && c.streamID !in s.nodes {
      var k := KnownOf(s);
      forall x | x in s.closedNodes + s.idleNodes ensures x.id != c.streamID {
        if x in s.closedNodes { IdIn(s.closedNodes, x); } else { IdIn(s.idleNodes, x); }
        assert x.id in k.closed + k.idle;
      }
    }
  }

  lemma IdIn(list: seq<Node>, x: Node)
    requires x in list
    ensures x.id in Ids(list)
  {
    var i :| 0 <= i < |list| && list[i] == x;
    assert Ids(list)[i] == x.id;
  }

  method StepOpen(s: PriorityWriteScheduler, c: Call, ghost FS: set<Flow>, ghost CS: set<Conn>)
    requires s.Shape() && s.Prepared(FS, CS) && c.OpenCall? && !Panics(s, c)
    modifies s, s.U
    ensures s.Shape() && s.Prepared(FS, CS)
    ensures KnownOf(s) == Next(old(KnownOf(s)), OpOf(c)) && (old(s.Tree()) ==> (s.Tree() <==> old(KeepsTree(s, c))))
    ensures s.U >= old(s.U) && fresh(s.U - old(s.U)) && forall x :: x in s.U && x !in old(s.U) ==> fresh(x.q)
  {
    hide Forested, IsTree, ViewOf, LinksOf, ParentsOf, Queues, PriorityWriteScheduler.Tree;
    ghost var k := KnownOf(s);
    ghost var n := s.OpenStream(c.streamID, c.pusherID, FS, CS);
    KnownIs(s, Next(k, OpOf(c)));
  }

  method StepClose(s: PriorityWriteScheduler, c: Call, ghost FS: set<Flow>, ghost CS: set<Conn>)
    requires s.Shape() && s.Prepared(FS, CS) && c.CloseCall? && !Panics(s, c)
    modifies s, s.U, set x | x in s.U :: x.q
    ensures s.Shape() && s.Prepared(FS, CS)
    ensures KnownOf(s) == Next(old(KnownOf(s)), OpOf(c)) && (old(s.Tree()) ==> (s.Tree() <==> old(KeepsTree(s, c))))
    ensures s.U >= old(s.U) && fresh(s.U - old(s.U)) && forall x :: x in s.U && x !in old(s.U) ==> fresh(x.q)
  {
    hide Forested, IsTree, ViewOf, LinksOf, ParentsOf, Queues, PriorityWriteScheduler.Tree;
    ghost var k := KnownOf(s);
    IdsRetain(s.closedNodes, s.maxClosedNodesInTree, s.nodes[c.streamID]);
    ghost var n := s.CloseStream(c.streamID, FS, CS);
    KnownIs(s, Next(k, OpOf(c)));
  }

  method StepAdjust(s: PriorityWriteScheduler, c: Call, ghost FS: set<Flow>, ghost CS: set<Conn>)
    requires s.Shape() && s.Prepared(FS, CS) && c.AdjustCall? && !Panics(s, c)
    modifies s, s.U
    ensures s.Shape() && s.Prepared(FS, CS)
    ensures KnownOf(s) == Next(old(KnownOf(s)), OpOf(c)) && (old(s.Tree()) ==> (s.Tree() <==> old(KeepsTree(s, c))))
    ensures s.U >= old(s.U) && fresh(s.U - old(s.U)) && forall x :: x in s.U && x !in old(s.U) ==> fresh(x.q)
  {
    hide Forested, IsTree, ViewOf, LinksOf, ParentsOf, Queues, PriorityWriteScheduler.Tree;
    ghost var k, idle := KnownOf(s), s.idleNodes;
    ghost var P := s.AdjustStream(c.streamID, c.dep, c.exclusive, c.weight, FS, CS);
    if Remembers(k, c.streamID) { IdsRetain(idle, s.maxIdleNodesInTree, s.nodes[c.streamID]); }
    KnownIs(s, Next(k, OpOf(c)));
  }

  method StepPush(s: PriorityWriteScheduler, c: Call, ghost FS: set<Flow>, ghost CS: set<Conn>)
    requires s.Shape() && s.Prepared(FS, CS) && c.PushCall? && c.Proper(FS, CS) && !Panics(s, c)
    modifies set x | x in s.U :: x.q
    ensures s.Shape() && s.Prepared(FS, CS)
    ensures KnownOf(s) == Next(old(KnownOf(s)), OpOf(c)) && (old(s.Tree()) ==> (s.Tree() <==> old(KeepsTree(s, c))))
    ensures s.U >= old(s.U) && fresh(s.U - old(s.U)) && forall x :: x in s.U && x !in old(s.U) ==> fresh(x.q)
  {
    hide Forested, IsTree, ViewOf, LinksOf, ParentsOf, Queues, PriorityWriteScheduler.Tree;
    ghost var n := s.Push(c.wr, FS, CS);
  }

  lemma PopIs(s: PriorityWriteScheduler, k: Known, c: Call)
    requires c.PopCall? && s.Shape() && k == KnownOf(s)
    ensures Next(k, OpOf(c)) == k && KeepsTree(s, c) && s.Index() && k.states.Keys == s.nodes.Keys
    ensures forall i :: i in s.nodes ==> s.nodes[i].state == k.states[i]
    ensures k.closed == Ids(s.closedNodes) && k.idle == Ids(s.idleNodes) && k.maxID == s.maxID
    ensures k.maxClosed == s.maxClosedNodesInTree && k.maxIdle == s.maxIdleNodesInTree
    ensures forall FS: set<Flow>, CS: set<Conn> :: c.Proper(FS, CS) ==> Shuffles(c.order)
  {
  }

  method StepPop(s: PriorityWriteScheduler, c: Call, ghost FS: set<Flow>, ghost CS: set<Conn>)
    requires s.Shape() && s.Prepared(FS, CS) && c.PopCall? && c.Proper(FS, CS)
    modifies s, s.U, FS`n, set x | x in s.U :: x.q
    ensures s.Shape() && s.Prepared(FS, CS)
    ensures KnownOf(s) == Next(old(KnownOf(s)), OpOf(c)) && (old(s.Tree()) ==> (s.Tree() <==> old(KeepsTree(s, c))))
    ensures s.U >= old(s.U) && fresh(s.U - old(s.U)) && forall x :: x in s.U && x !in old(s.U) ==> fresh(x.q)
  {
    hide *;
    ghost var k := KnownOf(s);
    PopIs(s, k, c);
    var wr, ok;
    ghost var m;
    wr, ok, m := s.Pop(c.order, FS, CS);
    KnownIs(s, k);
  }

  /** One call. A call that panics changes nothing. */
  method Step(s: PriorityWriteScheduler, c: Call, ghost FS: set<Flow>, ghost CS: set<Conn>) returns (panicked: bool)
    requires s.Shape() && s.Prepared(FS, CS) && c.Proper(FS, CS)
    modifies s, s.U, FS`n, set x | x in s.U :: x.q
    ensures panicked <==> old(Panics(s, c))
    ensures s.Shape() && s.Prepared(FS, CS)
    ensures panicked ==> unchanged(s) && unchanged(s.U) && unchanged(set x | x in s.U :: x.q)
    ensures !panicked ==> KnownOf(s) == Next(old(KnownOf(s)), OpOf(c)) && (old(s.Tree()) ==> (s.Tree() <==> old(KeepsTree(s, c))))
    ensures s.U >= old(s.U) && fresh(s.U - old(s.U)) && forall x :: x in s.U && x !in old(s.U) ==> fresh(x.q)
  {
    hide *;
    panicked := Panics(s, c);
    if panicked {
      return;
    }
    match c
    case OpenCall(_, _) => StepOpen(s, c, FS, CS);
    case CloseCall(_) => StepClose(s, c, FS, CS);
    case AdjustCall(_, _, _, _) => StepAdjust(s, c, FS, CS);
    case PushCall(_) => StepPush(s, c, FS, CS);
    case PopCall(_) => StepPop(s, c, FS, CS);
  }

  lemma OpsFirst(calls: seq<Call>)
    requires calls != []
    ensures OpsOf(calls) != [] && OpsOf(calls)[0] == OpOf(calls[0]) && OpsOf(calls)[1..] == OpsOf(calls[1..])
  {
  }

  /** The first call of a run. */
  method StepFirst(s: PriorityWriteScheduler, calls: seq<Call>, ghost FS: set<Flow>, ghost CS: set<Conn>) returns (panicked: bool)
    requires s.Shape() && s.Prepared(FS, CS) && calls != [] && calls[0].Proper(FS, CS)
    modifies s, s.U, FS`n, set x | x in s.U :: x.q
    ensures s.Shape() && s.Prepared(FS, CS) && (panicked ==> Panics(s, calls[0]))
    ensures s.U >= old(s.U) && fresh(s.U - old(s.U)) && forall x :: x in s.U && x !in old(s.U) ==> fresh(x.q)
    ensures var k, ops := old(KnownOf(s)), OpsOf(calls);
      && (panicked <==> Refuses(k, ops[0])) && KnownOf(s) == (if panicked then k else Next(k, ops[0]))
      && (old(s.Tree()) && HasRoomFor(k, ops) ==> s.Tree() && (!panicked ==> HasRoomFor(KnownOf(s), OpsOf(calls[1..]))))
  {
    hide Panics, KeepsTree, Refuses, Next, OpOf, OpsOf, HasRoomFor, AllKnown, HasRoom, PriorityWriteScheduler.Tree, PriorityWriteScheduler.Shape, PriorityWriteScheduler.Prepared;
    OpsFirst(calls);
    PanicsIff(s, calls[0]);
    if HasRoomFor(KnownOf(s), OpsOf(calls)) {
      RoomFirst(KnownOf(s), OpsOf(calls));
      assert s.Index() by { IndexIn(s); }
      RoomKeepsTree(s, calls[0]);
    }
    panicked := Step(s, calls[0], FS, CS);
  }

  lemma IndexIn(s: PriorityWriteScheduler)
    requires s.Shape()
    ensures s.Index()
  {
  }

  /** Any run, up to a call that panics: the scheduler stays in shape, every queue conserves what was pushed, and what
      is known of the streams follows the calls. A run for which nothing has to be evicted keeps the tree. A
      caller that opens and closes each of its streams once meets a panic if and only if an open stream is evicted
      from the idle list. */
  method Run(s: PriorityWriteScheduler, calls: seq<Call>, ghost caller: Caller, ghost FS: set<Flow>, ghost CS: set<Conn>) returns (n: nat)
    requires s.Shape() && s.Prepared(FS, CS) && forall i :: 0 <= i < |calls| ==> calls[i].Proper(FS, CS)
    modifies s, s.U, FS`n, set x | x in s.U :: x.q
    ensures n <= |calls| && (n < |calls| ==> Panics(s, calls[n]))
    ensures s.Shape() && s.Prepared(FS, CS)
    ensures var k, ops := old(KnownOf(s)), OpsOf(calls);
      && KnownOf(s) == AfterAll(k, ops) && (n == |calls| <==> Passes(k, ops))
      && (old(s.Tree()) && HasRoomFor(k, ops) ==> s.Tree())
      && (Agrees(k, caller) && Forgotten(k, caller) == {} && ClosesAll(caller, ops) ==> (n == |calls| <==> !LosesOne(k, ops)))
  {
    hide *;
    ghost var k, ops := KnownOf(s), OpsOf(calls);
    if Agrees(k, caller) && ClosesAll(caller, ops) {
      PassesIff(k, caller, ops);
    }
    n := 0;
    assert calls[0..] == calls;
    while n < |calls|
      invariant n <= |calls| && s.Shape() && s.Prepared(FS, CS)
      invariant s.U >= old(s.U) && fresh(s.U - old(s.U)) && forall x :: x in s.U && x !in old(s.U) ==> fresh(x.q)
      invariant old(s.Tree()) && HasRoomFor(k, ops) ==> s.Tree() && HasRoomFor(KnownOf(s), OpsOf(calls[n..]))
      invariant AfterAll(KnownOf(s), OpsOf(calls[n..])) == AfterAll(k, ops) && (Passes(KnownOf(s), OpsOf(calls[n..])) <==> Passes(k, ops))
    {
      OpsFirst(calls[n..]);
      FirstOp(KnownOf(s), OpsOf(calls[n..]));
      var panicked := StepFirst(s, calls[n..], FS, CS);
      if panicked {
        return;
      }
      assert calls[n..][1..] == calls[n + 1..];
      n := n + 1;
    }
    assert calls[n..] == [];
    NoOps(KnownOf(s));
  }

  lemma NoOps(k: Known)
    ensures OpsOf([]) == [] && AfterAll(k, []) == k && Passes(k, [])
  {
  }

  /** With room for one idle stream: stream 3 is remembered, opened and evicted, and closing it is a panic. */
  method OpenOneEvicted() returns (s: PriorityWriteScheduler)
    ensures fresh(s) && s.Shape() && s.maxIdleNodesInTree == 1 && 3 !in s.nodes && Panics(s, CloseCall(3))
  {
    hide *;
    s := new PriorityWriteScheduler(10, 1, false, {}, {});
    var calls := [AdjustCall(3, 0, false, 0), OpenCall(3, 0), AdjustCall(5, 0, false, 0), CloseCall(3)];
    ghost var k := KnownOf(s);
    NewIs(s, calls);
    OpenOneForgotten(k);
    var n := Run(s, calls, Caller({}, {}), {}, {});
    Missing(s, 3);
  }

  lemma NewIs(s: PriorityWriteScheduler, calls: seq<Call>)
    requires s.nodes == map[0 := s.root] && s.root.state == Open && s.closedNodes == [] && s.idleNodes == [] && s.maxID == 0
    requires calls == [AdjustCall(3, 0, false, 0), OpenCall(3, 0), AdjustCall(5, 0, false, 0), CloseCall(3)]
    ensures KnownOf(s) == Known(map[0 := Open], [], [], 0, s.maxClosedNodesInTree, s.maxIdleNodesInTree)
    ensures OpsOf(calls) == [AdjustOp(3), OpenOp(3), AdjustOp(5), CloseOp(3)]
    ensures forall i :: 0 <= i < |calls| ==> calls[i].Proper({}, {})
  {
  }

  lemma Missing(s: PriorityWriteScheduler, id: nat)
    requires id !in KnownOf(s).states
    ensures id !in s.nodes && Panics(s, CloseCall(id))
  {
  }
}
