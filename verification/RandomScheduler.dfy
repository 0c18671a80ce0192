/** The default write scheduler: control frames first, then any stream that has something to send. */
module RandomScheduling {
  import opened GoInt
  import opened FlowControl
  import opened WriteQueues

  class RandomWriteScheduler {
    /** Frames that belong to no stream. */
    const zero: WriteQueue

    /** The queues of the streams that have one. */
    var sq: map<nat, WriteQueue>

    /** Empty queues for reuse. */
    var queuePool: seq<WriteQueue>

    ghost function Queues(): set<WriteQueue>
      reads this
    {
      {zero} + (set id | id in sq :: sq[id]) + set q | q in queuePool
    }

    /** No queue serves two purposes. */
    ghost predicate Separate()
      reads this
    {
      && (forall id :: id in sq ==> id > 0 && sq[id] != zero && sq[id] !in queuePool)
      && (forall i, j :: i in sq && j in sq && i != j ==> sq[i] != sq[j])
      && zero !in queuePool
      && forall i, j :: 0 <= i < j < |queuePool| ==> queuePool[i] != queuePool[j]
    }

    /** Queue q holds requests of stream id only, and depends on no other windows than FS, CS. */
    ghost predicate Holds(q: WriteQueue, id: nat, FS: set<Flow>, CS: set<Conn>)
      reads q
    {
      q.Valid() && FlowsWithin(q.s, FS) && ConnsWithin(q.s, CS) && forall r :: r in q.s ==> r.StreamID() == id
    }

    ghost predicate Valid(FS: set<Flow>, CS: set<Conn>)
      reads this, Queues()
    {
      && Separate()
      && Holds(zero, 0, FS, CS)
      && (forall id :: id in sq ==> Holds(sq[id], id, FS, CS))
      && forall q :: q in queuePool ==> q.Valid() && q.s == [] && q.pushed == []
    }

    /** What the stream id has been given and has sent since it was opened; nothing if it has no queue. */
    ghost function Of(id: nat): QueueState
      reads this, Queues()
    {
      if id == 0 then StateOf(zero) else if id in sq then StateOf(sq[id]) else QueueState([], [], [])
    }

    constructor ()
      ensures Valid({}, {}) && fresh(Queues()) && sq == map[] && queuePool == []
      ensures zero.s == []
    {
      zero := new WriteQueue();
      sq, queuePool := map[], [];
    }

    /** Takes a queue from the pool, or makes one. */
    method Get() returns (q: WriteQueue)
      requires Separate() && forall p :: p in queuePool ==> p.Valid() && p.s == [] && p.pushed == []
      modifies this`queuePool
      ensures q.Valid() && q.s == [] && q.pushed == [] && q !in queuePool
      ensures if old(queuePool) == [] then fresh(q) && queuePool == [] else q in old(queuePool) && queuePool == old(queuePool)[..|old(queuePool)| - 1]
    {
      var ln := |queuePool|;
      if ln == 0 {
        q := new WriteQueue();
        return;
      }
      q := queuePool[ln - 1];
      queuePool := queuePool[..ln - 1];
    }

    method CloseStream(streamID: nat, ghost FS: set<Flow>, ghost CS: set<Conn>)
      requires Valid(FS, CS)
      modifies this, Queues()
      ensures Valid(FS, CS) && Queues() <= old(Queues())
      ensures streamID > 0 ==> Of(streamID) == QueueState([], [], [])
      ensures forall id: nat :: id != streamID ==> Of(id) == old(Of(id))
    {
      if streamID !in sq {
        return;
      }
      var q := sq[streamID];
      sq := sq - {streamID};
      q.Clear();
      queuePool := queuePool + [q];
    }

    /** Gives the stream a queue if it has none. */
    method Provide(id: nat, ghost FS: set<Flow>, ghost CS: set<Conn>)
      requires Valid(FS, CS) && id > 0
      modifies this
      ensures Valid(FS, CS) && fresh(Queues() - old(Queues())) && id in sq
      ensures forall j: nat :: Of(j) == old(Of(j))
    {
      if id !in sq {
        var q := Get();
        sq := sq[id := q];
      }
    }

    /** Queues wr on its stream, behind everything queued before. */
    method Push(wr: Request, ghost FS: set<Flow>, ghost CS: set<Conn>)
      requires Valid(FS, CS) && wr.Valid() && wr.Flows() <= FS && (wr.stream != null ==> wr.stream.sc in CS)
      modifies this, Queues()
      ensures Valid(FS, CS) && fresh(Queues() - old(Queues()))
      ensures var id := wr.StreamID();
        && Of(id).s == old(Of(id)).s + [wr] && Of(id).pushed == old(Of(id)).pushed + Trace(wr) && Of(id).popped == old(Of(id)).popped
        && forall j: nat :: j != id ==> Of(j) == old(Of(j))
    {
      hide Trace, TraceAll, FlowsWithin, ConnsWithin, WriteQueue.Conserves;
      var id := wr.StreamID();
      WithinEmpty(FS, CS);
      WithinMore(Of(id).s, wr, FS, CS);
      if id == 0 {
        zero.Push(wr);
        return;
      }
      Provide(id, FS, CS);
      sq[id].Push(wr);
    }

    /** Tries the stream id. */
    method TryStream(id: nat, ghost FS: set<Flow>, ghost CS: set<Conn>, ghost F: Windows) returns (wr: Request, ok: bool)
      requires Valid(FS, CS) && id in sq && WindowsAre(FS, CS, F)
      modifies sq[id], FS`n
      ensures Valid(FS, CS)
      ensures ok <==> Ready(old(Of(id)).s, F)
      ensures !ok ==> Of(id) == old(Of(id)) && WindowsAre(FS, CS, F)
      ensures ok ==> Sent(FS, old(Of(id)), Of(id), F, wr, id)
      ensures forall j: nat :: j != id ==> Of(j) == old(Of(j))
    {
      hide Trace, TraceAll, FlowsWithin, ConnsWithin, Delivers, CreditIn, Ready, WriteQueue.Conserves;
      ghost var s := sq[id].s;
      wr, ok := TakeFrom(sq[id], MAX_INT32, FS, CS, F);
      if ok {
        DeliversOf(s, sq[id].s, wr, Min(MAX_INT32, CreditIn(s[0], F)), id);
      }
    }

    /** Takes the first control frame. */
    method ShiftZero(ghost FS: set<Flow>, ghost CS: set<Conn>, ghost F: Windows) returns (wr: Request)
      requires Valid(FS, CS) && zero.s != [] && WindowsAre(FS, CS, F)
      modifies zero
      ensures Valid(FS, CS) && WindowsAre(FS, CS, F)
      ensures Sent(FS, old(Of(0)), Of(0), F, wr, 0)
      ensures forall j: nat :: j != 0 ==> Of(j) == old(Of(j))
    {
      hide Trace, TraceAll, Delivers, CreditIn, Ready, WriteQueue.Conserves;
      wr := zero.Shift();
    }

    /** Takes a request: the first control frame, or else the first of some stream that may send, the
        streams being tried in any order. id is the stream that was served. */
    method Pop(ghost FS: set<Flow>, ghost CS: set<Conn>, ghost F: Windows) returns (wr: Request, ok: bool, ghost id: nat)
      requires Valid(FS, CS) && WindowsAre(FS, CS, F)
      modifies Queues(), FS`n
      ensures Valid(FS, CS)
      ensures ok <==> old(Of(0)).s != [] || exists j: nat :: j > 0 && Ready(old(Of(j)).s, F)
      ensures !ok ==> (forall j: nat :: Of(j) == old(Of(j))) && WindowsAre(FS, CS, F)
      ensures ok ==> Sent(FS, old(Of(id)), Of(id), F, wr, id) && (forall j: nat :: j != id ==> Of(j) == old(Of(j)))
      ensures ok && old(Of(0)).s != [] ==> id == 0
    {
      hide Holds, Trace, TraceAll, FlowsWithin, ConnsWithin, Delivers, CreditIn, Sent, WindowsAre, WriteQueue.Valid;
      id := 0;
      if !zero.Empty() {
        wr := ShiftZero(FS, CS, F);
        return wr, true, 0;
      }
      var todo := sq.Keys;
      while todo != {}
        invariant todo <= sq.Keys && Valid(FS, CS) && WindowsAre(FS, CS, F)
        invariant forall j: nat :: Of(j) == old(Of(j))
        invariant forall j :: j in sq && j !in todo ==> !Ready(old(Of(j)).s, F)
      {
        var j :| j in todo;
        todo := todo - {j};
        wr, ok := TryStream(j, FS, CS, F);
        if ok {
          return wr, true, j;
        }
      }
      return EMPTY, false, 0;
    }
  }

  lemma DeliversOf(s: seq<Request>, t: seq<Request>, wr: Request, a: int, id: nat)
    requires Delivers(s, t, wr, a) && forall r :: r in s ==> r.StreamID() == id
    ensures forall r :: r in t ==> r.StreamID() == id
    ensures wr.StreamID() == id
  {
    assert s[0] in s;
    forall r | r in t ensures r.StreamID() == id {
      if wr != s[0] && r == t[0] {
        assert r.stream == s[0].stream;
      } else {
        assert r in s[1..] by {
          if wr != s[0] { assert r in t[1..]; }
        }
      }
    }
  }

  lemma WithinEmpty(FS: set<Flow>, CS: set<Conn>)
    ensures FlowsWithin([], FS) && ConnsWithin([], CS)
  {
  }

  /** From the state q of a queue to the state t the request wr has left, and the windows F have shrunk
      by what it carries. */
  ghost predicate Sent(FS: set<Flow>, q: QueueState, t: QueueState, F: Windows, wr: Request, id: nat)
    reads FS
  {
    && q.s != [] && t.pushed == q.pushed && t.popped == q.popped + Trace(wr)
    && (if id == 0 then wr == q.s[0] && t.s == q.s[1..] else Delivers(q.s, t.s, wr, Min(MAX_INT32, CreditIn(q.s[0], F))))
    && F.flow.Keys == FS
    && forall f :: f in FS ==> f.n == F.flow[f] - if id > 0 && f in q.s[0].Flows() then wr.DataSize() else 0
  }
}
