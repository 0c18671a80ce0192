/** What the priority scheduler knows of its streams, as a value: which calls it refuses with a panic, and which
    make it forget an open stream. */
module PriorityIndexes {
  import opened Options
  import opened PriorityNodes

  /** The states of the known streams, the streams retained after closing and before opening, oldest first, and the
      highest number. At most maxClosed and maxIdle streams are retained. */
  datatype Known = Known(states: map<nat, NodeState>, closed: seq<nat>, idle: seq<nat>, maxID: nat, maxClosed: int, maxIdle: int)

  /** A call, as far as the index is concerned. */
  datatype Op = OpenOp(id: nat) | CloseOp(id: nat) | AdjustOp(id: nat) | DataOp(id: nat) | OtherOp

  /** The calls the scheduler answers with a panic. */
  predicate Refuses(k: Known, op: Op) {
    match op
    case OpenOp(id) => id == 0 || (id in k.states && k.states[id] != Idle)
    case CloseOp(id) => id == 0 || id !in k.states || k.states[id] != Open
    case AdjustOp(id) => id == 0
    case DataOp(id) => id !in k.states
    case OtherOp => false
  }

  predicate Full(list: seq<nat>, max: int) {
    max != 0 && |list| == max
  }

  /** Priority information about a stream that is worth remembering. */
  predicate Remembers(k: Known, id: nat) {
    id !in k.states && id > k.maxID && k.maxIdle != 0
  }

  /** The stream whose node the call removes. */
  function Evicted(k: Known, op: Op): Option<nat> {
    match op
    case CloseOp(id) => if k.maxClosed <= 0 then Some(id) else if Full(k.closed, k.maxClosed) then Some(k.closed[0]) else None
    case AdjustOp(id) => if Remembers(k, id) && Full(k.idle, k.maxIdle) then Some(k.idle[0]) else None
    case _ => None
  }

  function Retain(list: seq<nat>, max: int, id: nat): seq<nat> {
    (if Full(list, max) then list[1..] else list) + [id]
  }

  function Less(m: map<nat, NodeState>, v: Option<nat>): map<nat, NodeState> {
    if v.Some? then m - {v.value} else m
  }

  function Next(k: Known, op: Op): Known {
    match op
    case OpenOp(id) => k.(states := k.states[id := Open], maxID := if id > k.maxID then id else k.maxID)
    case CloseOp(id) =>
      k.(states := Less(k.states[id := Closed], Evicted(k, op)), closed := if k.maxClosed <= 0 then k.closed else Retain(k.closed, k.maxClosed, id))
    case AdjustOp(id) =>
      if Remembers(k, id) then k.(states := Less(k.states[id := Idle], Evicted(k, op)), idle := Retain(k.idle, k.maxIdle, id), maxID := id)
      else k
    case _ => k
  }

  // ---- Forgetting

  /** The call makes the scheduler forget a stream that is open, other than by closing it. */
  ghost predicate Forgets(k: Known, op: Op) {
    exists id :: id in k.states && k.states[id] == Open && op != CloseOp(id) && id !in Next(k, op).states
  }

  /** The call evicts a stream that is open. */
  predicate EvictsOpen(k: Known, op: Op) {
    var v := Evicted(k, op);
    v.Some? && v.value in k.states && k.states[v.value] == Open && op != CloseOp(v.value)
  }

  lemma ForgetsIff(k: Known, op: Op)
    ensures Forgets(k, op) <==> EvictsOpen(k, op)
  {
    if EvictsOpen(k, op) {
      var id := Evicted(k, op).value;
      assert id in k.states && k.states[id] == Open && op != CloseOp(id) && id !in Next(k, op).states;
    }
  }

  // ---- Callers that open and close each stream at most once

  /** The streams that a caller has opened, and those it has closed. */
  datatype Caller = Caller(began: set<nat>, ended: set<nat>) {
    /** The interface allows this call now. */
    predicate May(op: Op) {
      match op
      case OpenOp(id) => id > 0 && id !in began
      case CloseOp(id) => id in began - ended
      case AdjustOp(id) => id > 0
      case DataOp(id) => id in began - ended
      case OtherOp => true
    }

    function After(op: Op): Caller {
      match op
      case OpenOp(id) => this.(began := began + {id})
      case CloseOp(id) => this.(ended := ended + {id})
      case _ => this
    }
  }

  /** The state that a stream should be in. */
  function Expected(c: Caller, id: nat): NodeState {
    if id !in c.began then Idle else if id in c.ended then Closed else Open
  }

  /** What is known of a stream is right. */
  ghost predicate Agrees(k: Known, c: Caller) {
    && c.ended <= c.began && 0 in k.states
    && (forall id :: id in c.began ==> 0 < id <= k.maxID)
    && (forall id :: id in k.states && id > 0 ==> id <= k.maxID && k.states[id] == Expected(c, id))
    && (forall id :: id in k.closed ==> id in c.ended)
    && (forall id :: id in k.idle ==> 0 < id <= k.maxID)
  }

  /** The open streams that the scheduler does not know. */
  function Forgotten(k: Known, c: Caller): set<nat> {
    c.began - c.ended - k.states.Keys
  }

  /** The only call of such a caller that panics is one for an open stream that has been forgotten. */
  lemma RefusesIff(k: Known, c: Caller, op: Op)
    requires Agrees(k, c) && c.May(op)
    ensures Refuses(k, op) <==> (op.CloseOp? || op.DataOp?) && op.id in Forgotten(k, c)
  {
  }

  /** A call that does not panic makes the scheduler forget the open stream that it evicts, which is the oldest of
      the idle list, and no other; a stream once forgotten is not remembered again. */
  lemma Forgetting(k: Known, c: Caller, op: Op)
    requires Agrees(k, c) && c.May(op) && !Refuses(k, op)
    ensures Agrees(Next(k, op), c.After(op))
    ensures EvictsOpen(k, op) ==> op.AdjustOp? && |k.idle| == k.maxIdle > 0 && Evicted(k, op) == Some(k.idle[0])
    ensures Forgotten(Next(k, op), c.After(op)) == Forgotten(k, c) + if EvictsOpen(k, op) then {Evicted(k, op).value} else {}
  {
    hide Retain;
    RetainIn(k.closed, k.maxClosed, if op.CloseOp? then op.id else 0);
    RetainIn(k.idle, k.maxIdle, if op.AdjustOp? then op.id else 0);
    var t, d := Next(k, op), c.After(op);
    forall id: nat ensures id in Forgotten(t, d) <==> id in Forgotten(k, c) || (EvictsOpen(k, op) && id == Evicted(k, op).value) {
    }
  }

  lemma RetainIn(list: seq<nat>, max: int, id: nat)
    ensures forall x :: x in Retain(list, max, id) ==> x in list || x == id
    ensures Full(list, max) && max > 0 ==> list[0] in list
  {
  }

  // ---- Runs

  /** No call of the run panics. */
  predicate Passes(k: Known, ops: seq<Op>)
    decreases |ops|
  {
    ops == [] || (!Refuses(k, ops[0]) && Passes(Next(k, ops[0]), ops[1..]))
  }

  /** Some call evicts an open stream before any panics. */
  predicate LosesOne(k: Known, ops: seq<Op>)
    decreases |ops|
  {
    ops != [] && !Refuses(k, ops[0]) && (EvictsOpen(k, ops[0]) || LosesOne(Next(k, ops[0]), ops[1..]))
  }

  /** Each call is allowed, and at the end every stream opened has been closed. */
  predicate ClosesAll(c: Caller, ops: seq<Op>)
    decreases |ops|
  {
    if ops == [] then c.began == c.ended
    else c.May(ops[0]) && ClosesAll(c.After(ops[0]), ops[1..])
  }

  /** A caller that opens and closes each of its streams once meets a panic if and only if an open stream is
      evicted from the idle list. */
  lemma {:induction false} PassesIff(k: Known, c: Caller, ops: seq<Op>)
    requires Agrees(k, c) && ClosesAll(c, ops)
    ensures Passes(k, ops) <==> Forgotten(k, c) == {} && !LosesOne(k, ops)
    decreases |ops|
  {
    hide Agrees, Refuses, Next, EvictsOpen, Forgotten, Evicted;
    if ops == [] {
      NoneOpen(k, c);
    } else {
      RefusesIff(k, c, ops[0]);
      if !Refuses(k, ops[0]) {
        Forgetting(k, c, ops[0]);
        PassesIff(Next(k, ops[0]), c.After(ops[0]), ops[1..]);
      }
    }
  }

  lemma NoneOpen(k: Known, c: Caller)
    requires c.began == c.ended
    ensures Forgotten(k, c) == {}
  {
  }

  /** The state after a run, or after its calls up to the first panic. */
  function AfterAll(k: Known, ops: seq<Op>): Known
    decreases |ops|
  {
    if ops == [] || Refuses(k, ops[0]) then k else AfterAll(Next(k, ops[0]), ops[1..])
  }

  // ---- Runs for which nothing has to be evicted

  /** Every retained stream is still known. */
  predicate AllKnown(k: Known) {
    forall id :: id in k.closed + k.idle ==> id in k.states
  }

  /** There is room for the stream that the call makes the scheduler retain. */
  predicate HasRoom(k: Known, op: Op) {
    match op
    case CloseOp(_) => |k.closed| < k.maxClosed
    case AdjustOp(_) => k.maxIdle <= 0 || |k.idle| < k.maxIdle
    case _ => true
  }

  function Closes(ops: seq<Op>): nat {
    if ops == [] then 0 else (if ops[0].CloseOp? then 1 else 0) + Closes(ops[1..])
  }

  function Adjusts(ops: seq<Op>): nat {
    if ops == [] then 0 else (if ops[0].AdjustOp? then 1 else 0) + Adjusts(ops[1..])
  }

  predicate HasRoomFor(k: Known, ops: seq<Op>) {
    && AllKnown(k)
    && (Closes(ops) > 0 ==> |k.closed| + Closes(ops) <= k.maxClosed)
    && (k.maxIdle > 0 ==> |k.idle| + Adjusts(ops) <= k.maxIdle)
  }

  /** Then there is room for the first call, and for the others after it. */
  lemma RoomFirst(k: Known, ops: seq<Op>)
    requires ops != [] && HasRoomFor(k, ops)
    ensures AllKnown(k) && HasRoom(k, ops[0])
    ensures HasRoomFor(Next(k, ops[0]), ops[1..])
  {
    var t := Next(k, ops[0]);
    assert Evicted(k, ops[0]) == None;
    forall id | id in t.closed + t.idle ensures id in t.states { }
  }

  lemma FirstOp(k: Known, ops: seq<Op>)
    requires ops != []
    ensures AfterAll(k, ops) == if Refuses(k, ops[0]) then k else AfterAll(Next(k, ops[0]), ops[1..])
    ensures Passes(k, ops) <==> !Refuses(k, ops[0]) && Passes(Next(k, ops[0]), ops[1..])
  {
  }

  /** Priority information for a stream to come, which then opens, and for one more: with room for one idle stream
      the open stream is forgotten. */
  lemma OpenOneForgotten(k: Known)
    requires k == Known(map[0 := Open], [], [], 0, 10, 1)
    ensures var ops := [AdjustOp(3), OpenOp(3), AdjustOp(5), CloseOp(3)];
      ClosesAll(Caller({}, {}), ops) && LosesOne(k, ops) && !Passes(k, ops) && 3 !in AfterAll(k, ops).states
  {
    var ops := [AdjustOp(3), OpenOp(3), AdjustOp(5), CloseOp(3)];
    assert ops[1..] == [OpenOp(3), AdjustOp(5), CloseOp(3)];
    assert ops[1..][1..] == [AdjustOp(5), CloseOp(3)];
    assert ops[1..][1..][1..] == [CloseOp(3)];
    assert [CloseOp(3)][1..] == [];
    assert k.states.Keys == {0};
    PassesIff(k, Caller({}, {}), ops);
  }
}
