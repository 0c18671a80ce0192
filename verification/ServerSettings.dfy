/** The settings of a SETTINGS frame: which of them take effect, and what becomes of the send windows. */
module ServerSettings {
  import opened GoInt
  import opened FlowControl
  import opened ServerStates
  import opened ServerSteps

  const PROTOCOL: UInt32 := 1
  const FLOW_CONTROL: UInt32 := 3
  const STREAM_CLOSED: UInt32 := 5
  const FRAME_SIZE: UInt32 := 6
  const REFUSED_STREAM: UInt32 := 7

  /** What is wrong with a frame: nothing, something that costs a stream, or something that costs the connection. */
  datatype Problem = Fine | OfStream(id: nat, code: UInt32) | OfConnection(code: UInt32) {
    ghost function Streams(): set<nat> {
      if OfStream? then {id} else {}
    }
  }

  datatype Setting =
    | EnablePush(val: UInt32)
    | MaxConcurrentStreams(val: UInt32)
    | InitialWindowSize(val: UInt32)
    | MaxFrameSize(val: UInt32)
    | OtherSetting(val: UInt32)
  {
    function Check(): Problem {
      match this
      case EnablePush(v) => if v > 1 then OfConnection(PROTOCOL) else Fine
      case InitialWindowSize(v) => if v > MAX_INT32 then OfConnection(FLOW_CONTROL) else Fine
      case MaxFrameSize(v) => if v < 16384 || v > 0xFF_FFFF then OfConnection(PROTOCOL) else Fine
      case _ => Fine
    }
  }

  // ---- What settings come to, by what they say

  /** The initial window size once xs have taken effect. */
  function SizeAfter(size: Int32, xs: seq<Setting>): Int32 {
    if xs == [] then size
    else
      var x := xs[|xs| - 1];
      if x.InitialWindowSize? && x.val <= MAX_INT32 then x.val else SizeAfter(size, xs[..|xs| - 1])
  }

  function FrameSizeAfter(max: Int32, xs: seq<Setting>): Int32 {
    if xs == [] then max
    else
      var x := xs[|xs| - 1];
      if x.MaxFrameSize? && x.val <= 0xFF_FFFF then x.val else FrameSizeAfter(max, xs[..|xs| - 1])
  }

  /** What a change to the initial window size adds to the windows, after xs. */
  function GrowthAfter(size: Int32, xs: seq<Setting>, val: UInt32): Int32 {
    Wrap32(val - SizeAfter(size, xs))
  }

  /** A registered stream's send window once xs have taken effect on it, size being the initial size before. */
  function FlowAfter(flow: Int32, size: Int32, xs: seq<Setting>): Int32 {
    if xs == [] then flow
    else
      var x, f := xs[|xs| - 1], FlowAfter(flow, size, xs[..|xs| - 1]);
      if x.InitialWindowSize? then Wrap32(f + GrowthAfter(size, xs[..|xs| - 1], x.val)) else f
  }

  /** The setting after xs is a legal one, and if it is the initial window size every registered window accepts it. */
  ghost predicate TakesEffect(s: State, xs: seq<Setting>, x: Setting) {
    && x.Check() == Fine
    && (x.InitialWindowSize? ==> forall id :: id in s.reg.streams && id in s.reg.records ==> AcceptsAfter(s, xs, x.val, id))
  }

  ghost predicate AcceptsAfter(s: State, xs: seq<Setting>, val: UInt32, id: nat)
    requires id in s.reg.records
  {
    Accepts(FlowAfter(s.reg.records[id].flow, s.win.initialWindowSize, xs), GrowthAfter(s.win.initialWindowSize, xs, val))
  }

  /** The setting k is the first that does not take effect; if it is none, all do. */
  ghost predicate FirstRefused(s: State, xs: seq<Setting>, k: nat) {
    && k <= |xs| && (forall i :: 0 <= i < k ==> TakesEffect(s, xs[..i], xs[i]))
    && (k < |xs| ==> !TakesEffect(s, xs[..k], xs[k]))
  }

  /** t is s after the first k settings; a change of the initial size that was refused next had reached the streams moved. */
  ghost predicate Applied(s: State, t: State, xs: seq<Setting>, k: nat, moved: set<nat>)
    requires k <= |xs| && (moved != {} ==> k < |xs|)
  {
    && t == s.(reg := s.reg.(records := t.reg.records),
               win := s.win.(acct := t.win.acct, initialWindowSize := t.win.initialWindowSize, refused := t.win.refused,
                 maxFrameSize := FrameSizeAfter(s.win.maxFrameSize, xs[..k])))
    && t.reg.records.Keys == s.reg.records.Keys
    && (forall id :: id in s.reg.records && id in t.reg.records ==> t.reg.records[id] == s.reg.records[id].(flow := FlowIn(s, id, xs, k, moved)))
  }

  function FlowIn(s: State, id: nat, xs: seq<Setting>, k: nat, moved: set<nat>): Int32
    requires id in s.reg.records && k <= |xs| && (moved != {} ==> k < |xs|)
  {
    if id !in s.reg.streams then s.reg.records[id].flow
    else FlowAfter(s.reg.records[id].flow, s.win.initialWindowSize, if id in moved then xs[..k + 1] else xs[..k])
  }

  lemma AppliedNone(s: State, xs: seq<Setting>)
    ensures Applied(s, s, xs, 0, {}) && SizeAfter(s.win.initialWindowSize, xs[..0]) == s.win.initialWindowSize
  {
    assert xs[..0] == [];
  }

  lemma Front(xs: seq<Setting>, k: nat)
    requires k < |xs|
    ensures xs[..k + 1] != [] && xs[..k + 1][..|xs[..k + 1]| - 1] == xs[..k] && xs[..k + 1][|xs[..k + 1]| - 1] == xs[k]
  {
  }

  /** A setting that leaves the windows alone. */
  lemma AppliedPlain(s: State, t: State, u: State, xs: seq<Setting>, k: nat)
    requires k < |xs| && Applied(s, t, xs, k, {}) && xs[k].Check() == Fine && !xs[k].InitialWindowSize?
    requires u == t.(win := t.win.(maxFrameSize := if xs[k].MaxFrameSize? then xs[k].val else t.win.maxFrameSize))
    requires t.win.initialWindowSize == SizeAfter(s.win.initialWindowSize, xs[..k])
    ensures Applied(s, u, xs, k + 1, {}) && u.win.initialWindowSize == SizeAfter(s.win.initialWindowSize, xs[..k + 1])
  {
    Front(xs, k);
    forall id | id in s.reg.records ensures FlowIn(s, id, xs, k + 1, {}) == FlowIn(s, id, xs, k, {}) { }
  }

  /** A change of the initial size that has reached the streams outside todo. */
  lemma AppliedSize(s: State, t: State, u: State, xs: seq<Setting>, k: nat, todo: set<nat>)
    requires k < |xs| && Applied(s, t, xs, k, {}) && xs[k].InitialWindowSize? && xs[k].val <= MAX_INT32
    requires t.win.initialWindowSize == SizeAfter(s.win.initialWindowSize, xs[..k])
    requires Resizing(t, u.(win := u.win.(refused := t.win.refused)), todo, xs[k].val)
    ensures Applied(s, u, xs, k, s.reg.streams - todo)
    ensures todo == {} ==> Applied(s, u, xs, k + 1, {}) && u.win.initialWindowSize == SizeAfter(s.win.initialWindowSize, xs[..k + 1])
  {
    hide Accepts, Wrap32;
    Front(xs, k);
    var moved := s.reg.streams - todo;
    forall id | id in s.reg.records ensures u.reg.records[id] == s.reg.records[id].(flow := FlowIn(s, id, xs, k, moved)) {
      SizeFlow(s, t, xs, k, id);
    }
    if todo == {} {
      forall id | id in s.reg.records ensures FlowIn(s, id, xs, k + 1, {}) == FlowIn(s, id, xs, k, moved) { }
    }
  }

  lemma SizeFlow(s: State, t: State, xs: seq<Setting>, k: nat, id: nat)
    requires k < |xs| && Applied(s, t, xs, k, {}) && xs[k].InitialWindowSize? && xs[k].val <= MAX_INT32
    requires t.win.initialWindowSize == SizeAfter(s.win.initialWindowSize, xs[..k]) && id in s.reg.records
    ensures id in t.reg.records && Growth(t, xs[k].val) == GrowthAfter(s.win.initialWindowSize, xs[..k], xs[k].val)
    ensures id in s.reg.streams ==>
      && t.reg.records[id].flow == FlowAfter(s.reg.records[id].flow, s.win.initialWindowSize, xs[..k])
      && Resized(t.reg.records[id], Growth(t, xs[k].val)) == s.reg.records[id].(flow := FlowAfter(s.reg.records[id].flow, s.win.initialWindowSize, xs[..k + 1]))
    ensures id !in s.reg.streams ==> t.reg.records[id] == s.reg.records[id]
  {
    hide Wrap32;
    Front(xs, k);
  }

  /** Whether all windows accept a change depends on the state before and the settings alone. */
  lemma AcceptIff(s: State, t: State, xs: seq<Setting>, k: nat)
    requires k < |xs| && Applied(s, t, xs, k, {}) && xs[k].InitialWindowSize? && xs[k].val <= MAX_INT32
    requires t.win.initialWindowSize == SizeAfter(s.win.initialWindowSize, xs[..k])
    ensures TakesEffect(s, xs[..k], xs[k]) <==> AllAccept(t, xs[k].val)
  {
    hide Accepts, Wrap32, FlowAfter;
    forall id | id in s.reg.streams && id in s.reg.records
      ensures id in t.reg.records && (AcceptsAfter(s, xs[..k], xs[k].val, id) <==> Accepts(t.reg.records[id].flow, Growth(t, xs[k].val)))
    {
      SizeFlow(s, t, xs, k, id);
    }
  }

  /** The setting k is the first that is refused. If it is a new initial size, the windows moved had accepted it
      before one did not. */
  ghost predicate Stopped(s: State, xs: seq<Setting>, k: nat, moved: set<nat>) {
    && k < |xs| && FirstRefused(s, xs, k)
    && (moved != {} ==> xs[k].InitialWindowSize? && xs[k].Check() == Fine && exists id :: id in s.reg.streams - moved)
    && forall id :: id in moved ==> id in s.reg.streams && id in s.reg.records && AcceptsAfter(s, xs[..k], xs[k].val, id)
  }

  /** t is s after the setting x, which is refused unless fine; a new initial size has not reached the streams todo. */
  ghost predicate SettingDone(s: State, t: State, x: Setting, fine: bool, todo: set<nat>) {
    if x.Check() != Fine then !fine && t == s
    else if x.InitialWindowSize? then
      && Resizing(s, t.(win := t.win.(refused := s.win.refused)), todo, x.val)
      && (fine <==> AllAccept(s, x.val)) && (if fine then todo == {} else exists id :: id in todo && id in s.reg.streams)
    else fine && t == s.(win := s.win.(maxFrameSize := if x.MaxFrameSize? then x.val else s.win.maxFrameSize))
  }

  function Reached(s: State, x: Setting, todo: set<nat>, fine: bool): set<nat> {
    if !fine && x.InitialWindowSize? && x.Check() == Fine then s.reg.streams - todo else {}
  }

  /** The next setting: it is refused exactly if the state before all of them and the settings so far say so. */
  lemma SettingApplied(s: State, t: State, u: State, xs: seq<Setting>, k: nat, fine: bool, todo: set<nat>)
    requires k < |xs| && Applied(s, t, xs, k, {}) && SettingDone(t, u, xs[k], fine, todo) && s.reg.streams <= s.reg.records.Keys
    requires t.win.initialWindowSize == SizeAfter(s.win.initialWindowSize, xs[..k])
    ensures fine <==> TakesEffect(s, xs[..k], xs[k])
    ensures fine ==> Applied(s, u, xs, k + 1, {}) && u.win.initialWindowSize == SizeAfter(s.win.initialWindowSize, xs[..k + 1])
    ensures !fine ==> Applied(s, u, xs, k, Reached(s, xs[k], todo, fine))
    ensures !fine && (forall i :: 0 <= i < k ==> TakesEffect(s, xs[..i], xs[i])) ==> Stopped(s, xs, k, Reached(s, xs[k], todo, fine))
  {
    hide Accepts, Wrap32, FlowAfter, SizeAfter, FrameSizeAfter, AllAccept, Resizing, Growth, AcceptsAfter, Applied;
    var x := xs[k];
    if x.Check() == Fine && x.InitialWindowSize? {
      AcceptIff(s, t, xs, k);
      AppliedSize(s, t, u, xs, k, todo);
      ReachedAccept(s, t, u, xs, k, todo);
      AppliedRegistry(s, t, xs, k);
      if !fine {
        var id :| id in todo && id in t.reg.streams;
        assert id in s.reg.streams - Reached(s, x, todo, fine);
      }
    } else if x.Check() == Fine {
      AppliedPlain(s, t, u, xs, k);
    }
  }

  lemma AppliedRegistry(s: State, t: State, xs: seq<Setting>, k: nat)
    requires k <= |xs| && Applied(s, t, xs, k, {})
    ensures t.reg.streams == s.reg.streams && t.out == s.out && t.away == s.away && t.reg.records.Keys == s.reg.records.Keys
  {
  }

  lemma ReachedAccept(s: State, t: State, u: State, xs: seq<Setting>, k: nat, todo: set<nat>)
    requires k < |xs| && Applied(s, t, xs, k, {}) && xs[k].InitialWindowSize? && xs[k].val <= MAX_INT32 && s.reg.streams <= s.reg.records.Keys
    requires t.win.initialWindowSize == SizeAfter(s.win.initialWindowSize, xs[..k])
    requires Resizing(t, u.(win := u.win.(refused := t.win.refused)), todo, xs[k].val)
    ensures forall id :: id in s.reg.streams - todo ==> AcceptsAfter(s, xs[..k], xs[k].val, id)
  {
    hide Accepts, Wrap32, FlowAfter;
    forall id | id in s.reg.streams - todo ensures AcceptsAfter(s, xs[..k], xs[k].val, id) { SizeFlow(s, t, xs, k, id); }
  }

  // ---- Frames that a refused SETTINGS frame leaves waiting

  /** The first frame queued for id could be sent under the settings that have taken effect. */
  ghost predicate Freed(s: State, id: nat, xs: seq<Setting>, k: nat, moved: set<nat>)
    requires k <= |xs| && (moved != {} ==> k < |xs|)
  {
    && id in s.queues && s.queues[id] != []
    && var r := s.queues[id][0];
      r.Metered() ==>
        && r.stream in s.reg.records && s.win.flow > 0 && FrameSizeAfter(s.win.maxFrameSize, xs[..k]) > 0
        && FlowIn(s, r.stream, xs, k, moved) > 0
  }

  ghost predicate Frees(s: State, xs: seq<Setting>, k: nat, moved: set<nat>)
    requires k <= |xs| && (moved != {} ==> k < |xs|)
  {
    exists id :: Freed(s, id, xs, k, moved)
  }

  /** On a settled connection nothing more can be sent after k settings than before. */
  ghost predicate StaysSettled(s: State, xs: seq<Setting>, k: nat, moved: set<nat>)
    requires k <= |xs| && (moved != {} ==> k < |xs|)
  {
    s.out.writingFrameAsync || Mute(s) || !Frees(s, xs, k, moved)
  }

  lemma StoppedAfter(s: State, t: State, xs: seq<Setting>, k: nat, moved: set<nat>)
    requires Stopped(s, xs, k, moved) && Applied(s, t, xs, k, moved)
    ensures k < |xs| && t.out == s.out && t.away == s.away
    ensures Settled(s) ==> (Settled(t) <==> StaysSettled(s, xs, k, moved))
  {
    hide Applied, Settled, Frees, FirstRefused;
    if Settled(s) { StalledIff(s, t, xs, k, moved); }
    assert t.out == s.out && t.away == s.away by { AppliedSides(s, t, xs, k, moved); }
  }

  lemma AppliedSides(s: State, t: State, xs: seq<Setting>, k: nat, moved: set<nat>)
    requires k < |xs| && Applied(s, t, xs, k, moved)
    ensures t.out == s.out && t.away == s.away
  {
  }

  /** A settled connection on which the settings have been applied, and nothing scheduled, has something left to
      send if and only if they have freed a frame. */
  lemma StalledIff(s: State, t: State, xs: seq<Setting>, k: nat, moved: set<nat>)
    requires k <= |xs| && (moved != {} ==> k < |xs|) && Settled(s) && Applied(s, t, xs, k, moved)
    ensures Settled(t) <==> StaysSettled(s, xs, k, moved)
  {
    hide FlowIn, FrameSizeAfter;
    forall id ensures (id in t.queues && Ready(t, id)) <==> Freed(s, id, xs, k, moved) { }
    if id :| id in t.queues && Ready(t, id) { assert Freed(s, id, xs, k, moved); }
    if id :| Freed(s, id, xs, k, moved) { assert id in t.queues && Ready(t, id); }
  }
}
