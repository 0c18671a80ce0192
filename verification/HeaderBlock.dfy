/** Header blocks: split over a HEADERS (or PUSH_PROMISE) frame and CONTINUATION frames, put together again,
    and decoded into a header list (sections 4.3, 6.10 and 8.1.2 of RFC 7540). */
module HeaderBlocks {
  import opened GoInt
  import opened Options
  import opened BigEndian
  import opened Frames
  import opened Framers

  // ---- Splitting

  /** The frame that a header block starts with. */
  datatype Lead = Response(endStream: bool) | Promise(promiseID: UInt32)

  const NO_PRIORITY := PriorityParam(0, false, 0)

  function LeadMessage(lead: Lead, id: UInt32, fragment: Bytes, last: bool): Message {
    match lead
    case Response(endStream) => Headers(id, fragment, endStream, last, 0, NO_PRIORITY)
    case Promise(promiseID) => PushPromise(id, promiseID, fragment, last, 0)
  }

  function Chunk(block: Bytes, max: nat): Bytes {
    if |block| > max then block[..max] else block
  }

  /** The CONTINUATION frames that carry the rest of a block. */
  function Continuations(id: UInt32, block: Bytes, max: nat): seq<Message>
    requires max > 0
  {
    if block == [] then []
    else
      var frag := Chunk(block, max);
      [Continuation(id, block[|frag|..] == [], frag)] + Continuations(id, block[|frag|..], max)
  }

  function Split(lead: Lead, id: UInt32, block: Bytes, max: nat): seq<Message>
    requires max > 0
  {
    if block == [] then []
    else
      var frag := Chunk(block, max);
      [LeadMessage(lead, id, frag, block[|frag|..] == [])] + Continuations(id, block[|frag|..], max)
  }

  ghost predicate Writable(m: Message) {
    Typed(m) && Outcome(m) == None
  }

  function EncodeAll(ms: seq<Message>): Bytes
    requires forall m :: m in ms ==> Writable(m)
  {
    if ms == [] then [] else (assert Writable(ms[0]); Encode(ms[0]) + EncodeAll(ms[1..]))
  }

  lemma {:induction false} ContinuationsWritable(id: UInt32, block: Bytes, max: nat)
    requires ValidStreamID(id) && 0 < max < 0x100_0000
    ensures forall m :: m in Continuations(id, block, max) ==> Writable(m) && m.Continuation? && 0 < |m.fragment| <= max
    decreases |block|
  {
    if block != [] {
      ContinuationsWritable(id, block[|Chunk(block, max)|..], max);
    }
  }

  lemma SplitWritable(lead: Lead, id: UInt32, block: Bytes, max: nat)
    requires ValidStreamID(id) && 0 < max <= 0xFF_0000 && (lead.Promise? ==> ValidStreamID(lead.promiseID))
    ensures forall m :: m in Split(lead, id, block, max) ==> Writable(m)
  {
    if block != [] {
      ContinuationsWritable(id, block[|Chunk(block, max)|..], max);
      LeadWritable(lead, id, Chunk(block, max), block[|Chunk(block, max)|..] == []);
    }
  }

  lemma LeadWritable(lead: Lead, id: UInt32, fragment: Bytes, last: bool)
    requires ValidStreamID(id) && |fragment| <= 0xFF_0000 && (lead.Promise? ==> ValidStreamID(lead.promiseID))
    ensures Writable(LeadMessage(lead, id, fragment, last))
    ensures lead.Response? ==> |Payload(LeadMessage(lead, id, fragment, last))| == |fragment|
  {
  }

  function PartOf(m: Message): Bytes {
    match m
    case Headers(_, fragment, _, _, _, _) => fragment
    case PushPromise(_, _, fragment, _, _) => fragment
    case Continuation(_, _, fragment) => fragment
    case _ => []
  }

  function PartsOf(ms: seq<Message>): Bytes {
    if ms == [] then [] else PartOf(ms[0]) + PartsOf(ms[1..])
  }

  ghost predicate EndsBlock(m: Message) {
    (m.Headers? || m.PushPromise? || m.Continuation?) && m.endHeaders
  }

  lemma {:induction false} ContinuationsCarry(id: UInt32, block: Bytes, max: nat)
    requires max > 0
    ensures var ms := Continuations(id, block, max);
      PartsOf(ms) == block && (forall i :: 0 <= i < |ms| ==> (EndsBlock(ms[i]) <==> i == |ms| - 1))
    decreases |block|
  {
    if block != [] {
      var frag := Chunk(block, max);
      var rest := block[|frag|..];
      ContinuationsCarry(id, rest, max);
      var tail := Continuations(id, rest, max);
      assert rest != [] ==> tail != [];
      OneMore(Continuation(id, rest == [], frag), tail);
      assert block == frag + rest;
    }
  }

  lemma OneMore(m: Message, tail: seq<Message>)
    requires EndsBlock(m) <==> tail == []
    requires forall i :: 0 <= i < |tail| ==> (EndsBlock(tail[i]) <==> i == |tail| - 1)
    ensures var ms := [m] + tail;
      PartsOf(ms) == PartOf(m) + PartsOf(tail) && forall i :: 0 <= i < |ms| ==> (EndsBlock(ms[i]) <==> i == |ms| - 1)
  {
    hide EndsBlock, PartOf;
    assert ([m] + tail)[1..] == tail;
  }

  /** The frames carry exactly the block, in order, and only the last one ends it. */
  lemma SplitCarries(lead: Lead, id: UInt32, block: Bytes, max: nat)
    requires max > 0
    ensures var ms := Split(lead, id, block, max);
      PartsOf(ms) == block && (forall i :: 0 <= i < |ms| ==> (EndsBlock(ms[i]) <==> i == |ms| - 1))
  {
    if block != [] {
      var frag := Chunk(block, max);
      var rest := block[|frag|..];
      ContinuationsCarry(id, rest, max);
      assert block == frag + rest;
      OneMore(LeadMessage(lead, id, frag, rest == []), Continuations(id, rest, max));
    }
  }

  /** The frame that carries the next piece of a block. */
  function Piece(first: bool, lead: Lead, id: UInt32, fragment: Bytes, last: bool): Message {
    if first then LeadMessage(lead, id, fragment, last) else Continuation(id, last, fragment)
  }

  /** The frames that carry a block or the rest of one. */
  function Pieces(first: bool, lead: Lead, id: UInt32, block: Bytes, max: nat): seq<Message>
    requires max > 0
  {
    if first then Split(lead, id, block, max) else Continuations(id, block, max)
  }

  method WritePiece(fr: Framer, first: bool, lead: Lead, id: UInt32, fragment: Bytes, last: bool)
    requires Writable(Piece(first, lead, id, fragment, last))
    modifies fr`w, fr`wbuf
    ensures fr.w == old(fr.w) + Encode(Piece(first, lead, id, fragment, last))
  {
    hide Encode, Payload, Refusal, Typed;
    if first {
      match lead {
        case Response(endStream) => var _ := fr.WriteHeaders(id, fragment, endStream, last, 0, NO_PRIORITY);
        case Promise(promiseID) => var _ := fr.WritePushPromise(id, promiseID, fragment, last, 0);
      }
    } else {
      var _ := fr.WriteContinuation(id, last, fragment);
    }
  }

  lemma PiecesStep(first: bool, lead: Lead, id: UInt32, block: Bytes, max: nat, w: Bytes)
    requires max > 0 && block != [] && forall m :: m in Pieces(first, lead, id, block, max) ==> Writable(m)
    ensures var frag := Chunk(block, max);
      var left := block[|frag|..];
      && Writable(Piece(first, lead, id, frag, left == []))
      && (forall m :: m in Pieces(false, lead, id, left, max) ==> Writable(m))
      && w + EncodeAll(Pieces(first, lead, id, block, max))
        == (w + Encode(Piece(first, lead, id, frag, left == []))) + EncodeAll(Pieces(false, lead, id, left, max))
  {
    hide Encode, Payload, Refusal, Typed, Writable;
    var ms := Pieces(first, lead, id, block, max);
    var frag := Chunk(block, max);
    assert ms[0] == Piece(first, lead, id, frag, block[|frag|..] == []) && ms[0] in ms;
    assert ms[1..] == Pieces(false, lead, id, block[|frag|..], max);
  }

  /** Writes a header block in frames of at most max bytes. An empty block writes nothing at all. */
  method WriteHeaderBlock(fr: Framer, lead: Lead, id: UInt32, block: Bytes, max: nat)
    requires ValidStreamID(id) && 0 < max <= 0xFF_0000 && (lead.Promise? ==> ValidStreamID(lead.promiseID))
    modifies fr`w, fr`wbuf
    ensures (forall m :: m in Split(lead, id, block, max) ==> Writable(m)) && fr.w == old(fr.w) + EncodeAll(Split(lead, id, block, max))
  {
    hide Encode, Writable, Split, Continuations;
    SplitWritable(lead, id, block, max);
    var first, headerBlock := true, block;
    while |headerBlock| > 0
      invariant first ==> headerBlock == block
      invariant forall m :: m in Pieces(first, lead, id, headerBlock, max) ==> Writable(m)
      invariant fr.w + EncodeAll(Pieces(first, lead, id, headerBlock, max)) == old(fr.w) + EncodeAll(Split(lead, id, block, max))
      decreases |headerBlock|
    {
      PiecesStep(first, lead, id, headerBlock, max, fr.w);
      var frag := headerBlock;
      if |frag| > max {
        frag := frag[..max];
      }
      headerBlock := headerBlock[|frag|..];
      WritePiece(fr, first, lead, id, frag, |headerBlock| == 0);
      first := false;
    }
    NothingLeft(first, lead, id, max);
  }

  lemma NothingLeft(first: bool, lead: Lead, id: UInt32, max: nat)
    requires max > 0
    ensures Pieces(first, lead, id, [], max) == []
  {
  }

  // ---- Putting together

  datatype Collected = Done(block: Bytes, rest: Bytes) | Failed(e: ReadError, rest: Bytes)

  /** What the CONTINUATION frames of the stream last add to acc. */
  function Collect(s: Bytes, last: nat, max: nat, acc: Bytes): Collected
    requires last != 0
    decreases |s|
  {
    var (p, l, rest) := Next(s, last, max);
    match p
    case Bad(e) => Failed(e, rest)
    case Ok(f) =>
      OnlyContinuation(s, last, max);
      if l == 0 then Done(acc + f.fragment, rest) else Collect(rest, l, max, acc + f.fragment)
  }

  /** The CONTINUATION frames of a block, read back, add the block. */
  lemma {:induction false} ContinuationsCollect(id: UInt32, block: Bytes, max: nat, rest: Bytes, limit: nat, acc: Bytes)
    requires ValidStreamID(id) && 0 < max <= limit < 0x100_0000 && block != []
    requires forall m :: m in Continuations(id, block, max) ==> Writable(m)
    ensures Collect(EncodeAll(Continuations(id, block, max)) + rest, id, limit, acc) == Done(acc + block, rest)
    decreases |block|
  {
    hide Encode, Decode, Received, Has;
    var frag := Chunk(block, max);
    var left := block[|frag|..];
    var m := Continuation(id, left == [], frag);
    var tail := Continuations(id, left, max);
    var ms := Continuations(id, block, max);
    assert ms[0] == m && ms[1..] == tail && Writable(m);
    var s := EncodeAll(ms) + rest;
    assert s == Encode(m) + (EncodeAll(tail) + rest);
    ReadsBack(m, EncodeAll(tail) + rest, limit) by { ContinuationsWritable(id, block, max); }
    ContinuationHeader(m);
    if left == [] {
      assert EncodeAll(tail) + rest == rest;
      assert acc + block == acc + frag;
    } else {
      ContinuationsCollect(id, left, max, rest, limit, acc + frag);
      assert acc + frag + left == acc + block by { assert block == frag + left; }
    }
  }

  lemma ContinuationHeader(m: Message)
    requires m.Continuation? && ValidStreamID(m.id)
    ensures Received(m) == ContinuationFrame(Header(CONTINUATION, Flag(m.endHeaders, 4), |m.fragment|, m.id), m.fragment)
    ensures Has(Flag(m.endHeaders, 4), 4) <==> m.endHeaders
    ensures Readable(m) && Refusal(m) == None && Payload(m) == m.fragment
  {
  }

  lemma LeadHeader(id: UInt32, endStream: bool, frag: Bytes, last: bool)
    requires ValidStreamID(id) && frag != []
    ensures var m := LeadMessage(Response(endStream), id, frag, last);
      && Refusal(m) == None && Typed(m) && Readable(m) && |Payload(m)| == |frag|
      && Received(m) == HeadersFrame(Header(HEADERS, Flag(endStream, 1) + Flag(last, 4), |frag|, id), NO_PRIORITY, frag)
      && (Has(Flag(endStream, 1) + Flag(last, 4), 4) <==> last)
  {
    FlagsBack(endStream, last, false, false);
    var m := LeadMessage(Response(endStream), id, frag, last);
    assert Payload(m) == frag;
  }

  /** The HEADERS frame of a block is read, and unless it ends the block a CONTINUATION has to follow. */
  lemma LeadReadsBack(id: UInt32, endStream: bool, frag: Bytes, last: bool, more: Bytes, limit: nat)
    requires ValidStreamID(id) && frag != [] && |frag| <= limit < 0x100_0000 && Writable(LeadMessage(Response(endStream), id, frag, last))
    ensures var (p, l, r) := Next(Encode(LeadMessage(Response(endStream), id, frag, last)) + more, 0, limit);
      && p.Ok? && p.f.HeadersFrame? && p.f.h.streamID == id && (Has(p.f.h.flags, 4) <==> last) && p.f.fragment == frag
      && r == more && (l == if last then 0 else id) && id != 0
  {
    hide Encode, Decode, Received, Has, Payload, Refusal, Typed, Readable;
    LeadHeader(id, endStream, frag, last);
    ReadsBack(LeadMessage(Response(endStream), id, frag, last), more, limit);
  }

  lemma SplitFront(lead: Lead, id: UInt32, block: Bytes, max: nat)
    requires max > 0 && block != []
    ensures var ms := Split(lead, id, block, max);
      var frag := Chunk(block, max);
      var left := block[|frag|..];
      0 < |frag| <= max && block == frag + left && (left == [] ==> Continuations(id, left, max) == [])
      && ms == [LeadMessage(lead, id, frag, left == [])] + Continuations(id, left, max)
  {
  }

  lemma FrontWritten(m: Message, tail: seq<Message>, rest: Bytes)
    requires forall x :: x in [m] + tail ==> Writable(x)
    ensures Writable(m) && (forall x :: x in tail ==> Writable(x)) && EncodeAll([m] + tail) + rest == Encode(m) + (EncodeAll(tail) + rest)
    ensures tail == [] ==> EncodeAll(tail) + rest == rest
  {
    hide Encode, Writable;
    assert ([m] + tail)[0] == m && ([m] + tail)[1..] == tail;
    assert m in [m] + tail;
  }

  /** A header block that is not empty, split into frames within the reader's limit, is read as a HEADERS
      frame followed, in the permitted order, by frames that complete exactly that block. */
  lemma BlockReadsBack(id: UInt32, endStream: bool, block: Bytes, max: nat, rest: Bytes, limit: nat)
    requires ValidStreamID(id) && 0 < max <= limit < 0x100_0000 && max <= 0xFF_0000 && block != []
    requires forall m :: m in Split(Response(endStream), id, block, max) ==> Writable(m)
    ensures var (p, l, r) := Next(EncodeAll(Split(Response(endStream), id, block, max)) + rest, 0, limit);
      && p.Ok? && p.f.HeadersFrame? && p.f.h.streamID == id && (Has(p.f.h.flags, 4) <==> l == 0)
      && if l == 0 then p.f.fragment == block && r == rest else l == id && Collect(r, id, limit, p.f.fragment) == Done(block, rest)
  {
    hide *;
    SplitFront(Response(endStream), id, block, max);
    var frag := Chunk(block, max);
    var left := block[|frag|..];
    var tail := Continuations(id, left, max);
    FrontWritten(LeadMessage(Response(endStream), id, frag, left == []), tail, rest);
    LeadReadsBack(id, endStream, frag, left == [], EncodeAll(tail) + rest, limit);
    if left != [] { ContinuationsCollect(id, left, max, rest, limit, frag); }
  }

  /** The order check forgets that a PUSH_PROMISE has not ended its header block: the frame that continues
      it is refused. */
  lemma PromiseNotContinued(m: Message, c: Message)
    requires m.PushPromise? && Typed(m) && Refusal(m) == None && c.Continuation? && Refusal(c) == None
    ensures Ordered(0, Received(m).h) == Some(0) && Ordered(0, Received(c).h) == None
  {
  }

  /** So a promised request is read as it was written if and only if its header block fits into one frame. */
  lemma PromiseReadable(id: UInt32, promiseID: UInt32, block: Bytes, max: nat)
    requires ValidStreamID(id) && ValidStreamID(promiseID) && block != [] && 0 < max
    ensures var ms := Split(Promise(promiseID), id, block, max);
      (forall i :: 0 <= i < |ms| ==> Typed(ms[i]) && Refusal(ms[i]) == None && Ordered(0, Received(ms[i]).h) == Some(0)) <==> |block| <= max
  {
    var ms := Split(Promise(promiseID), id, block, max);
    var frag := Chunk(block, max);
    PromiseNotContinued(ms[0], Continuation(id, true, []));
    if |block| > max {
      assert Continuations(id, block[max..], max) != [];
      PromiseNotContinued(ms[0], ms[1]);
    } else {
      assert ms == [ms[0]];
    }
  }
}
