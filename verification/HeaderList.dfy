/** The header list of a request or response: what is kept of the fields the decoder emits, and which
    pseudo-header fields are allowed (section 8.1.2 of RFC 7540). */
module HeaderLists {
  import opened GoInt
  import opened Options
  import opened Frames
  import opened Framers
  import opened HeaderBlocks

  datatype Field = Field(name: string, value: string) {
    predicate IsPseudo() {
      name != [] && name[0] == ':'
    }

    /** The size the decoder counts for a field, in a uint32. */
    function Size(): UInt32 {
      WrapU32(|name| + |value| + 32)
    }
  }

  /** What the server asks of names and values of regular fields, and the decoder of header blocks: which
      beginnings of a block it accepts, which blocks are complete, and the fields of a block. */
  datatype Codec = Codec(validName: string -> bool, validValue: string -> bool,
    accepts: Bytes -> bool, complete: Bytes -> bool, fields: Bytes -> seq<Field>)

  function Total(fs: seq<Field>): nat {
    if fs == [] then 0 else Total(fs[..|fs| - 1]) + fs[|fs| - 1].Size()
  }

  predicate HasRegular(fs: seq<Field>) {
    exists i :: 0 <= i < |fs| && !fs[i].IsPseudo()
  }

  /** The field f may not follow the fields before it. */
  predicate Unfit(before: seq<Field>, f: Field, codec: Codec) {
    !codec.validValue(f.value) || if f.IsPseudo() then HasRegular(before) else !codec.validName(f.name)
  }

  /** Every field is valid where it stands; so the pseudo fields come first. */
  ghost predicate Good(fs: seq<Field>, codec: Codec) {
    forall i :: 0 <= i < |fs| ==> !Unfit(fs[..i], fs[i], codec)
  }

  lemma PseudosFirst(fs: seq<Field>, codec: Codec, i: nat, j: nat)
    requires Good(fs, codec) && i < j < |fs| && fs[j].IsPseudo()
    ensures fs[i].IsPseudo()
  {
    assert !Unfit(fs[..j], fs[j], codec);
    assert fs[..j][i] == fs[i];
  }

  class MetaHeaders {
    const codec: Codec
    const max: UInt32
    var fields: seq<Field>
    var truncated: bool
    var remainSize: UInt32
    var sawRegular: bool
    var invalid: bool
    var emitEnabled: bool
    /** Everything the decoder has decoded. */
    ghost var decoded: seq<Field>

    /** What is kept is a beginning of what was decoded, good and within the limit; it stops only before a
        bad field or before one that is too large. */
    ghost predicate Valid()
      reads this
    {
      && fields <= decoded && Good(fields, codec) && Total(fields) + remainSize == max
      && (emitEnabled <==> !invalid && !truncated)
      && (emitEnabled ==> fields == decoded && (sawRegular <==> HasRegular(fields)))
      && (!emitEnabled ==> |fields| < |decoded|)
      && (invalid ==> !truncated && Unfit(fields, decoded[|fields|], codec))
      && (truncated ==> !Unfit(fields, decoded[|fields|], codec) && decoded[|fields|].Size() > remainSize)
    }

    constructor (codec: Codec, max: UInt32)
      ensures Valid() && decoded == [] && this.codec == codec && this.max == max
    {
      this.codec, this.max := codec, max;
      fields, truncated, remainSize, sawRegular, invalid, emitEnabled, decoded := [], false, max, false, false, true, [];
    }

    /** Called with each field that is decoded, while that is enabled. */
    method Emit(f: Field)
      requires Valid()
      modifies this
      ensures Valid() && decoded == old(decoded) + [f]
    {
      hide Good, Total, HasRegular;
      decoded := decoded + [f];
      if !emitEnabled {
        return;
      }
      ghost var before := fields;
      if !codec.validValue(f.value) {
        invalid := true;
      }
      if f.IsPseudo() {
        if sawRegular {
          invalid := true;
        }
      } else {
        sawRegular := true;
        if !codec.validName(f.name) {
          invalid := true;
        }
      }
      if invalid {
        emitEnabled := false;
        return;
      }
      var size := f.Size();
      if size > remainSize {
        emitEnabled := false;
        truncated := true;
        return;
      }
      remainSize := remainSize - size;
      fields := fields + [f];
      Kept(before, f, codec);
    }
  }

  lemma Kept(fs: seq<Field>, f: Field, codec: Codec)
    requires Good(fs, codec) && !Unfit(fs, f, codec)
    ensures Good(fs + [f], codec) && Total(fs + [f]) == Total(fs) + f.Size()
    ensures HasRegular(fs + [f]) <==> HasRegular(fs) || !f.IsPseudo()
  {
    var gs := fs + [f];
    assert gs[..|fs|] == fs;
    forall i | 0 <= i < |gs| ensures !Unfit(gs[..i], gs[i], codec) {
      if i < |fs| { assert gs[..i] == fs[..i]; }
    }
    if HasRegular(gs) {
      var i :| 0 <= i < |gs| && !gs[i].IsPseudo();
      if i < |fs| { assert !fs[i].IsPseudo(); }
    }
    if HasRegular(fs) {
      var i :| 0 <= i < |fs| && !fs[i].IsPseudo();
      assert !gs[i].IsPseudo();
    }
    if !f.IsPseudo() { assert !gs[|fs|].IsPseudo(); }
  }

  // ---- Pseudo-header fields

  predicate RequestPseudo(name: string) {
    name == ":method" || name == ":path" || name == ":scheme" || name == ":authority"
  }

  /** Known names, none of them twice, and not both of a request and of a response. */
  ghost predicate PseudosOk(pf: seq<Field>) {
    && (forall i :: 0 <= i < |pf| ==> RequestPseudo(pf[i].name) || pf[i].name == ":status")
    && (forall i, j :: 0 <= i < j < |pf| ==> pf[i].name != pf[j].name)
    && !((exists i :: 0 <= i < |pf| && RequestPseudo(pf[i].name)) && exists j :: 0 <= j < |pf| && pf[j].name == ":status")
  }

  /** The pseudo fields that a list begins with. */
  method PseudoFields(fs: seq<Field>) returns (n: nat)
    ensures n <= |fs| && (forall i :: 0 <= i < n ==> fs[i].IsPseudo()) && (n < |fs| ==> !fs[n].IsPseudo())
  {
    for i := 0 to |fs|
      invariant forall k :: 0 <= k < i ==> fs[k].IsPseudo()
    {
      if !fs[i].IsPseudo() {
        return i;
      }
    }
    return |fs|;
  }

  method CheckPseudos(pf: seq<Field>) returns (ok: bool)
    ensures ok <==> PseudosOk(pf)
  {
    var isRequest, isResponse := false, false;
    for i := 0 to |pf|
      invariant forall k :: 0 <= k < i ==> RequestPseudo(pf[k].name) || pf[k].name == ":status"
      invariant forall k, l :: 0 <= k < l < i ==> pf[k].name != pf[l].name
      invariant isRequest <==> exists k :: 0 <= k < i && RequestPseudo(pf[k].name)
      invariant isResponse <==> exists k :: 0 <= k < i && pf[k].name == ":status"
    {
      if RequestPseudo(pf[i].name) {
        isRequest := true;
      } else if pf[i].name == ":status" {
        isResponse := true;
      } else {
        return false;
      }
      for j := 0 to i
        invariant forall k :: 0 <= k < j ==> pf[k].name != pf[i].name
      {
        if pf[i].name == pf[j].name {
          return false;
        }
      }
    }
    ok := !(isRequest && isResponse);
  }

  // ---- Reading a header block

  datatype MetaResult =
    | Meta(h: Header, fields: seq<Field>, truncated: bool)
    | MetaError(e: ReadError)

  const COMPRESSION_ERROR: nat := 9

  /** Every beginning of block that ends with a frame is accepted by the decoder. */
  datatype Fed = Fed(block: Bytes, error: Option<ReadError>)

  /** Hands the decoder the fragment of hf and those of the CONTINUATION frames up to the end of the block. */
  method Feed(fr: Framer, hf: Frame, codec: Codec) returns (fed: Fed)
    requires hf.HeadersFrame? && fr.lastHeaderStream == (if Has(hf.h.flags, 4) then 0 else hf.h.streamID) && hf.h.streamID > 0
    modifies fr`r, fr`lastHeaderStream
    ensures Has(hf.h.flags, 4) ==> fr.r == old(fr.r) && fed == Fed(hf.fragment, if codec.accepts(hf.fragment) then None else Some(OfConnection(COMPRESSION_ERROR)))
    ensures !Has(hf.h.flags, 4) && fed.error == None ==>
      Collect(old(fr.r), hf.h.streamID, fr.maxReadSize, hf.fragment) == Done(fed.block, fr.r)
    ensures !Has(hf.h.flags, 4) && fed.error.Some? && fed.error != Some(OfConnection(COMPRESSION_ERROR)) ==>
      Collect(old(fr.r), hf.h.streamID, fr.maxReadSize, hf.fragment) == Failed(fed.error.value, fr.r)
    ensures fed.error == None ==> codec.accepts(fed.block)
  {
    hide Next, Has;
    var hc := hf;
    var block: Bytes := [];
    ghost var goal := if Has(hf.h.flags, 4) then Failed(EOF, []) else Collect(fr.r, hf.h.streamID, fr.maxReadSize, hf.fragment);
    assert block + hf.fragment == hf.fragment;
    while true
      invariant hc.HeadersFrame? || hc.ContinuationFrame?
      invariant hc.HeadersFrame? ==> hc == hf && block == [] && fr.r == old(fr.r)
      invariant hc.ContinuationFrame? ==> !Has(hf.h.flags, 4)
      invariant fr.lastHeaderStream == if Has(hc.h.flags, 4) then 0 else hf.h.streamID
      invariant !Has(hc.h.flags, 4) ==> goal == Collect(fr.r, hf.h.streamID, fr.maxReadSize, block + hc.fragment)
      invariant Has(hc.h.flags, 4) && hc.ContinuationFrame? ==> goal == Done(block + hc.fragment, fr.r)
      decreases |fr.r|, if Has(hc.h.flags, 4) then 0 else 1
    {
      block := block + hc.fragment;
      if !codec.accepts(block) {
        return Fed(block, Some(OfConnection(COMPRESSION_ERROR)));
      }
      if Has(hc.h.flags, 4) {
        return Fed(block, None);
      }
      ghost var s := fr.r;
      var p := fr.ReadFrame();
      if p.Bad? {
        return Fed(block, Some(p.e));
      }
      OnlyContinuation(s, hf.h.streamID, fr.maxReadSize);
      // a frame of any other type would fail a type assertion, which is a panic
      assert p.f.ContinuationFrame?;
      hc := p.f;
    }
  }

  /** Merges a HEADERS frame and its CONTINUATION frames and decodes the block. What comes out is a header
      list in good order and within the limit: all the block holds, unless it is marked as truncated. */
  method ReadMetaFrame(fr: Framer, hf: Frame, codec: Codec, max: UInt32) returns (res: MetaResult, ghost n: nat, ghost block: Bytes)
    requires hf.HeadersFrame? && fr.lastHeaderStream == (if Has(hf.h.flags, 4) then 0 else hf.h.streamID) && hf.h.streamID > 0
    modifies fr`r, fr`lastHeaderStream
    ensures res.Meta? ==> res.h == hf.h && Good(res.fields, codec) && Total(res.fields) <= max
    ensures res.Meta? ==> n <= |res.fields| && PseudosOk(res.fields[..n])
    ensures res.Meta? ==> forall i :: 0 <= i < |res.fields| ==> (res.fields[i].IsPseudo() <==> i < n)
    ensures res.Meta? ==> codec.complete(block) && res.fields <= codec.fields(block) && (!res.truncated ==> res.fields == codec.fields(block))
    ensures res.Meta? && Has(hf.h.flags, 4) ==> block == hf.fragment && fr.r == old(fr.r)
    ensures res.Meta? && !Has(hf.h.flags, 4) ==> Collect(old(fr.r), hf.h.streamID, fr.maxReadSize, hf.fragment) == Done(block, fr.r)
  {
    hide Has, Good, Total, PseudosOk;
    var fed := Feed(fr, hf, codec);
    n, block := 0, fed.block;
    if fed.error.Some? {
      return MetaError(fed.error.value), n, block;
    }
    ghost var r := fr.r;
    var mh := new MetaHeaders(codec, max);
    var decoded := codec.fields(fed.block);
    for i := 0 to |decoded|
      invariant fresh(mh) && mh.Valid() && mh.codec == codec && mh.max == max && mh.decoded == decoded[..i] && fr.r == r
    {
      mh.Emit(decoded[i]);
      assert decoded[..i + 1] == decoded[..i] + [decoded[i]];
    }
    assert decoded[..|decoded|] == decoded;
    if !codec.complete(fed.block) {
      return MetaError(OfConnection(COMPRESSION_ERROR)), n, block;
    }
    if mh.invalid {
      return MetaError(OfStream(hf.h.streamID, PROTOCOL_ERROR)), n, block;
    }
    var pseudos := PseudoFields(mh.fields);
    n := pseudos;
    var ok := CheckPseudos(mh.fields[..pseudos]);
    if !ok {
      return MetaError(OfStream(hf.h.streamID, PROTOCOL_ERROR)), n, block;
    }
    forall i | 0 <= i < |mh.fields| ensures mh.fields[i].IsPseudo() <==> i < n {
      if n <= i && mh.fields[i].IsPseudo() {
        if n < i { PseudosFirst(mh.fields, codec, n, i); }
      }
    }
    return Meta(hf.h, mh.fields, mh.truncated), n, block;
  }
}
