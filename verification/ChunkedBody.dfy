/** A chunked message body as a handler or a client reads it: the data, the trailer, and the place where the
    next message begins. */
module ChunkedBodies {
  import opened GoInt
  import opened Options
  import opened Chunks

  const DOUBLE_CRLF: Bytes := [13, 10, 13, 10]
  const MAX_POST_HANDLER_READ: nat := 0x4_0000

  ghost predicate DoubleAt(s: Bytes, k: nat) {
    4 <= k <= |s| && s[k - 4..k] == DOUBLE_CRLF
  }

  /** An empty line is within the first n bytes of s. */
  ghost predicate HasDouble(s: Bytes, n: nat) {
    exists k: nat :: DoubleAt(s, k) && k <= n
  }

  /** What comes after the last chunk: the error, or EOF and the bytes left. mime tells how many bytes a header
      section takes, if it is a good one. */
  ghost function TrailerOf(s: Bytes, size: nat, mime: Bytes -> Option<nat>): (Error, Bytes) {
    if |s| >= 2 && s[..2] == CRLF then (EOF, s[2..])
    else if |s| < 2 then (TrailerEOF, [])
    else if !HasDouble(s, size) then (LongTrailer, [])
    else match mime(s)
      case None => (BadTrailer, [])
      case Some(k) => if k <= |s| then (EOF, s[k..]) else (BadTrailer, [])
  }

  lemma PeekedDouble(s: Bytes, buf: Bytes)
    requires buf <= s && |buf| >= 4
    ensures buf[|buf| - 4..] == DOUBLE_CRLF <==> DoubleAt(s, |buf|)
  {
    assert buf[|buf| - 4..] == s[|buf| - 4..|buf|];
  }

  class Body {
    const src: ChunkedReader
    const mime: Bytes -> Option<nat>
    const closing: bool
    const doEarlyClose: bool
    var hdr: bool
    var sawEOF: bool
    var closed: bool
    var earlyClose: bool

    ghost predicate Valid()
      reads this, src, src.r
    {
      && src.Valid() && (sawEOF ==> src.err == Some(EOF)) && (hdr || sawEOF || closed)
      && (hdr && !closed ==> src.err != Some(EOF))
    }

    /** The data still to be read and the error that ends it; after EOF, where the next message begins. */
    ghost function Coming(): Meaning
      requires Valid()
      reads this, src, src.r
    {
      if sawEOF then Meaning([], EOF, src.r.rest)
      else if closed then Meaning([], ReadAfterClose, [])
      else
        var m := src.Coming();
        if m.err == EOF then var (e, rest) := TrailerOf(m.rest, src.r.size, mime); Meaning(m.data, e, rest) else Meaning(m.data, m.err, [])
    }

    constructor (r: BufReader, mime: Bytes -> Option<nat>, closing: bool, doEarlyClose: bool)
      requires r.Valid()
      ensures Valid() && fresh(src) && src.r == r && !sawEOF && !closed && hdr && src.n == 0 && !src.checkEnd && src.err == None && this.mime == mime
    {
      src := new ChunkedReader(r);
      this.mime, this.closing, this.doEarlyClose := mime, closing, doEarlyClose;
      hdr, sawEOF, closed, earlyClose := true, false, false, false;
    }

    method SeeUpcomingDoubleCRLF() returns (seen: bool)
      requires src.r.Valid()
      modifies src.r`buffered
      ensures src.r.Valid() && (seen <==> HasDouble(src.r.rest, src.r.size))
    {
      var r := src.r;
      var peekSize := 4;
      while true
        invariant r.Valid() && 4 <= peekSize <= r.size + 1 && peekSize <= |r.rest| + 4
        invariant r.rest == old(src.r.rest) && forall k: nat :: DoubleAt(r.rest, k) ==> k >= peekSize
        invariant peekSize > 4 ==> peekSize - 1 <= |r.rest|
        decreases r.size + 1 - peekSize
      {
        if peekSize > r.size {
          return false;
        }
        var buf := r.Peek(peekSize);
        if |buf| >= 4 && buf[|buf| - 4..] == DOUBLE_CRLF {
          PeekedDouble(r.rest, buf);
          return true;
        }
        if |buf| < peekSize {
          return false;
        }
        PeekedDouble(r.rest, buf);
        peekSize := peekSize + 1;
      }
    }

    method ReadTrailer() returns (err: Option<Error>)
      requires src.r.Valid()
      modifies src.r`rest, src.r`buffered
      ensures src.r.Valid() && |src.r.rest| <= |old(src.r.rest)|
      ensures var (e, rest) := TrailerOf(old(src.r.rest), src.r.size, mime);
        if e == EOF then err == None && src.r.rest == rest else err == Some(e)
    {
      var r := src.r;
      ghost var s := r.rest;
      var buf := r.Peek(2);
      if buf == CRLF {
        r.Discard(2);
        return None;
      }
      if |buf| < 2 {
        return Some(TrailerEOF);
      }
      var seen := SeeUpcomingDoubleCRLF();
      if !seen {
        return Some(LongTrailer);
      }
      var k := mime(r.rest);
      if k == None || k.value > |r.rest| {
        var lost: nat :| lost <= |r.rest|;
        r.Discard(lost);
        return Some(BadTrailer);
      }
      r.Discard(k.value);
      return None;
    }

    /** Reads some of the data; the end, or what is wrong, comes after all of it. */
    method ReadLocked(want: nat) returns (out: Bytes, e: Option<Error>)
      requires Valid() && !closed
      modifies this`hdr, this`sawEOF, this`closed, src`n, src`err, src`checkEnd, src.r`rest, src.r`buffered
      ensures Valid() && |out| <= want
      ensures old(Coming()).data == out + Coming().data
      ensures e == None ==> !closed && Coming() == old(Coming()).(data := Coming().data) && (want > 0 ==> out != [])
      ensures e.Some? ==> Coming().data == [] && e.value == old(Coming()).err
      ensures e == Some(EOF) <==> sawEOF
      ensures sawEOF ==> src.r.rest == old(Coming()).rest && !closed
      ensures |src.r.rest| <= |old(src.r.rest)| && (out != [] ==> |src.r.rest| < |old(src.r.rest)|)
    {
      if sawEOF {
        return [], Some(EOF);
      }
      out, e := src.Read(want);
      if e == Some(EOF) {
        sawEOF := true;
        var bad := ReadTrailer();
        if bad.Some? {
          e := bad;
          sawEOF := false;
          closed := true;
        }
        hdr := false;
      }
    }

    method Read(want: nat) returns (out: Bytes, e: Option<Error>)
      requires Valid()
      modifies this`hdr, this`sawEOF, this`closed, src`n, src`err, src`checkEnd, src.r`rest, src.r`buffered
      ensures Valid() && |out| <= want
      ensures old(closed) ==> out == [] && e == Some(ReadAfterClose)
      ensures !old(closed) ==> old(Coming()).data == out + Coming().data && (e.Some? ==> Coming().data == [] && e.value == old(Coming()).err)
      ensures e == Some(EOF) ==> src.r.rest == old(Coming()).rest
    {
      if closed {
        return [], Some(ReadAfterClose);
      }
      out, e := ReadLocked(want);
    }

    /** Reads and drops the data up to its end, or up to limit bytes of it. */
    method Drain(limit: Option<nat>) returns (n: nat, e: Option<Error>)
      requires Valid() && !closed
      modifies this`hdr, this`sawEOF, this`closed, src`n, src`err, src`checkEnd, src.r`rest, src.r`buffered
      ensures Valid() && n <= |old(Coming()).data| && (limit.Some? ==> n <= limit.value)
      ensures e == None ==> limit.Some? && n == limit.value && !closed
      ensures e.Some? ==> n == |old(Coming()).data| && e.value == old(Coming()).err
      ensures e == Some(EOF) ==> sawEOF && !closed && src.r.rest == old(Coming()).rest
    {
      n, e := 0, None;
      ghost var m := Coming();
      while e == None && (limit == None || n < limit.value)
        invariant Valid() && (limit.Some? ==> n <= limit.value)
        invariant e == None ==> !closed && Coming() == m.(data := Coming().data) && |m.data| == n + |Coming().data|
        invariant e.Some? ==> n == |m.data| && e.value == m.err
        invariant e == Some(EOF) ==> sawEOF && !closed && src.r.rest == m.rest
        decreases e == None, |src.r.rest|
      {
        var size := if limit.Some? && limit.value - n < 8192 then limit.value - n else 8192;
        var out;
        out, e := ReadLocked(size);
        n := n + |out|;
      }
    }

    /** Closes the body after reading what is left of it, so that the next message can be read, unless that
        would be too much or is not wanted. */
    method Close() returns (e: Option<Error>)
      requires Valid()
      modifies this, src`n, src`err, src`checkEnd, src.r`rest, src.r`buffered
      ensures closed
      ensures old(closed) ==> e == None && src.r.rest == old(src.r.rest)
      ensures !old(closed) && (!doEarlyClose || |old(Coming()).data| < MAX_POST_HANDLER_READ) && (old(hdr) || !closing) ==>
        (e == if old(Coming()).err == EOF then None else Some(old(Coming()).err))
        && (e == None ==> src.r.rest == old(Coming()).rest)
      ensures !old(closed) && doEarlyClose && old(hdr) && |old(Coming()).data| > MAX_POST_HANDLER_READ ==> earlyClose
    {
      if closed {
        return None;
      }
      e := None;
      if sawEOF {
      } else if !hdr && closing {
      } else if doEarlyClose {
        var n;
        n, e := Drain(Some(MAX_POST_HANDLER_READ));
        if e == Some(EOF) {
          e := None;
        }
        if n == MAX_POST_HANDLER_READ {
          earlyClose := true;
        }
      } else {
        var n;
        n, e := Drain(None);
        if e == Some(EOF) {
          e := None;
        }
      }
      closed := true;
    }
  }

  /** A body reports its end only to a reader who has been given all of it: the stream went on to a last chunk,
      and the trailer after it is good. So a body that was cut off never reads as complete. */
  lemma EndIsTrue(b: Body)
    requires b.Valid() && !b.sawEOF && !b.closed && b.src.err == None
    ensures var (n, c, s) := (b.src.n, b.src.checkEnd, b.src.r.rest);
      b.Coming().err == EOF <==>
        && ReachesLast(n, c, s, b.src.r.size)
        && TrailerOf(MeaningOf(n, c, s, b.src.r.size, b.src.r.eager).rest, b.src.r.size, b.mime).0 == EOF
  {
    EndReported(b.src.n, b.src.checkEnd, b.src.r.rest, b.src.r.size, b.src.r.eager);
  }

  /** A new body ends well exactly if what is on the wire begins with a complete message, and then its data is
      the data of the chunks. */
  lemma EndsWellIff(b: Body)
    requires b.Valid() && !b.sawEOF && !b.closed && b.src.err == None && b.src.n == 0 && !b.src.checkEnd
    ensures b.Coming().err == EOF <==>
      exists ps, last, tail :: IsMessage(b.src.r.rest, ps, last, tail) && TrailerOf(tail, b.src.r.size, b.mime).0 == EOF
    ensures forall ps, last, tail :: IsMessage(b.src.r.rest, ps, last, tail) && TrailerOf(tail, b.src.r.size, b.mime).0 == EOF ==>
      b.Coming() == Meaning(DataOf(ps), EOF, TrailerOf(tail, b.src.r.size, b.mime).1)
  {
    hide IsMessage, MeaningOf, TrailerOf;
    var s, size, eager := b.src.r.rest, b.src.r.size, b.src.r.eager;
    forall ps, last, tail | IsMessage(s, ps, last, tail) ensures MeaningOf(0, false, s, size, eager) == Meaning(DataOf(ps), EOF, tail) {
      ReadsMessage(s, ps, last, tail, size, eager);
    }
    if b.Coming().err == EOF {
      EndIsTrue(b);
      var ps, last, tail := MessageFound(s, size);
    }
  }

  /** A trailer as it is written: lines, of which none is empty, that fit into the buffer with the empty line
      after them; mime takes them all. */
  ghost predicate GoodTrailer(trailer: Bytes, next: Bytes, size: nat, mime: Bytes -> Option<nat>) {
    trailer == [] || (
      && 2 <= |trailer| <= size - 2 && trailer[..2] != CRLF && trailer[|trailer| - 2..] == CRLF
      && mime(trailer + (CRLF + next)) == Some(|trailer| + 2))
  }

  lemma TrailerBack(trailer: Bytes, next: Bytes, size: nat, mime: Bytes -> Option<nat>)
    requires GoodTrailer(trailer, next, size, mime) && size >= MAX_LINE
    ensures TrailerOf(trailer + (CRLF + next), size, mime) == (EOF, next)
  {
    var s, k := trailer + (CRLF + next), |trailer| + 2;
    if trailer == [] {
      assert s == CRLF + next;
      assert (CRLF + next)[..2] == CRLF && (CRLF + next)[2..] == next;
    } else {
      assert s[..2] == trailer[..2];
      assert s[k - 4..k] == trailer[|trailer| - 2..] + CRLF == DOUBLE_CRLF;
      assert DoubleAt(s, k);
      assert s[k..] == next;
    }
  }

  /** A body that was written in any pieces, with or without a trailer, is read back whole, through any reads,
      and the reader is then at the first byte after it. */
  method ReadBack(pieces: seq<Bytes>, trailer: Bytes, next: Bytes, size: nat, eager: bool, mime: Bytes -> Option<nat>, wants: nat -> nat)
    returns (data: Bytes, rest: Bytes)
    requires size >= MAX_LINE && (forall p :: p in pieces ==> |p| < 0x1_0000_0000_0000_0000) && forall k :: wants(k) > 0
    requires GoodTrailer(trailer, next, size, mime)
    ensures data == Concat(pieces) && rest == next
  {
    hide MeaningOf, TrailerOf, ChunksOf, GoodTrailer;
    var cw := new ChunkedWriter();
    cw.WriteBody(pieces, trailer);
    var wire := cw.wire + next;
    assert wire == ChunksOf(pieces) + LAST + (trailer + (CRLF + next));
    MessageMeans(pieces, trailer + (CRLF + next), size, eager);
    TrailerBack(trailer, next, size, mime);
    var r := new BufReader(wire, size, eager);
    var body := new Body(r, mime, false, false);
    assert body.Coming() == Meaning(Concat(pieces), EOF, next);
    data := [];
    var k, e := 0, None;
    while e == None
      invariant body.Valid() && fresh(body) && fresh(body.src) && fresh(body.src.r)
      invariant e == None ==> !body.closed && body.Coming().err == EOF && body.Coming().rest == next && data + body.Coming().data == Concat(pieces)
      invariant e.Some? ==> data == Concat(pieces) && body.src.r.rest == next
      decreases e == None, |body.src.r.rest|
    {
      ghost var m := body.Coming();
      var out;
      out, e := body.ReadLocked(wants(k));
      AppendLater(data, out, body.Coming().data);
      data := data + out;
      k := k + 1;
    }
    rest := body.src.r.rest;
  }
}
