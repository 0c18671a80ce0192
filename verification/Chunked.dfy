/** The chunked transfer coding (section 4.1 of RFC 7230): the writer, the reader, and the body around the
    reader, over a buffered reader that may deliver any part of what is on the wire at a time. */
module Chunks {
  import opened GoInt
  import opened Options

  const CR: Byte := 13
  const LF: Byte := 10
  const CRLF: Bytes := [13, 10]
  const SEMICOLON: Byte := 59
  const MAX_LINE := 4096

  // ---- Numbers in hexadecimal

  function Digit(d: nat): (b: Byte)
    requires d < 16
  {
    if d < 10 then 48 + d else 97 + d - 10
  }

  function DigitValue(b: Byte): Option<nat> {
    if 48 <= b <= 57 then Some(b - 48)
    else if 97 <= b <= 102 then Some(b - 97 + 10)
    else if 65 <= b <= 70 then Some(b - 65 + 10)
    else None
  }

  /** The digits that %x prints for n. */
  function Hex(n: nat): (s: Bytes)
    ensures |s| > 0
  {
    if n < 16 then [Digit(n)] else Hex(n / 16) + [Digit(n % 16)]
  }

  predicate AllDigits(v: Bytes) {
    forall b :: b in v ==> DigitValue(b).Some?
  }

  function Number(v: Bytes): nat
    requires AllDigits(v)
  {
    if v == [] then 0 else Number(v[..|v| - 1]) * 16 + DigitValue(v[|v| - 1]).value
  }

  function HexValue(v: Bytes): Option<nat> {
    if AllDigits(v) && |v| <= 16 then Some(Number(v)) else None
  }

  function Power16(k: nat): nat {
    if k == 0 then 1 else 16 * Power16(k - 1)
  }

  lemma {:induction false} NumberBound(v: Bytes)
    requires AllDigits(v)
    ensures Number(v) < Power16(|v|)
  {
    if v != [] { NumberBound(v[..|v| - 1]); }
  }

  lemma Powers()
    ensures Power16(16) == 0x1_0000_0000_0000_0000
  {
    assert Power16(4) == 0x1_0000 by { assert Power16(2) == 256; }
    assert Power16(8) == 0x1_0000_0000 by { assert Power16(6) == 0x100_0000; }
    assert Power16(12) == 0x1_0000_0000_0000 by { assert Power16(10) == 0x100_0000_0000; }
    assert Power16(14) == 0x100_0000_0000_0000;
  }

  lemma {:induction false} PowerUp(j: nat, k: nat)
    requires j <= k
    ensures Power16(j) <= Power16(k)
  {
    if j < k { PowerUp(j, k - 1); }
  }

  /** The digits of n are read as n. */
  lemma {:induction false} HexBack(n: nat)
    ensures AllDigits(Hex(n)) && Number(Hex(n)) == n
    ensures |Hex(n)| > 1 ==> Power16(|Hex(n)| - 1) <= n
  {
    if n >= 16 {
      HexBack(n / 16);
      var h := Hex(n / 16);
      assert Hex(n)[..|h|] == h;
    } else {
      assert Hex(n)[..0] == [];
    }
  }

  /** Every number below 2^64 has at most 16 digits and is read back. */
  lemma HexValueBack(n: nat)
    requires n < 0x1_0000_0000_0000_0000
    ensures HexValue(Hex(n)) == Some(n) && |Hex(n)| <= 16
  {
    HexBack(n);
    Powers();
    if |Hex(n)| > 16 { PowerUp(16, |Hex(n)| - 1); }
  }

  /** Reads a number; the shifts and ors are exact because there are at most sixteen digits. */
  method ParseHexUint(v: Bytes) returns (n: UInt64, ok: bool)
    ensures ok <==> HexValue(v).Some?
    ensures ok ==> n == HexValue(v).value
  {
    n := 0;
    for i := 0 to |v|
      invariant i <= 16 && AllDigits(v[..i]) && n == Number(v[..i])
    {
      assert v[..i + 1] == v[..i] + [v[i]];
      var b := DigitValue(v[i]);
      if b == None {
        assert v[i] in v;
        return 0, false;
      }
      if i == 16 {
        return 0, false;
      }
      NumberBound(v[..i + 1]);
      Powers();
      PowerUp(i + 1, 16);
      n := n * 16 + b.value;
    }
    assert v[..|v|] == v;
    return n, true;
  }

  // ---- Writing

  function Chunk(d: Bytes): Bytes {
    Hex(|d|) + CRLF + d + CRLF
  }

  function ChunksOf(ds: seq<Bytes>): Bytes {
    if ds == [] then [] else (if ds[0] == [] then [] else Chunk(ds[0])) + ChunksOf(ds[1..])
  }

  function Concat(ds: seq<Bytes>): Bytes {
    if ds == [] then [] else ds[0] + Concat(ds[1..])
  }

  const LAST: Bytes := [48, 13, 10]

  lemma {:induction false} ChunksAppend(ds: seq<Bytes>, d: Bytes)
    ensures ChunksOf(ds + [d]) == ChunksOf(ds) + if d == [] then [] else Chunk(d)
  {
    hide Chunk;
    var c := if d == [] then [] else Chunk(d);
    if ds == [] {
      assert ChunksOf([d]) == c + ChunksOf([d][1..]);
      assert [] + [d] == [d];
    } else {
      var b := if ds[0] == [] then [] else Chunk(ds[0]);
      assert (ds + [d])[1..] == ds[1..] + [d] && (ds + [d])[0] == ds[0];
      ChunksAppend(ds[1..], d);
      AppendLater(b, ChunksOf(ds[1..]), c);
    }
  }

  lemma NoChunks()
    ensures ChunksOf([]) == []
  {
  }

  class ChunkedWriter {
    var wire: Bytes

    constructor ()
      ensures wire == []
    {
      wire := [];
    }

    /** Writes data as one chunk; nothing at all if there is none. */
    method Write(data: Bytes) returns (n: nat)
      modifies this
      ensures n == |data| && wire == old(wire) + if data == [] then [] else Chunk(data)
    {
      if |data| == 0 {
        return 0;
      }
      ghost var w := wire;
      wire := wire + Hex(|data|) + CRLF;
      wire := wire + data;
      wire := wire + CRLF;
      assert wire == w + Chunk(data);
      return |data|;
    }

    method Close()
      modifies this
      ensures wire == old(wire) + LAST
    {
      wire := wire + LAST;
    }

    /** Writes a body that is read in the given pieces, the last chunk, the trailer and an empty line. */
    method WriteBody(pieces: seq<Bytes>, trailer: Bytes)
      modifies this
      ensures wire == old(wire) + Message(pieces, trailer)
    {
      hide ChunksOf, Chunk;
      ghost var w := wire;
      assert ChunksOf([]) == [] && pieces[..0] == [] by { NoChunks(); }
      for i := 0 to |pieces|
        invariant wire == w + ChunksOf(pieces[..i])
      {
        assert pieces[..i + 1] == pieces[..i] + [pieces[i]];
        ChunksAppend(pieces[..i], pieces[i]);
        var _ := Write(pieces[i]);
      }
      assert pieces[..|pieces|] == pieces;
      Close();
      wire := wire + trailer;
      wire := wire + CRLF;
      assert wire == w + Message(pieces, trailer);
    }
  }

  /** A chunked message body. */
  function Message(pieces: seq<Bytes>, trailer: Bytes): Bytes {
    ChunksOf(pieces) + LAST + trailer + CRLF
  }

  // ---- The buffered reader

  datatype Error = EOF | UnexpectedEOF | LineTooLong | BadChunk | Malformed | TrailerEOF | LongTrailer | BadTrailer | ReadAfterClose

  /** The position of the first line feed, or the length of s. */
  function LineEnd(s: Bytes): (i: nat)
    ensures i <= |s| && (i < |s| ==> s[i] == LF) && forall j :: 0 <= j < i ==> s[j] != LF
  {
    if s == [] || s[0] == LF then 0 else 1 + LineEnd(s[1..])
  }

  class BufReader {
    /** What is still to come, of which the first part is in the buffer. */
    var rest: Bytes
    var buffered: nat
    const size: nat
    /** Whether the one read that delivers the last byte will report the end along with it. No other read can,
        so this says all there is to say about when the end is reported. */
    const eager: bool

    ghost predicate Valid()
      reads this
    {
      buffered <= |rest| && buffered <= size && size >= MAX_LINE
    }

    constructor (rest: Bytes, size: nat, eager: bool)
      requires size >= MAX_LINE
      ensures Valid() && this.rest == rest && this.size == size && this.eager == eager
    {
      this.rest, this.buffered, this.size, this.eager := rest, 0, size, eager;
    }

    /** Brings more into the buffer, as much as the connection likes to give, but at least k bytes in all. */
    method Fill(k: nat)
      requires Valid() && k <= |rest| && k <= size
      modifies this`buffered
      ensures Valid() && buffered >= k && buffered >= old(buffered)
    {
      var m: nat :| buffered <= m && k <= m && m <= |rest| && m <= size;
      buffered := m;
    }

    /** Reads some bytes, at least one unless there are no more; the end may be reported along with the last. */
    method Read(want: nat) returns (p: Bytes, err: Option<Error>)
      requires Valid() && want > 0
      modifies this`rest, this`buffered
      ensures Valid() && |p| <= want && old(rest) == p + rest
      ensures old(rest) != [] ==> p != []
      ensures err == if rest == [] && (p == [] || eager) then Some(EOF) else None
    {
      if rest == [] {
        return [], Some(EOF);
      }
      var n: nat :| 0 < n <= want && n <= |rest|;
      p := rest[..n];
      rest := rest[n..];
      var m: nat :| m <= |rest| && m <= size;
      buffered := m;
      err := if rest == [] && eager then Some(EOF) else None;
    }

    method ReadFull(n: nat) returns (p: Bytes, err: Option<Error>)
      requires Valid()
      modifies this`rest, this`buffered
      ensures Valid()
      ensures if |old(rest)| >= n then err == None && p == old(rest)[..n] && rest == old(rest)[n..]
        else err == Some(if old(rest) == [] then EOF else UnexpectedEOF) && rest == []
    {
      p, err := [], None;
      while |p| < n
        invariant Valid() && |p| <= n && old(rest) == p + rest
        decreases n - |p|
      {
        if rest == [] {
          return p, Some(if p == [] then EOF else UnexpectedEOF);
        }
        var q, _ := Read(n - |p|);
        p := p + q;
      }
    }

    /** Shows the next n bytes, or all there are if they are fewer. */
    method Peek(n: nat) returns (p: Bytes)
      requires Valid() && n <= size
      modifies this`buffered
      ensures Valid() && p == if |rest| >= n then rest[..n] else rest
      ensures buffered >= old(buffered)
    {
      var k := if |rest| < n then |rest| else n;
      Fill(if k <= size then k else size);
      p := rest[..k];
    }

    method Discard(n: nat)
      requires Valid() && n <= |rest|
      modifies this`rest, this`buffered
      ensures Valid() && rest == old(rest)[n..]
    {
      rest := rest[n..];
      buffered := if buffered < n then 0 else buffered - n;
    }

    /** Reads up to a line feed, unless the end or a full buffer comes first. */
    method ReadSlice() returns (line: Bytes, err: Option<Error>)
      requires Valid()
      modifies this`rest, this`buffered
      ensures Valid()
      ensures var i := LineEnd(old(rest));
        if i < |old(rest)| && i < size then err == None && line == old(rest)[..i + 1] && rest == old(rest)[i + 1..]
        else if |old(rest)| < size then err == Some(EOF) && rest == []
        else err == Some(LineTooLong) && rest == old(rest)[size..]
    {
      var i := LineEnd(rest);
      if i < |rest| && i < size {
        line, err := rest[..i + 1], None;
        Discard(i + 1);
      } else if |rest| < size {
        line, err := rest, Some(EOF);
        Discard(|rest|);
      } else {
        line, err := rest[..size], Some(LineTooLong);
        Discard(size);
      }
    }
  }

  // ---- Chunk headers

  predicate IsSpace(b: Byte) {
    b == 32 || b == 9 || b == LF || b == CR
  }

  function Trimmed(b: Bytes): (t: Bytes)
    ensures t <= b
  {
    if b != [] && IsSpace(b[|b| - 1]) then Trimmed(b[..|b| - 1]) else b
  }

  /** What comes before the first semicolon. */
  function BeforeExtension(p: Bytes): (t: Bytes)
    ensures t <= p && SEMICOLON !in t
  {
    if p == [] || p[0] == SEMICOLON then [] else [p[0]] + BeforeExtension(p[1..])
  }

  method TrimTrailingWhitespace(b: Bytes) returns (t: Bytes)
    ensures t == Trimmed(b)
  {
    t := b;
    while |t| > 0 && IsSpace(t[|t| - 1])
      invariant Trimmed(b) == Trimmed(t)
    {
      t := t[..|t| - 1];
    }
  }

  lemma NextPlain(p: Bytes, i: nat)
    requires i < |p| && p[i] != SEMICOLON
    ensures p[..i] + BeforeExtension(p[i..]) == p[..i + 1] + BeforeExtension(p[i + 1..])
  {
    var t := BeforeExtension(p[i + 1..]);
    assert p[i..][1..] == p[i + 1..];
    assert BeforeExtension(p[i..]) == [p[i]] + t;
    assert p[..i + 1] == p[..i] + [p[i]];
    AppendLater(p[..i], [p[i]], t);
  }

  method RemoveChunkExtension(p: Bytes) returns (t: Bytes)
    ensures t == BeforeExtension(p)
  {
    var semi := 0;
    while semi < |p| && p[semi] != SEMICOLON
      invariant semi <= |p| && BeforeExtension(p) == p[..semi] + BeforeExtension(p[semi..])
    {
      NextPlain(p, semi);
      semi := semi + 1;
    }
    t := p[..semi];
  }

  /** The chunk size that the stream s begins with, and what follows its line; size is the buffer's. */
  function ChunkHeader(s: Bytes, size: nat): (r: (Option<nat>, Error, Bytes))
    requires size >= MAX_LINE
    ensures |r.2| <= |s| && (r.0.Some? ==> |r.2| < |s|)
  {
    var i := LineEnd(s);
    if i < |s| && i < size then
      if i + 1 >= MAX_LINE then (None, LineTooLong, s[i + 1..])
      else
        var v := HexValue(BeforeExtension(Trimmed(s[..i + 1])));
        (v, BadChunk, s[i + 1..])
    else if |s| < size then (None, UnexpectedEOF, [])
    else (None, LineTooLong, s[size..])
  }

  // ---- What a stream means

  /** The data, the error that ends it, and what is left on the wire. */
  datatype Meaning = Meaning(data: Bytes, err: Error, rest: Bytes)

  /** The meaning of the stream s to a reader that has n bytes of the current chunk to read and, if checkEnd,
      the end of a chunk to check. An end inside the data of a chunk is not told from the end of the body, nor
      is one right after it if it is reported eagerly. */
  function MeaningOf(n: nat, checkEnd: bool, s: Bytes, size: nat, eager: bool): Meaning
    requires size >= MAX_LINE && (checkEnd ==> n == 0)
    decreases |s|, n
  {
    if checkEnd then
      if |s| < 2 then Meaning([], UnexpectedEOF, [])
      else if s[..2] != CRLF then Meaning([], Malformed, s[2..])
      else MeaningOf(0, false, s[2..], size, eager)
    else if n == 0 then
      var (v, e, r) := ChunkHeader(s, size);
      if v == None then Meaning([], e, r)
      else if v.value == 0 then Meaning([], EOF, r)
      else MeaningOf(v.value, false, r, size, eager)
    else if |s| < n || (|s| == n && eager) then Meaning(s, EOF, [])
    else
      var m := MeaningOf(0, true, s[n..], size, eager);
      m.(data := s[..n] + m.data)
  }

  /** Reading p ahead leaves the meaning of the rest. */
  lemma MeaningSplit(n: nat, p: Bytes, rest: Bytes, size: nat, eager: bool)
    requires size >= MAX_LINE && 0 < |p| <= n && !(rest == [] && eager)
    ensures var m := MeaningOf(n, false, p + rest, size, eager);
      var k := MeaningOf(n - |p|, n == |p|, rest, size, eager);
      m == k.(data := p + k.data)
  {
    hide ChunkHeader;
    var s := p + rest;
    if |p| == n {
      assert s[..n] == p && s[n..] == rest;
    } else if |s| > n || (|s| == n && !eager) {
      var m := MeaningOf(0, true, s[n..], size, eager);
      assert rest[n - |p|..] == s[n..] && s[..n] == p + rest[..n - |p|];
      assert p + (rest[..n - |p|] + m.data) == s[..n] + m.data;
    }
  }

  // ---- The reader

  class ChunkedReader {
    const r: BufReader
    var n: UInt64
    var err: Option<Error>
    var checkEnd: bool

    ghost predicate Valid()
      reads this, r
    {
      r.Valid() && (checkEnd && err == None ==> n == 0)
    }

    /** What is still to be read through this reader. */
    ghost function Coming(): Meaning
      requires Valid()
      reads this, r
    {
      if err.Some? then Meaning([], err.value, r.rest) else MeaningOf(n, checkEnd, r.rest, r.size, r.eager)
    }

    constructor (r: BufReader)
      requires r.Valid()
      ensures Valid() && this.r == r && err == None && n == 0 && !checkEnd
    {
      this.r := r;
      n, err, checkEnd := 0, None, false;
    }

    method BeginChunk()
      requires Valid() && n == 0 && !checkEnd
      modifies this`n, this`err, r`rest, r`buffered
      ensures Valid() && Coming() == MeaningOf(0, false, old(r.rest), r.size, r.eager) && |r.rest| <= |old(r.rest)|
      ensures err == None ==> |r.rest| < |old(r.rest)|
    {
      var line, e := ReadChunkLine(r);
      err := e;
      if err.Some? {
        return;
      }
      var ok;
      n, ok := ParseHexUint(line);
      if !ok {
        err := Some(BadChunk);
        return;
      }
      if n == 0 {
        err := Some(EOF);
      }
    }

    /** Whether a line is in the buffer already. */
    method ChunkHeaderAvailable() returns (there: bool)
      requires Valid()
    {
      there := LineEnd(r.rest[..r.buffered]) < r.buffered;
    }

    /** Reads at most want bytes of the data. Whatever the parts in which the wire delivers its bytes, what is
        read is what the stream means, and an error comes only after all of the data. */
    method Read(want: nat) returns (out: Bytes, e: Option<Error>)
      requires Valid()
      modifies this`n, this`err, this`checkEnd, r`rest, r`buffered
      ensures Valid() && e == err && |out| <= want
      ensures var m := old(Coming()); m == Coming().(data := out + Coming().data)
      ensures e.Some? ==> Coming() == Meaning([], e.value, r.rest)
      ensures e == None && want > 0 ==> out != []
      ensures |r.rest| <= |old(r.rest)| && (out != [] ==> |r.rest| < |old(r.rest)|)
    {
      hide MeaningOf, ChunkHeader;
      out := [];
      ghost var m := Coming();
      while err == None
        invariant Valid() && |out| <= want
        invariant m == Coming().(data := out + Coming().data)
        invariant |r.rest| <= |old(r.rest)| && (out != [] ==> |r.rest| < |old(r.rest)|)
        decreases err == None, |r.rest|
      {
        if checkEnd {
          if |out| > 0 && r.buffered < 2 {
            break;
          }
          var bad := CheckEnd();
          if bad {
            break;
          }
        }
        if n == 0 {
          if |out| > 0 {
            var there := ChunkHeaderAvailable();
            if !there {
              break;
            }
          }
          BeginChunk();
          continue;
        }
        if |out| == want {
          break;
        }
        var p := ReadData(want - |out|);
        AppendLater(out, p, Coming().data);
        out := out + p;
      }
      e := err;
    }

    /** The two bytes after the data of a chunk. That they are missing is found out by reading the next header. */
    method CheckEnd() returns (bad: bool)
      requires Valid() && err == None && checkEnd
      modifies this`err, this`checkEnd, r`rest, r`buffered
      ensures Valid() && n == old(n) && |r.rest| <= |old(r.rest)|
      ensures bad ==> err.Some? && Coming() == old(Coming())
      ensures !bad ==> !checkEnd && old(Coming()) == MeaningOf(0, false, r.rest, r.size, r.eager)
      ensures !bad && err == None ==> |r.rest| < |old(r.rest)|
      ensures !bad && err.Some? ==> old(r.buffered) < 2 && r.rest == []
    {
      var buf;
      buf, err := r.ReadFull(2);
      if err == None {
        if buf != CRLF {
          err := Some(Malformed);
          return true;
        }
      }
      checkEnd := false;
      return false;
    }

    /** Some of the data of the current chunk. */
    method ReadData(want: nat) returns (p: Bytes)
      requires Valid() && err == None && !checkEnd && n > 0 && want > 0
      modifies this`n, this`err, this`checkEnd, r`rest, r`buffered
      ensures Valid() && |p| <= want && old(Coming()) == Coming().(data := p + Coming().data)
      ensures err == None ==> p != []
      ensures old(r.rest) == p + r.rest
    {
      var rbuf := want;
      if rbuf > n {
        rbuf := n;
      }
      ghost var before := n;
      p, err := r.Read(rbuf);
      if p != [] && err == None { MeaningSplit(before, p, r.rest, r.size, r.eager); }
      n := n - |p|;
      if n == 0 && err == None {
        checkEnd := true;
      }
    }
  }

  lemma AppendLater(a: Bytes, b: Bytes, c: Bytes)
    ensures a + (b + c) == (a + b) + c
  {
  }

  method ReadChunkLine(b: BufReader) returns (p: Bytes, err: Option<Error>)
    requires b.Valid()
    modifies b`rest, b`buffered
    ensures b.Valid()
    ensures var (v, e, r) := ChunkHeader(old(b.rest), b.size);
      b.rest == r && (err.Some? ==> v == None && err.value == e) && (err == None ==> v == HexValue(p) && e == BadChunk && |b.rest| < |old(b.rest)|)
  {
    hide Trimmed, BeforeExtension, HexValue;
    p, err := b.ReadSlice();
    if err.Some? {
      if err == Some(EOF) {
        err := Some(UnexpectedEOF);
      }
      return [], err;
    }
    if |p| >= MAX_LINE {
      return [], Some(LineTooLong);
    }
    p := TrimTrailingWhitespace(p);
    p := RemoveChunkExtension(p);
  }

  // ---- What is a complete message

  /** A chunk as it is on the wire: the line that announces it, and its data. */
  datatype Part = Part(line: Bytes, data: Bytes)

  /** A line that ends at its first line feed, is not too long and announces v bytes. */
  predicate LineOf(line: Bytes, v: nat) {
    line != [] && LineEnd(line) == |line| - 1 && |line| < MAX_LINE && HexValue(BeforeExtension(Trimmed(line))) == Some(v)
  }

  predicate Complete(p: Part) {
    p.data != [] && LineOf(p.line, |p.data|)
  }

  function Wire(ps: seq<Part>): Bytes {
    if ps == [] then [] else ps[0].line + (ps[0].data + (CRLF + Wire(ps[1..])))
  }

  function DataOf(ps: seq<Part>): Bytes {
    if ps == [] then [] else ps[0].data + DataOf(ps[1..])
  }

  /** s consists of the chunks ps, a last chunk and what comes after it. */
  predicate IsMessage(s: Bytes, ps: seq<Part>, last: Bytes, tail: Bytes) {
    (forall p :: p in ps ==> Complete(p)) && LineOf(last, 0) && s == Wire(ps) + (last + tail)
  }

  /** The stream ends inside the data of a chunk, or right after it if that is reported eagerly. */
  predicate EndsInData(n: nat, checkEnd: bool, s: Bytes, size: nat, eager: bool)
    requires size >= MAX_LINE && (checkEnd ==> n == 0)
    decreases |s|, n
  {
    if checkEnd then |s| >= 2 && s[..2] == CRLF && EndsInData(0, false, s[2..], size, eager)
    else if n == 0 then
      var (v, _, r) := ChunkHeader(s, size);
      v.Some? && v.value > 0 && EndsInData(v.value, false, r, size, eager)
    else |s| < n || (|s| == n && eager) || EndsInData(0, true, s[n..], size, eager)
  }

  /** The stream goes on to a last chunk. */
  predicate ReachesLast(n: nat, checkEnd: bool, s: Bytes, size: nat)
    requires size >= MAX_LINE && (checkEnd ==> n == 0)
    decreases |s|, n
  {
    if checkEnd then |s| >= 2 && s[..2] == CRLF && ReachesLast(0, false, s[2..], size)
    else if n == 0 then
      var (v, _, r) := ChunkHeader(s, size);
      v.Some? && (v.value == 0 || ReachesLast(v.value, false, r, size))
    else |s| >= n && ReachesLast(0, true, s[n..], size)
  }

  /** The reader reports the end exactly for the streams that have a last chunk and for those that end inside
      the data of a chunk; nothing is left of the latter, and no stream is both. So the report is true unless
      the stream ends inside the data of a chunk. */
  lemma {:induction false} EndReported(n: nat, checkEnd: bool, s: Bytes, size: nat, eager: bool)
    requires size >= MAX_LINE && (checkEnd ==> n == 0)
    ensures MeaningOf(n, checkEnd, s, size, eager).err == EOF <==> ReachesLast(n, checkEnd, s, size) || EndsInData(n, checkEnd, s, size, eager)
    ensures ReachesLast(n, checkEnd, s, size) ==> !EndsInData(n, checkEnd, s, size, eager)
    ensures EndsInData(n, checkEnd, s, size, eager) ==> MeaningOf(n, checkEnd, s, size, eager).rest == []
    decreases |s|, n
  {
    hide ChunkHeader;
    if checkEnd {
      if |s| >= 2 && s[..2] == CRLF { EndReported(0, false, s[2..], size, eager); }
    } else if n == 0 {
      var (v, _, r) := ChunkHeader(s, size);
      HeaderNoEnd(s, size);
      if v.Some? && v.value > 0 { EndReported(v.value, false, r, size, eager); }
    } else if |s| < n || (|s| == n && eager) {
      if |s| == n { EmptyNoLast(s[n..], size); }
    } else {
      EndReported(0, true, s[n..], size, eager);
    }
  }

  lemma HeaderNoEnd(s: Bytes, size: nat)
    requires size >= MAX_LINE
    ensures ChunkHeader(s, size).1 != EOF
  {
  }

  lemma EmptyNoLast(s: Bytes, size: nat)
    requires size >= MAX_LINE && s == []
    ensures !ReachesLast(0, true, s, size)
  {
  }

  /** A line and what follows are told apart again. */
  lemma HeaderBack(line: Bytes, v: nat, x: Bytes, size: nat)
    requires LineOf(line, v) && size >= MAX_LINE
    ensures ChunkHeader(line + x, size) == (Some(v), BadChunk, x)
  {
    hide HexValue, BeforeExtension, Trimmed;
    var s, i := line + x, |line| - 1;
    assert forall j :: 0 <= j < |line| ==> s[j] == line[j];
    LineEndAt(s, i);
    assert s[..i + 1] == line && s[i + 1..] == x;
  }

  /** A header that is good is such a line. */
  lemma HeaderSplits(s: Bytes, size: nat) returns (line: Bytes)
    requires size >= MAX_LINE && ChunkHeader(s, size).0.Some?
    ensures s == line + ChunkHeader(s, size).2 && LineOf(line, ChunkHeader(s, size).0.value)
  {
    hide HexValue, BeforeExtension, Trimmed;
    var i := LineEnd(s);
    line := s[..i + 1];
    LineEndAt(line, i);
  }

  /** A complete chunk is its data, and the rest goes on from there. */
  lemma PartMeans(p: Part, x: Bytes, size: nat, eager: bool)
    requires Complete(p) && size >= MAX_LINE
    ensures var s := p.line + (p.data + (CRLF + x));
      && MeaningOf(0, false, s, size, eager) == MeaningOf(0, false, x, size, eager).(data := p.data + MeaningOf(0, false, x, size, eager).data)
      && (ReachesLast(0, false, x, size) ==> ReachesLast(0, false, s, size))
  {
    hide ChunkHeader, LineOf;
    var r := p.data + (CRLF + x);
    HeaderBack(p.line, |p.data|, r, size);
    assert r[..|p.data|] == p.data && r[|p.data|..] == CRLF + x;
    CheckedEnd(x, size, eager);
  }

  lemma CheckedEnd(x: Bytes, size: nat, eager: bool)
    requires size >= MAX_LINE
    ensures MeaningOf(0, true, CRLF + x, size, eager) == MeaningOf(0, false, x, size, eager)
    ensures ReachesLast(0, true, CRLF + x, size) <==> ReachesLast(0, false, x, size)
  {
    assert (CRLF + x)[..2] == CRLF && (CRLF + x)[2..] == x;
  }

  /** A complete message is read as its data, with the end where the trailer begins. */
  lemma {:induction false} ReadsMessage(s: Bytes, ps: seq<Part>, last: Bytes, tail: Bytes, size: nat, eager: bool)
    requires IsMessage(s, ps, last, tail) && size >= MAX_LINE
    ensures MeaningOf(0, false, s, size, eager) == Meaning(DataOf(ps), EOF, tail) && ReachesLast(0, false, s, size)
    decreases |ps|
  {
    hide ChunkHeader, LineOf;
    if ps == [] {
      assert s == last + tail;
      HeaderBack(last, 0, tail, size);
    } else {
      var x := Wire(ps[1..]) + (last + tail);
      ReadsMessage(x, ps[1..], last, tail, size, eager);
      PartMeans(ps[0], x, size, eager);
      assert s == ps[0].line + (ps[0].data + (CRLF + x));
    }
  }

  /** A stream that goes on to a last chunk is a complete message. */
  lemma {:induction false} MessageFound(s: Bytes, size: nat) returns (ps: seq<Part>, last: Bytes, tail: Bytes)
    requires size >= MAX_LINE && ReachesLast(0, false, s, size)
    ensures IsMessage(s, ps, last, tail)
    decreases |s|
  {
    hide ChunkHeader, LineOf;
    var line := HeaderSplits(s, size);
    var (v, _, r) := ChunkHeader(s, size);
    if v.value == 0 {
      ps, last, tail := [], line, r;
    } else {
      var x := r[v.value..];
      assert ReachesLast(v.value, false, r, size);
      assert ReachesLast(0, true, x, size);
      ps, last, tail := MessageFound(x[2..], size);
      var p := Part(line, r[..v.value]);
      assert x == CRLF + x[2..];
      assert r == p.data + x;
      AddPart(s, p, x[2..], ps, last, tail);
      ps := [p] + ps;
    }
  }

  lemma AddPart(s: Bytes, p: Part, x: Bytes, ps: seq<Part>, last: Bytes, tail: Bytes)
    requires Complete(p) && IsMessage(x, ps, last, tail) && s == p.line + (p.data + (CRLF + x))
    ensures IsMessage(s, [p] + ps, last, tail)
  {
    hide Complete, LineOf;
    assert ([p] + ps)[1..] == ps;
    assert Wire([p] + ps) + (last + tail) == s;
  }

  // ---- The reader undoes the writer

  lemma DigitsPlain(h: Bytes)
    requires AllDigits(h)
    ensures forall b :: b in h ==> b != LF && !IsSpace(b) && b != SEMICOLON
  {
    forall b | b in h ensures b != LF && !IsSpace(b) && b != SEMICOLON {
      assert DigitValue(b).Some?;
    }
  }

  lemma {:induction false} LineEndAt(s: Bytes, i: nat)
    requires i < |s| && s[i] == LF && forall j :: 0 <= j < i ==> s[j] != LF
    ensures LineEnd(s) == i
  {
  }

  lemma TrimmedCRLF(h: Bytes)
    requires h != [] && !IsSpace(h[|h| - 1])
    ensures Trimmed(h + CRLF) == h
  {
    var s := h + CRLF;
    assert s[..|h| + 1] == h + [CR];
    assert (h + [CR])[..|h|] == h;
    assert Trimmed(s) == Trimmed(h + [CR]) == Trimmed(h) == h;
  }

  lemma {:induction false} NoExtension(p: Bytes)
    requires SEMICOLON !in p
    ensures BeforeExtension(p) == p
  {
    if p != [] { NoExtension(p[1..]); }
  }

  /** The digits of a number announce it. */
  lemma HexLine(v: nat)
    requires v < 0x1_0000_0000_0000_0000
    ensures LineOf(Hex(v) + CRLF, v)
  {
    hide HexValue, Trimmed, BeforeExtension;
    HexValueBack(v);
    HexBack(v);
    var h := Hex(v);
    DigitsPlain(h);
    forall j | 0 <= j < |h| + 1 ensures (h + CRLF)[j] != LF {
      if j < |h| { assert h[j] in h; }
    }
    LineEndAt(h + CRLF, |h| + 1);
    assert h[|h| - 1] in h;
    TrimmedCRLF(h);
    NoExtension(h);
  }

  /** The chunks that are written for pieces of a body. */
  function PartsOf(ds: seq<Bytes>): seq<Part> {
    if ds == [] then [] else (if ds[0] == [] then [] else [Part(Hex(|ds[0]|) + CRLF, ds[0])]) + PartsOf(ds[1..])
  }

  lemma {:induction false} PartsWritten(ds: seq<Bytes>)
    requires forall d :: d in ds ==> |d| < 0x1_0000_0000_0000_0000
    ensures Wire(PartsOf(ds)) == ChunksOf(ds) && DataOf(PartsOf(ds)) == Concat(ds) && forall p :: p in PartsOf(ds) ==> Complete(p)
  {
    hide LineOf;
    if ds != [] {
      var d, ps := ds[0], PartsOf(ds[1..]);
      PartsWritten(ds[1..]);
      if d == [] {
        assert PartsOf(ds) == ps;
      } else {
        var p := Part(Hex(|d|) + CRLF, d);
        assert d in ds;
        HexLine(|d|);
        assert PartsOf(ds)[1..] == ps;
        assert p.line + (p.data + (CRLF + Wire(ps))) == Chunk(d) + ChunksOf(ds[1..]);
      }
    }
  }

  /** Whatever the pieces in which a body is written, the stream means the body, and its end is where the
      trailer begins. */
  lemma MessageMeans(pieces: seq<Bytes>, tail: Bytes, size: nat, eager: bool)
    requires size >= MAX_LINE && forall p :: p in pieces ==> |p| < 0x1_0000_0000_0000_0000
    ensures MeaningOf(0, false, ChunksOf(pieces) + LAST + tail, size, eager) == Meaning(Concat(pieces), EOF, tail)
  {
    hide LineOf, ChunksOf, Wire, MeaningOf;
    PartsWritten(pieces);
    HexLine(0);
    assert Hex(0) + CRLF == LAST;
    var s := ChunksOf(pieces) + LAST + tail;
    assert s == Wire(PartsOf(pieces)) + (LAST + tail);
    ReadsMessage(s, PartsOf(pieces), LAST, tail, size, eager);
  }

  /** A body cut off inside a chunk reads like one that has ended: three bytes were announced, two came. */
  lemma CutOffLooksComplete(size: nat, eager: bool)
    requires size >= MAX_LINE
    ensures MeaningOf(0, false, [51, 13, 10, 97, 98], size, eager) == Meaning([97, 98], EOF, [])
    ensures !ReachesLast(0, false, [51, 13, 10, 97, 98], size)
  {
    hide ChunkHeader, LineOf;
    HexLine(3);
    HeaderBack(Hex(3) + CRLF, 3, [97, 98], size);
    assert Hex(3) + CRLF + [97, 98] == [51, 13, 10, 97, 98];
  }
}
