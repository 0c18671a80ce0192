/** The buffer and the pipe between the server, which receives a request body, and the handler that reads it. */
module FixedBuffers {
  import opened GoInt

  /** Go's copy: as many elements of src as fit into dst from position at. */
  method Copy(dst: array<Byte>, at: nat, src: seq<Byte>) returns (n: nat)
    requires at <= dst.Length
    modifies dst
    ensures n == Min(|src|, dst.Length - at)
    ensures dst[..] == old(dst[..at]) + src[..n] + old(dst[at + n..])
  {
    n := if |src| < dst.Length - at then |src| else dst.Length - at;
    for i := 0 to n
      invariant dst[..at] == old(dst[..at])
      invariant dst[at..at + i] == src[..i]
      invariant dst[at + i..] == old(dst[at + i..])
    {
      ghost var tail := dst[at + i..];
      dst[at + i] := src[i];
      assert dst[at..at + i + 1] == src[..i + 1];
      assert dst[at + i + 1..] == tail[1..];
    }
    assert dst[..] == dst[..at] + dst[at..at + n] + dst[at + n..];
  }

  class FixedBuffer {
    const buf: array<Byte>
    var r: nat
    var w: nat

    ghost predicate Valid()
      reads this
    {
      r <= w <= buf.Length
    }

    /** What has been written and not yet read, in order. */
    ghost function Contents(): (s: seq<Byte>)
      requires Valid()
      reads this, buf
      ensures |s| == w - r
    {
      buf[r..w]
    }

    constructor (size: nat)
      ensures Valid() && fresh(buf) && buf.Length == size && Contents() == []
    {
      buf := new Byte[size](_ => 0);
      r, w := 0, 0;
    }

    function Len(): (n: nat)
      requires Valid()
      reads this, buf
      ensures n == |Contents()|
    {
      w - r
    }

    /** Takes from the front as many bytes as p holds; fails on an empty buffer. */
    method Read(p: array<Byte>) returns (n: nat, ok: bool)
      requires Valid() && p != buf
      modifies this`r, this`w, p
      ensures Valid()
      ensures ok <==> old(Contents()) != []
      ensures n == if ok then Min(p.Length, |old(Contents())|) else 0
      ensures Contents() == old(Contents())[n..] && p[..n] == old(Contents())[..n] && p[n..] == old(p[n..])
    {
      ghost var c := Contents();
      if r == w {
        return 0, false;
      }
      n := Copy(p, 0, buf[r..w]);
      assert p[..n] == c[..n];
      r := r + n;
      assert buf[r..w] == c[n..];
      if r == w {
        r := 0;
        w := 0;
      }
      return n, true;
    }

    /** Appends as much of p as there is room for, counting the room that reading has made; fails if that is
        not all of it. */
    method Write(p: seq<Byte>) returns (n: nat, ok: bool)
      requires Valid()
      modifies this`r, this`w, buf
      ensures Valid()
      ensures n == Min(|p|, buf.Length - |old(Contents())|)
      ensures ok <==> n == |p|
      ensures Contents() == old(Contents()) + p[..n]
    {
      if r > 0 && |p| > buf.Length - w {
        Slide();
      }
      ghost var before := buf[..];
      n := Copy(buf, w, p);
      assert buf[r..w] == before[r..w] == old(Contents());
      assert buf[w..w + n] == p[..n];
      w := w + n;
      assert buf[r..w] == buf[r..w - n] + buf[w - n..w];
      ok := n == |p|;
    }

    /** Moves the contents to the front. */
    method Slide()
      requires Valid()
      modifies this`r, this`w, buf
      ensures Valid() && r == 0 && Contents() == old(Contents())
    {
      ghost var c := Contents();
      var m := Copy(buf, 0, buf[r..w]);
      w := w - r;
      r := 0;
      assert buf[r..w] == c;
    }
  }
}
