/** The linked list of byte slices between the reader of a connection and the reader of a channel. */
module SshBuffers {
  import opened GoInt

  class Element {
    var buf: Bytes
    var next: Element?

    constructor (buf: Bytes)
      ensures this.buf == buf && next == null
    {
      this.buf, next := buf, null;
    }
  }

  datatype ReadResult = Got(p: Bytes) | EOF | Waits

  ghost function Concat(s: seq<Bytes>): Bytes {
    if s == [] then [] else s[0] + Concat(s[1..])
  }

  lemma {:induction false} ConcatAppend(s: seq<Bytes>, b: Bytes)
    ensures Concat(s + [b]) == Concat(s) + b
  {
    if s == [] {
      assert [b][1..] == [];
      assert Concat([b]) == b + Concat([]);
    } else {
      assert (s + [b])[1..] == s[1..] + [b];
      ConcatAppend(s[1..], b);
    }
  }

  class Buffer {
    var head: Element
    var tail: Element
    var closed: bool
    /** The elements from the head to the tail. */
    ghost var elems: seq<Element>
    /** Everything ever written, and everything ever read. */
    ghost var written: Bytes
    ghost var taken: Bytes

    ghost predicate Valid()
      reads this, elems
    {
      Linked() && written == taken + Contents()
    }

    ghost predicate Linked()
      reads this, elems
    {
      && elems != [] && head == elems[0] && tail == elems[|elems| - 1] && tail.next == null
      && (forall i :: 0 <= i < |elems| - 1 ==> elems[i].next == elems[i + 1])
      && forall i, j :: 0 <= i < j < |elems| ==> elems[i] != elems[j]
    }

    ghost function Nodes(): set<Element>
      reads this
    {
      set e | e in elems
    }

    ghost function Slices(s: seq<Element>): seq<Bytes>
      reads s
    {
      seq(|s|, i requires 0 <= i < |s| reads s => s[i].buf)
    }

    /** What has been written and not yet read, in order. */
    ghost function Contents(): Bytes
      reads this, elems
    {
      Concat(Slices(elems))
    }

    constructor ()
      ensures Valid() && fresh(elems) && Contents() == [] && !closed && written == [] && taken == []
    {
      var e := new Element([]);
      head, tail, closed, elems, written, taken := e, e, false, [e], [], [];
      new;
      assert Slices(elems) == [[]];
      assert Concat([[]]) == [] + Concat([[]][1..]);
    }

    /** Links the bytes in behind the tail, without copying them. */
    method Write(buf: Bytes)
      requires Valid()
      modifies this`tail, this`elems, this`written, Nodes()
      ensures Valid() && fresh(Nodes() - old(Nodes())) && Contents() == old(Contents()) + buf
      ensures closed == old(closed) && written == old(written) + buf && taken == old(taken)
    {
      ghost var slices := Slices(elems);
      var e := new Element(buf);
      tail.next := e;
      tail := e;
      elems := elems + [e];
      assert Slices(elems) == slices + [buf];
      ConcatAppend(slices, buf);
      MoveFront(taken, Concat(slices), buf);
      written := written + buf;
    }

    /** No more will be written. */
    method Eof()
      modifies this`closed
      ensures closed
    {
      closed := true;
    }

    /** Reads the first bytes, as many as are wanted and there; with none there it waits or, once the buffer is
        closed, reports the end. */
    method Read(want: nat) returns (res: ReadResult)
      requires Valid()
      modifies this`head, this`elems, this`taken, Nodes()
      ensures Valid() && Nodes() <= old(Nodes())
      ensures want == 0 ==> res == Got([]) && Contents() == old(Contents())
      ensures want > 0 && old(Contents()) != [] ==> res == Got(old(Contents())[..Min(want, |old(Contents())|)])
      ensures want > 0 && old(Contents()) == [] ==> res == if closed then EOF else Waits
      ensures Contents() == old(Contents())[if res.Got? then |res.p| else 0..]
      ensures taken == old(taken) + if res.Got? then res.p else []
      ensures |Contents()| == |old(Contents())| - if res.Got? then |res.p| else 0
    {
      var out: Bytes := [];
      ghost var all := Contents();
      while |out| < want
        invariant Valid() && |out| <= want && all == out + Contents() && taken == old(taken) + out
        invariant Nodes() <= old(Nodes()) && closed == old(closed)
        decreases want - |out|, |elems|
      {
        if |head.buf| > 0 {
          assert head in Nodes();
          var p := Consume(want - |out|);
          MoveFront(out, p, Contents());
          MoveFront(old(taken), out, p);
          out := out + p;
        } else if head != tail {
          DropHead();
        } else {
          LastSlice();
          if |out| > 0 {
            break;
          }
          return if closed then EOF else Waits;
        }
      }
      return Got(out);
    }

    /** Copies at most n bytes out of the head. */
    method Consume(n: nat) returns (p: Bytes)
      requires Valid() && n > 0 && head.buf != []
      modifies head`buf, this`taken
      ensures Valid() && taken == old(taken) + p && p != [] && |p| <= n && old(Contents()) == p + Contents()
    {
      var r := if |head.buf| < n then |head.buf| else n;
      FirstSlice(elems);
      p := head.buf[..r];
      ghost var first, rest := head.buf, Slices(elems[1..]);
      head.buf := head.buf[r..];
      assert first == p + head.buf;
      FirstSlice(elems);
      assert Slices(elems[1..]) == rest;
      MoveFront(p, head.buf, Concat(rest));
      MoveFront(taken, p, Contents());
      taken := taken + p;
    }

    /** Goes on to the next element. */
    method DropHead()
      requires Valid() && head.buf == [] && head != tail
      modifies this`head, this`elems
      ensures Valid() && Nodes() <= old(Nodes()) && |elems| < |old(elems)| && Contents() == old(Contents())
    {
      FirstSlice(elems);
      head := head.next;
      elems := elems[1..];
    }

    lemma FirstSlice(s: seq<Element>)
      requires s != []
      ensures Concat(Slices(s)) == s[0].buf + Concat(Slices(s[1..]))
    {
      assert Slices(s)[1..] == Slices(s[1..]);
    }

    /** At the tail nothing but the head is left. */
    lemma LastSlice()
      requires Valid() && head == tail
      ensures Contents() == head.buf
    {
      FirstSlice(elems);
      assert |elems| == 1;
      assert Slices(elems[1..]) == [];
    }
  }

  lemma MoveFront(a: Bytes, b: Bytes, c: Bytes)
    ensures (a + b) + c == a + (b + c)
  {
  }
}
