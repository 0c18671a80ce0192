/** Packets under AES-GCM, which does not encrypt the length but authenticates it (section 7 of RFC 5647). */
module SshGcmCipher {
  import opened GoInt
  import opened Options
  import opened BigEndian
  import opened SshPackets

  const TAG_SIZE: nat := 16

  /** An authenticated cipher: open(iv, seal(iv, p, a), a) is p, and what opens is as long as it should be. */
  datatype Aead = Aead(seal: (Bytes, Bytes, Bytes) -> Bytes, open: (Bytes, Bytes, Bytes) -> Option<Bytes>) {
    ghost predicate Good() {
      && (forall iv, p, a :: |seal(iv, p, a)| == |p| + TAG_SIZE && open(iv, seal(iv, p, a), a) == Some(p))
      && forall iv, c, a :: open(iv, c, a).Some? ==> |c| == |open(iv, c, a).value| + TAG_SIZE
    }
  }

  // ---- The counter

  /** The number in the bytes of s, high byte first. */
  function Value(s: Bytes): nat {
    if s == [] then 0 else Value(s[..|s| - 1]) * 256 + s[|s| - 1]
  }

  /** The bytes of s counted up by one, from the last byte on, with the carry lost at the front. */
  function Increment(s: Bytes): (t: Bytes)
    ensures |t| == |s|
  {
    if s == [] then []
    else if s[|s| - 1] == 255 then Increment(s[..|s| - 1]) + [0]
    else s[..|s| - 1] + [s[|s| - 1] + 1]
  }

  function Power(k: nat): nat {
    if k == 0 then 1 else 256 * Power(k - 1)
  }

  lemma Power8()
    ensures Power(8) == 0x1_0000_0000_0000_0000
  {
    assert Power(4) == 0x1_0000_0000 by { assert Power(2) == 0x1_0000; }
    assert Power(6) == 0x1_0000_0000_0000;
  }

  /** Counting up is adding one, modulo the size of the counter. */
  lemma {:induction false} IncrementAdds(s: Bytes)
    ensures Value(s) < Power(|s|)
    ensures Value(Increment(s)) == if Value(s) + 1 == Power(|s|) then 0 else Value(s) + 1
  {
    if s != [] {
      var t := s[..|s| - 1];
      IncrementAdds(t);
      if s[|s| - 1] == 255 {
        assert Increment(s)[..|t|] == Increment(t);
      } else {
        assert Increment(s)[..|t|] == t;
      }
    }
  }

  /** The invocation counter in an IV: its last eight bytes. */
  function Counter(iv: Bytes): nat
    requires |iv| == 12
  {
    Value(iv[4..])
  }

  function NextIV(iv: Bytes): (t: Bytes)
    requires |iv| == 12
    ensures |t| == 12
  {
    iv[..4] + Increment(iv[4..])
  }

  function IVAfter(iv: Bytes, k: nat): (t: Bytes)
    requires |iv| == 12
    ensures |t| == 12
  {
    if k == 0 then iv else NextIV(IVAfter(iv, k - 1))
  }

  lemma ModNext(a: nat)
    ensures var m := 0x1_0000_0000_0000_0000; (a + 1) % m == if a % m + 1 == m then 0 else a % m + 1
  {
  }

  /** After k packets the counter has advanced by k modulo 2^64, and the fixed part of the IV is as it was. */
  lemma {:induction false} CounterAfter(iv: Bytes, k: nat)
    requires |iv| == 12
    ensures Counter(IVAfter(iv, k)) == (Counter(iv) + k) % 0x1_0000_0000_0000_0000
    ensures IVAfter(iv, k)[..4] == iv[..4]
  {
    hide Increment, Power, Value;
    Power8();
    IncrementAdds(iv[4..]);
    if k > 0 {
      CounterAfter(iv, k - 1);
      var v := IVAfter(iv, k - 1);
      IncrementAdds(v[4..]);
      assert NextIV(v)[4..] == Increment(v[4..]);
      ModNext(Counter(iv) + k - 1);
    }
  }

  // ---- Packets

  function Sealed(aead: Aead, iv: Bytes, packet: Bytes, padding: Bytes): Bytes
    requires |packet| + |padding| + 1 < TWO_32 && |padding| < 256
  {
    var prefix := U32(|packet| + |padding| + 1);
    prefix + aead.seal(iv, [|padding|] + packet + padding, prefix)
  }

  datatype ReadStep = ReadStep(res: ReadResult, iv: Bytes, rest: Bytes)

  /** What reading a packet from the bytes s comes to. The code panics on an authentic packet of no bytes
      at all. */
  function Opened(aead: Aead, iv: Bytes, s: Bytes): ReadStep
    requires |iv| == 12
  {
    if |s| < 4 then ReadStep(Failure(ShortRead), iv, [])
    else
      var length := Get32(s);
      if length > MAX_PACKET then ReadStep(Failure(TooLarge), iv, s[4..])
      else if |s| - 4 < length + TAG_SIZE then ReadStep(Failure(ShortRead), iv, [])
      else
        var rest := s[4 + length + TAG_SIZE..];
        match aead.open(iv, s[4..4 + length + TAG_SIZE], s[..4])
        case None => ReadStep(Failure(BadTag), iv, rest)
        case Some(plain) => ReadStep(Unpadded(plain), NextIV(iv), rest)
  }

  function Unpadded(plain: Bytes): ReadResult {
    if plain == [] then Failure(IndexPanic)
    else if plain[0] < 4 || plain[0] >= 20 then Failure(IllegalPadding)
    else if plain[0] as int + 1 >= |plain| then Failure(PaddingTooLarge)
    else Packet(plain[1..|plain| - plain[0]])
  }

  class GcmCipher {
    const aead: Aead
    const iv: array<Byte>
    var prefix: Bytes
    var buf: Bytes

    ghost predicate Valid() {
      aead.Good() && iv.Length == 12
    }

    constructor (aead: Aead, iv: Bytes)
      requires aead.Good() && |iv| == 12
      ensures Valid() && fresh(this.iv) && this.iv[..] == iv && this.aead == aead
    {
      this.aead := aead;
      prefix, buf := [0, 0, 0, 0], [];
      this.iv := new Byte[12](i requires 0 <= i < 12 => iv[i]);
    }

    /** Counts the IV up in place. */
    method IncIV()
      requires Valid()
      modifies iv
      ensures iv[..] == NextIV(old(iv[..]))
    {
      ghost var v := iv[..];
      assert v[4..12] == v[4..];
      var i := 11;
      while i >= 4
        invariant 3 <= i <= 11
        invariant iv[..i + 1] == v[..i + 1] && forall k :: i < k < 12 ==> v[k] == 255 && iv[k] == 0
        invariant Increment(v[4..]) == Increment(v[4..i + 1]) + iv[i + 1..12]
      {
        ghost var tail := iv[i + 1..12];
        assert v[4..i + 1][..i - 4] == v[4..i];
        if iv[i] == 255 {
          iv[i] := 0;
          assert iv[i..12] == [0] + tail;
        } else {
          iv[i] := iv[i] + 1;
          assert iv[i + 1..12] == tail;
          assert iv[..] == v[..i] + [v[i] + 1] + tail;
          assert v[..i] == v[..4] + v[4..i];
          return;
        }
        i := i - 1;
      }
      assert v[4..4] == [];
      assert iv[..] == v[..4] + iv[4..12];
    }

    /** Writes a packet. A length that does not fit into 32 bits would be a panic. */
    method WritePacket(rand: Bytes, packet: Bytes) returns (wire: Bytes, err: Option<Problem>)
      requires Valid() && |packet| + 20 < TWO_32
      modifies this, iv
      ensures var n := PaddingFor(1 + |packet|);
        err == (if |rand| < n then Some(NoRandom) else None)
        && (err == None ==> wire == Sealed(aead, old(iv[..]), packet, rand[..n]) && iv[..] == NextIV(old(iv[..])))
        && (err.Some? ==> iv[..] == old(iv[..]))
    {
      hide PaddingFor, U32;
      PaddingLess(1 + |packet|);
      var padding := MULTIPLE - (1 + |packet|) % MULTIPLE;
      if padding < 4 {
        padding := padding + MULTIPLE;
      }
      var length := |packet| + padding + 1;
      prefix := U32(length);
      wire := prefix;
      buf := [padding] + packet;
      if |rand| < padding {
        return wire, Some(NoRandom);
      }
      buf := buf + rand[..padding];
      buf := aead.seal(iv[..], buf, prefix);
      wire := wire + buf;
      IncIV();
      err := None;
    }

    method ReadPacket(s: Bytes) returns (res: ReadResult, rest: Bytes)
      requires Valid()
      modifies this, iv
      ensures ReadStep(res, iv[..], rest) == Opened(aead, old(iv[..]), s)
    {
      hide Get32, Aead.Good;
      if |s| < 4 {
        return Failure(ShortRead), [];
      }
      prefix, rest := s[..4], s[4..];
      PrefixNumber(s);
      var length := Get32(prefix);
      if length > MAX_PACKET {
        return Failure(TooLarge), rest;
      }
      if |rest| < length + TAG_SIZE {
        return Failure(ShortRead), [];
      }
      buf := rest[..length + TAG_SIZE];
      rest := rest[length + TAG_SIZE..];
      assert buf == s[4..4 + length + TAG_SIZE];
      var plain := aead.open(iv[..], buf, prefix);
      if plain == None {
        return Failure(BadTag), rest;
      }
      OpenLength(aead, iv[..], buf, prefix);
      IncIV();
      if plain.value == [] {
        return Failure(IndexPanic), rest;
      }
      var padding := plain.value[0];
      if padding < 4 || padding >= 20 {
        return Failure(IllegalPadding), rest;
      }
      if padding as int + 1 >= |plain.value| {
        return Failure(PaddingTooLarge), rest;
      }
      return Packet(plain.value[1..length - padding]), rest;
    }
  }

  lemma OpenLength(aead: Aead, iv: Bytes, c: Bytes, a: Bytes)
    requires aead.Good() && aead.open(iv, c, a).Some?
    ensures |c| == |aead.open(iv, c, a).value| + TAG_SIZE
  {
  }

  lemma PaddingLess(n: nat)
    ensures var p := MULTIPLE - n % MULTIPLE;
      PaddingFor(n) == (if p < 4 then p + MULTIPLE else p) && PaddingFor(n) < 20
  {
  }

  lemma PrefixNumber(s: Bytes)
    requires |s| >= 4
    ensures Get32(s[..4]) == Get32(s)
  {
  }

  /** The reader undoes the writer, and counts its IV up as the writer does, for exactly the packets that are
      not empty and whose length is within the limit. */
  lemma PacketBack(aead: Aead, iv: Bytes, packet: Bytes, padding: Bytes, rest: Bytes)
    requires aead.Good() && |iv| == 12 && |padding| == PaddingFor(1 + |packet|) && |packet| + 20 < TWO_32
    ensures Opened(aead, iv, Sealed(aead, iv, packet, padding) + rest) == ReadStep(Packet(packet), NextIV(iv), rest)
      <==> packet != [] && |packet| + |padding| + 1 <= MAX_PACKET
  {
    hide U32, Get32, PaddingFor, NextIV;
    PaddingLess(1 + |packet|);
    var length := |packet| + |padding| + 1;
    var plain := [|padding|] + packet + padding;
    var prefix := U32(length);
    var c := aead.seal(iv, plain, prefix);
    var s := Sealed(aead, iv, packet, padding) + rest;
    NumbersBack32(length, c + rest);
    assert s == prefix + (c + rest);
    assert s[4..] == c + rest;
    if length <= MAX_PACKET {
      assert s[4..4 + length + TAG_SIZE] == c;
      assert s[..4] == prefix;
      assert s[4 + length + TAG_SIZE..] == rest;
      PaddingAtLeast(1 + |packet|);
      assert plain[1..|plain| - |padding|] == packet;
    }
  }

  lemma PaddingAtLeast(n: nat)
    ensures PaddingFor(n) >= 4
  {
  }

  /** The reader's only index out of range: an authentic packet whose length field is 0. */
  lemma PanicIff(aead: Aead, iv: Bytes, s: Bytes)
    requires aead.Good() && |iv| == 12
    ensures Opened(aead, iv, s).res == Failure(IndexPanic)
      <==> |s| >= 4 + TAG_SIZE && Get32(s) == 0 && aead.open(iv, s[4..4 + TAG_SIZE], s[..4]).Some?
  {
    hide Get32;
  }

  /** Such a packet: nothing at all, sealed under its length. */
  lemma EmptyPacketPanics(aead: Aead, iv: Bytes)
    requires aead.Good() && |iv| == 12
    ensures Opened(aead, iv, U32(0) + aead.seal(iv, [], U32(0))).res == Failure(IndexPanic)
  {
    hide U32, Get32;
    var c := aead.seal(iv, [], U32(0));
    NumbersBack32(0, c);
    var s := U32(0) + c;
    assert s[4..4 + TAG_SIZE] == c && s[..4] == U32(0);
    PanicIff(aead, iv, s);
  }

  /** Two ciphers with the same keys and IVs exchange packets: each comes out as it went in, and both IV
      counters advance by the number of packets. */
  method Exchange(w: GcmCipher, r: GcmCipher, packets: seq<Bytes>, rand: Bytes) returns (got: seq<Bytes>)
    requires w != r && w.Valid() && r.Valid() && w.iv != r.iv && w.aead == r.aead && w.iv[..] == r.iv[..] && |rand| >= 20
    requires forall p :: p in packets ==> 0 < |p| <= MAX_PACKET - 20
    modifies w, r, w.iv, r.iv
    ensures got == packets && w.iv[..] == r.iv[..] && w.iv[..4] == old(w.iv[..4])
    ensures Counter(w.iv[..]) == (old(Counter(w.iv[..])) + |packets|) % 0x1_0000_0000_0000_0000
  {
    hide PaddingFor, NextIV, Sealed, Opened, Counter;
    ghost var iv := w.iv[..];
    got := [];
    for i := 0 to |packets|
      invariant got == packets[..i] && w.iv[..] == r.iv[..] == IVAfter(iv, i)
    {
      assert packets[i] in packets;
      PaddingLess(1 + |packets[i]|);
      ghost var before := w.iv[..];
      var wire, err := w.WritePacket(rand, packets[i]);
      PacketBack(w.aead, before, packets[i], rand[..PaddingFor(1 + |packets[i]|)], []);
      assert wire + [] == wire;
      var res, rest := r.ReadPacket(wire);
      got := got + [res.p];
    }
    CounterAfter(iv, |packets|);
    assert w.iv[..4] == w.iv[..][..4];
  }
}
