/** What the packet ciphers of SSH have in common (section 6 of RFC 4253). The algorithms themselves are
    parameters. */
module SshPackets {
  import opened GoInt
  import opened Options

  const MAX_PACKET: nat := 0x4_0000
  const MULTIPLE: nat := 16
  const PREFIX_LEN: nat := 5

  /** A message authentication code with results of a fixed size. */
  datatype Mac = Mac(size: nat, sum: Bytes -> Bytes) {
    ghost predicate Good() {
      size < 0x100 && forall x :: |sum(x)| == size
    }
  }

  function MacSize(mac: Option<Mac>): nat {
    if mac.Some? then mac.value.size else 0
  }

  ghost predicate GoodMac(mac: Option<Mac>) {
    mac.Some? ==> mac.value.Good()
  }

  /** A panic is an outcome of its own. */
  datatype Problem =
    | ShortRead | NoRandom | TooSmall | TooLarge | BadMac | BadTag | IllegalPadding | PaddingTooLarge | BadMultiple | BadLength
    | IndexPanic

  datatype ReadResult = Packet(p: Bytes) | Failure(e: Problem)

  /** How much padding makes n and it a multiple of 16: at least 4 bytes. */
  function PaddingFor(n: nat): (p: nat)
    ensures 4 <= p < 20 && (n + p) % MULTIPLE == 0
  {
    var p := MULTIPLE - n % MULTIPLE;
    if p < 4 then p + MULTIPLE else p
  }

  /** Sequences put together come apart again. */
  lemma Three(a: Bytes, b: Bytes, c: Bytes)
    ensures var d := a + (b + c); d[..|a|] == a && d[|a|..|a| + |b|] == b && d[|a| + |b|..] == c
  {
  }
}

/** Packets under a stream cipher, which encrypts the length too. */
module SshStreamCipher {
  import opened GoInt
  import opened Options
  import opened BigEndian
  import opened SshPackets

  /** crypt(i, b) is the byte b under the i-th byte of the key stream. */
  ghost predicate Involution(crypt: (nat, Byte) -> Byte) {
    forall i: nat, b: Byte :: crypt(i, crypt(i, b)) == b
  }

  function Xor(crypt: (nat, Byte) -> Byte, pos: nat, s: Bytes): (t: Bytes)
    ensures |t| == |s|
  {
    seq(|s|, i requires 0 <= i < |s| => crypt(pos + i, s[i]))
  }

  lemma XorTwice(crypt: (nat, Byte) -> Byte, pos: nat, s: Bytes)
    requires Involution(crypt)
    ensures Xor(crypt, pos, Xor(crypt, pos, s)) == s
  {
  }

  lemma XorParts(crypt: (nat, Byte) -> Byte, pos: nat, a: Bytes, b: Bytes)
    ensures Xor(crypt, pos, a + b) == Xor(crypt, pos, a) + Xor(crypt, pos + |a|, b)
  {
  }

  function Header(n: nat, padding: nat): (h: Bytes)
    requires n + 1 + padding < TWO_32 && padding < 256
    ensures |h| == 5
  {
    U32(n + 1 + padding) + [padding]
  }

  /** The bytes on the wire for a packet. */
  function Sealed(crypt: (nat, Byte) -> Byte, mac: Option<Mac>, pos: nat, seqNum: UInt32, packet: Bytes, padding: Bytes): Bytes
    requires |packet| + 1 + |padding| < TWO_32 && |padding| < 256
  {
    var plain := Header(|packet|, |padding|) + packet + padding;
    Xor(crypt, pos, plain) + if mac.Some? then mac.value.sum(U32(seqNum) + plain) else []
  }

  datatype ReadStep = ReadStep(res: ReadResult, pos: nat, rest: Bytes)

  /** What reading a packet from the bytes s comes to. */
  function Opened(crypt: (nat, Byte) -> Byte, mac: Option<Mac>, pos: nat, seqNum: UInt32, s: Bytes): ReadStep {
    if |s| < 5 then ReadStep(Failure(ShortRead), pos, [])
    else
      var prefix := Xor(crypt, pos, s[..5]);
      var length: nat, padding: nat := Get32(prefix), prefix[4];
      if length <= padding + 1 then ReadStep(Failure(TooSmall), pos + 5, s[5..])
      else if length > MAX_PACKET then ReadStep(Failure(TooLarge), pos + 5, s[5..])
      else if |s| - 5 < length - 1 + MacSize(mac) then ReadStep(Failure(ShortRead), pos + 5, [])
      else
        var data := Xor(crypt, pos + 5, s[5..5 + length - 1]);
        var end := 5 + length - 1;
        if mac.Some? && mac.value.sum(U32(seqNum) + prefix + data) != s[end..end + mac.value.size]
        then ReadStep(Failure(BadMac), pos + end, s[end + MacSize(mac)..])
        else ReadStep(Packet(data[..length - padding - 1]), pos + end, s[end + MacSize(mac)..])
  }

  class StreamPacketCipher {
    const crypt: (nat, Byte) -> Byte
    const mac: Option<Mac>
    /** How much of the key stream has been used. */
    var pos: nat
    var prefix: Bytes
    var packetData: Bytes

    ghost predicate Valid() {
      Involution(crypt) && GoodMac(mac)
    }

    constructor (crypt: (nat, Byte) -> Byte, mac: Option<Mac>)
      requires Involution(crypt) && GoodMac(mac)
      ensures Valid() && this.crypt == crypt && this.mac == mac && pos == 0
    {
      this.crypt, this.mac := crypt, mac;
      pos, prefix, packetData := 0, [0, 0, 0, 0, 0], [];
    }

    method XORKeyStream(s: Bytes) returns (t: Bytes)
      modifies this`pos
      ensures t == Xor(crypt, old(pos), s) && pos == old(pos) + |s|
    {
      t := Xor(crypt, pos, s);
      pos := pos + |s|;
    }

    /** Writes a packet, with padding taken from rand. */
    method WritePacket(seqNum: UInt32, rand: Bytes, packet: Bytes) returns (wire: Bytes, err: Option<Problem>)
      requires Valid()
      modifies this
      ensures err == WriteProblem(PaddingFor(PREFIX_LEN + |packet|), rand, packet)
      ensures err.Some? ==> wire == [] && pos == old(pos)
      ensures err == None ==> wire == Sealed(crypt, mac, old(pos), seqNum, packet, rand[..PaddingFor(PREFIX_LEN + |packet|)])
      ensures err == None ==> pos == old(pos) + PREFIX_LEN + |packet| + PaddingFor(PREFIX_LEN + |packet|)
    {
      hide PaddingFor, Xor, U32;
      if |packet| > MAX_PACKET {
        return [], Some(TooLarge);
      }
      var paddingLength := MULTIPLE - (PREFIX_LEN + |packet|) % MULTIPLE;
      if paddingLength < 4 {
        paddingLength := paddingLength + MULTIPLE;
      }
      PaddingIs(PREFIX_LEN + |packet|);
      var length := |packet| + 1 + paddingLength;
      prefix := U32(length) + [paddingLength];
      if |rand| < paddingLength {
        return [], Some(NoRandom);
      }
      var padding := rand[..paddingLength];
      ghost var plain := prefix + packet + padding;
      ghost var start := pos;
      U32Size(length);
      wire := [];
      var sum := if mac.Some? then mac.value.sum(U32(seqNum) + prefix + packet + padding) else [];
      assert U32(seqNum) + prefix + packet + padding == U32(seqNum) + plain;
      XorParts(crypt, start, prefix + packet, padding);
      XorParts(crypt, start, prefix, packet);
      prefix := XORKeyStream(prefix);
      var p := XORKeyStream(packet);
      padding := XORKeyStream(padding);
      wire := prefix + p + padding;
      wire := wire + sum;
      err := None;
    }

    /** Reads a packet, decrypts it and checks its MAC. */
    method ReadPacket(seqNum: UInt32, s: Bytes) returns (res: ReadResult, rest: Bytes)
      requires Valid()
      modifies this
      ensures ReadStep(res, pos, rest) == Opened(crypt, mac, old(pos), seqNum, s)
    {
      hide Xor, U32, Get32;
      if |s| < 5 {
        return Failure(ShortRead), [];
      }
      prefix, rest := s[..5], s[5..];
      prefix := XORKeyStream(prefix);
      var length: nat, paddingLength: nat := Get32(prefix), prefix[4];
      var macSize := MacSize(mac);
      if length <= paddingLength + 1 {
        return Failure(TooSmall), rest;
      }
      if length > MAX_PACKET {
        return Failure(TooLarge), rest;
      }
      assert length - 1 + macSize < TWO_32;
      if |rest| < length - 1 + macSize {
        return Failure(ShortRead), [];
      }
      packetData := rest[..length - 1 + macSize];
      rest := rest[length - 1 + macSize..];
      var sum := packetData[length - 1..];
      assert packetData[..length - 1] == s[5..5 + length - 1];
      assert sum == s[5 + length - 1..5 + length - 1 + macSize];
      var data := XORKeyStream(packetData[..length - 1]);
      packetData := data + sum;
      if mac.Some? {
        if mac.value.sum(U32(seqNum) + prefix + data) != sum {
          return Failure(BadMac), rest;
        }
      }
      assert packetData[..length - paddingLength - 1] == data[..length - paddingLength - 1];
      return Packet(packetData[..length - paddingLength - 1]), rest;
    }
  }

  /** Why a packet is not written. */
  function WriteProblem(padding: nat, rand: Bytes, packet: Bytes): Option<Problem> {
    if |packet| > MAX_PACKET then Some(TooLarge) else if |rand| < padding then Some(NoRandom) else None
  }

  lemma PaddingIs(n: nat)
    ensures var p := MULTIPLE - n % MULTIPLE;
      PaddingFor(n) == if p < 4 then p + MULTIPLE else p
  {
  }

  lemma U32Size(v: UInt32)
    ensures |U32(v)| == 4
  {
  }

  /** The reader undoes the writer, and uses as much of the key stream, for exactly the packets that are not
      empty and whose length field is within the limit. */
  lemma PacketBack(crypt: (nat, Byte) -> Byte, mac: Option<Mac>, pos: nat, seqNum: UInt32, packet: Bytes, padding: Bytes, rest: Bytes)
    requires Involution(crypt) && GoodMac(mac) && |packet| <= MAX_PACKET && |padding| == PaddingFor(PREFIX_LEN + |packet|)
    ensures Opened(crypt, mac, pos, seqNum, Sealed(crypt, mac, pos, seqNum, packet, padding) + rest)
      == ReadStep(Packet(packet), pos + PREFIX_LEN + |packet| + |padding|, rest)
      <==> packet != [] && |packet| + 1 + |padding| <= MAX_PACKET
  {
    hide Xor, U32, Get32, PaddingFor, Involution, Header;
    var h := Header(|packet|, |padding|);
    var body := packet + padding;
    var plain := h + packet + padding;
    assert plain == h + body;
    HeaderParts(|packet|, |padding|);
    var sum := if mac.Some? then mac.value.sum(U32(seqNum) + plain) else [];
    XorParts(crypt, pos, h, body);
    assert U32(seqNum) + h + body == U32(seqNum) + plain;
    assert Sealed(crypt, mac, pos, seqNum, packet, padding) + rest == Xor(crypt, pos, h) + (Xor(crypt, pos + 5, body) + (sum + rest));
    Unsealed(crypt, mac, pos, seqNum, h, body, sum, rest);
    assert body[..|packet|] == packet;
  }

  /** What reading the encrypted header h and the encrypted body comes to, if the header gives the length of the body. */
  lemma Unsealed(crypt: (nat, Byte) -> Byte, mac: Option<Mac>, pos: nat, seqNum: UInt32, h: Bytes, body: Bytes, sum: Bytes, rest: Bytes)
    requires Involution(crypt) && |h| == 5 && Get32(h) == |body| + 1 && |sum| == MacSize(mac)
    requires mac.Some? ==> mac.value.sum(U32(seqNum) + h + body) == sum
    ensures var o := Opened(crypt, mac, pos, seqNum, Xor(crypt, pos, h) + (Xor(crypt, pos + 5, body) + (sum + rest)));
      if |body| <= h[4] || |body| + 1 > MAX_PACKET then o.res.Failure?
      else o == ReadStep(Packet(body[..|body| - h[4]]), pos + 5 + |body|, rest)
  {
    hide Xor, U32, Get32, Involution;
    var x, y := Xor(crypt, pos, h), Xor(crypt, pos + 5, body);
    var s := x + (y + (sum + rest));
    Three(x, y, sum + rest);
    Three(x + y, sum, rest);
    assert s == (x + y) + (sum + rest);
    XorTwice(crypt, pos, h);
    XorTwice(crypt, pos + 5, body);
  }

  lemma HeaderParts(n: nat, padding: nat)
    requires n + 1 + padding < TWO_32 && padding < 256
    ensures Get32(Header(n, padding)) == n + 1 + padding && Header(n, padding)[4] == padding
  {
    hide U32, Get32;
    NumbersBack32(n + 1 + padding, [padding]);
  }
}
