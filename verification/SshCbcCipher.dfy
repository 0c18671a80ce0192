/** Packets under a block cipher in CBC mode (section 6.1 of RFC 4253), with the reader's guard against
    telling one verification error from another. */
module SshCbcCipher {
  import opened GoInt
  import opened Options
  import opened BigEndian
  import opened SshPackets

  const MIN_MULTIPLE: nat := 8
  const MIN_PACKET: nat := 16
  const MIN_PADDING: nat := 4

  /** A block cipher in a mode in which every block of ciphertext is the IV of the next block. */
  datatype Mode = Mode(size: nat, enc: (Bytes, Bytes) -> Bytes, dec: (Bytes, Bytes) -> Bytes) {
    ghost predicate Good() {
      && (size == 8 || size == 16)
      && (forall iv, b :: |b| == size ==> |enc(iv, b)| == size && dec(iv, enc(iv, b)) == b)
      && forall iv, c :: |c| == size ==> |dec(iv, c)| == size
    }
  }

  /** n bytes are a whole number of blocks of 8 or 16. */
  predicate Whole(n: int, size: nat) {
    if size == 8 then n % 8 == 0 else n % 16 == 0
  }

  ghost function Encrypted(m: Mode, iv: Bytes, p: Bytes): (c: Bytes)
    requires m.Good() && Whole(|p|, m.size)
    ensures |c| == |p|
    decreases |p|
  {
    if p == [] then []
    else
      var c := m.enc(iv, p[..m.size]);
      c + Encrypted(m, c, p[m.size..])
  }

  ghost function Decrypted(m: Mode, iv: Bytes, c: Bytes): (p: Bytes)
    requires m.Good() && Whole(|c|, m.size)
    ensures |p| == |c|
    decreases |c|
  {
    if c == [] then [] else m.dec(iv, c[..m.size]) + Decrypted(m, c[..m.size], c[m.size..])
  }

  /** The IV after the ciphertext c. */
  ghost function LastBlock(m: Mode, iv: Bytes, c: Bytes): Bytes
    requires m.Good() && Whole(|c|, m.size)
  {
    if c == [] then iv else c[|c| - m.size..]
  }

  lemma {:induction false} DecryptedEncrypted(m: Mode, iv: Bytes, p: Bytes)
    requires m.Good() && Whole(|p|, m.size)
    ensures Decrypted(m, iv, Encrypted(m, iv, p)) == p
    decreases |p|
  {
    if p != [] {
      var c := m.enc(iv, p[..m.size]);
      DecryptedEncrypted(m, c, p[m.size..]);
      var e := Encrypted(m, iv, p);
      assert e[..m.size] == c && e[m.size..] == Encrypted(m, c, p[m.size..]);
      assert p == p[..m.size] + p[m.size..];
    }
  }

  lemma AppendLater(a: Bytes, b: Bytes, c: Bytes)
    ensures a + (b + c) == (a + b) + c
  {
  }

  lemma EncryptedStep(m: Mode, iv: Bytes, p: Bytes)
    requires m.Good() && Whole(|p|, m.size)
    ensures p == [] ==> Encrypted(m, iv, p) == []
    ensures p != [] ==> |p| >= m.size > 0 && Whole(|p[m.size..]|, m.size) && |m.enc(iv, p[..m.size])| == m.size
    ensures p != [] ==> var c := m.enc(iv, p[..m.size]); Encrypted(m, iv, p) == c + Encrypted(m, c, p[m.size..])
    ensures Whole(0, m.size) && LastBlock(m, iv, []) == iv
  {
  }

  /** The first block, and the others after it. */
  lemma DecryptedStep(m: Mode, iv: Bytes, c: Bytes)
    requires m.Good() && Whole(|c|, m.size)
    ensures c == [] ==> Decrypted(m, iv, c) == [] && LastBlock(m, iv, c) == iv
    ensures c != [] ==> |c| >= m.size > 0 && Whole(|c[m.size..]|, m.size)
    ensures c != [] ==> Decrypted(m, iv, c) == m.dec(iv, c[..m.size]) + Decrypted(m, c[..m.size], c[m.size..])
    ensures c != [] ==> LastBlock(m, iv, c) == LastBlock(m, c[..m.size], c[m.size..])
  {
    if c != [] && c[m.size..] == [] {
      assert c == c[..m.size];
    }
  }

  lemma WholeSum(a: Bytes, b: Bytes, size: nat)
    requires Whole(|a|, size) && Whole(|b|, size)
    ensures Whole(|a + b|, size)
  {
  }

  lemma {:induction false} DecryptedParts(m: Mode, iv: Bytes, a: Bytes, b: Bytes)
    requires m.Good() && Whole(|a|, m.size) && Whole(|b|, m.size)
    ensures Whole(|a + b|, m.size) && Decrypted(m, iv, a + b) == Decrypted(m, iv, a) + Decrypted(m, LastBlock(m, iv, a), b)
    decreases |a|
  {
    hide Decrypted, LastBlock, Mode.Good, Whole;
    WholeSum(a, b, m.size);
    DecryptedStep(m, iv, a);
    if a == [] {
      assert a + b == b;
    } else {
      DecryptedStep(m, iv, a + b);
      var h, t := a[..m.size], a[m.size..];
      DecryptedParts(m, h, t, b);
      assert (a + b)[..m.size] == h && (a + b)[m.size..] == t + b;
    }
  }

  lemma OneSize(m: Mode)
    requires m.Good()
    ensures Whole(m.size, m.size) && (m.size == 8 || m.size == 16)
    ensures forall c: Bytes :: c != [] && Whole(|c|, m.size) ==> |c| >= m.size
  {
  }

  /** The last block of a + b is the last block of b, unless b is empty. */
  lemma LastParts(m: Mode, iv: Bytes, a: Bytes, b: Bytes)
    requires m.Good() && Whole(|a|, m.size) && Whole(|b|, m.size)
    ensures Whole(|a + b|, m.size) && LastBlock(m, iv, a + b) == LastBlock(m, LastBlock(m, iv, a), b)
  {
    hide Mode.Good, Whole;
    OneSize(m);
    WholeSum(a, b, m.size);
    if b == [] {
      assert a + b == a;
    } else {
      var t := b[|b| - m.size..];
      Three(a, b[..|b| - m.size], t);
      assert a + b == a + (b[..|b| - m.size] + t);
    }
  }

  function RoundUp(n: nat, k: nat): (r: nat)
    requires k == 8 || k == 16
    ensures r % k == 0 && n <= r < n + k
  {
    if k == 8 then (n + 7) / 8 * 8 else (n + 15) / 16 * 16
  }

  /** The length of the encrypted part of a packet with n bytes of payload. */
  function EncLength(n: nat, size: nat): nat
    requires size == 8 || size == 16
  {
    RoundUp(PREFIX_LEN + n + MIN_PADDING, Max(MIN_MULTIPLE, size))
  }

  function Plain(packet: Bytes, padding: Bytes): Bytes
    requires |packet| + |padding| + 1 < TWO_32 && |padding| < 256
  {
    U32(1 + |packet| + |padding|) + [|padding|] + packet + padding
  }

  ghost function Sealed(m: Mode, mac: Option<Mac>, iv: Bytes, seqNum: UInt32, packet: Bytes, padding: Bytes): Bytes
    requires m.Good() && |packet| + |padding| + 1 < TWO_32 && |padding| < 256 && Whole(|Plain(packet, padding)|, m.size)
  {
    var plain := Plain(packet, padding);
    Encrypted(m, iv, plain) + if mac.Some? then mac.value.sum(U32(seqNum) + plain) else []
  }

  datatype ReadStep = ReadStep(res: ReadResult, iv: Bytes, rest: Bytes)

  /** Reading goes on, so that every verification error uses up the same number of bytes. */
  ghost function Hidden(e: Problem, mac: Option<Mac>, iv: Bytes, s: Bytes): ReadStep {
    ReadStep(Failure(e), iv, s[Min(|s|, MAX_PACKET + 4 + MacSize(mac))..])
  }

  /** What the first block, decrypted, says is wrong with the packet. */
  function HeaderProblem(first: Bytes, size: nat): Option<Problem>
    requires |first| >= 5
  {
    var length: nat, padding: nat := Get32(first), first[4];
    if length > MAX_PACKET then Some(TooLarge)
    else if length + 4 < Max(MIN_PACKET, size) then Some(TooSmall)
    else if (length + 4) % Max(MIN_MULTIPLE, size) != 0 then Some(BadMultiple)
    else if padding < MIN_PADDING || length <= padding + 1 then Some(BadLength)
    else None
  }

  /** What reading a packet from the bytes s comes to. */
  ghost function Opened(m: Mode, mac: Option<Mac>, iv: Bytes, seqNum: UInt32, s: Bytes): ReadStep
    requires m.Good()
  {
    if |s| < m.size then ReadStep(Failure(ShortRead), iv, [])
    else
      var first := Decrypted(m, iv, s[..m.size]);
      var problem := HeaderProblem(first, m.size);
      if problem.Some? then Hidden(problem.value, mac, s[..m.size], s)
      else OpenedRest(m, mac, iv, seqNum, s)
  }

  /** The same, when the first block is all right. */
  ghost function OpenedRest(m: Mode, mac: Option<Mac>, iv: Bytes, seqNum: UInt32, s: Bytes): ReadStep
    requires m.Good() && |s| >= m.size && HeaderProblem(Decrypted(m, iv, s[..m.size]), m.size) == None
  {
    var first := Decrypted(m, iv, s[..m.size]);
    var length: nat, padding: nat := Get32(first), first[4];
    GoodHeader(first, m.size);
    var end := 4 + length;
    if |s| < end + MacSize(mac) then ReadStep(Failure(ShortRead), s[..m.size], [])
    else
      var plain := Decrypted(m, iv, s[..end]);
      var last := LastBlock(m, iv, s[..end]);
      if mac.Some? && mac.value.sum(U32(seqNum) + plain) != s[end..end + mac.value.size] then Hidden(BadMac, mac, last, s)
      else ReadStep(Packet(plain[5..end - padding]), last, s[end + MacSize(mac)..])
  }

  class CbcCipher {
    const mode: Mode
    const mac: Option<Mac>
    var encIV: Bytes
    var decIV: Bytes
    var packetData: Bytes
    var oracleCamouflage: UInt32

    ghost predicate Valid() {
      mode.Good() && GoodMac(mac)
    }

    lemma ValidParts()
      ensures Valid() ==> mode.Good() && GoodMac(mac) && MacSize(mac) < 0x100
    {
    }

    constructor (mode: Mode, mac: Option<Mac>, iv: Bytes)
      requires mode.Good() && GoodMac(mac)
      ensures Valid() && this.mode == mode && this.mac == mac && encIV == iv && decIV == iv
    {
      this.mode, this.mac := mode, mac;
      encIV, decIV, packetData, oracleCamouflage := iv, iv, [], 0;
    }

    /** CryptBlocks of the encrypter. */
    method Encrypt(p: Bytes) returns (c: Bytes)
      requires Valid() && Whole(|p|, mode.size)
      modifies this`encIV
      ensures c == Encrypted(mode, old(encIV), p) && encIV == LastBlock(mode, old(encIV), c)
    {
      hide Encrypted, LastBlock, Mode.Good, Whole;
      var rest := p;
      c := [];
      EncryptedStep(mode, encIV, rest);
      while rest != []
        invariant Whole(|rest|, mode.size) && Encrypted(mode, old(encIV), p) == c + Encrypted(mode, encIV, rest)
        invariant Whole(|c|, mode.size) && LastBlock(mode, old(encIV), c) == encIV
        decreases |rest|
      {
        EncryptedStep(mode, encIV, rest);
        var b := mode.enc(encIV, rest[..mode.size]);
        OneBlock(mode, encIV, b);
        LastParts(mode, old(encIV), c, b);
        AppendLater(c, b, Encrypted(mode, b, rest[mode.size..]));
        rest := rest[mode.size..];
        encIV := b;
        c := c + b;
      }
      EncryptedStep(mode, encIV, rest);
    }

    /** CryptBlocks of the decrypter. */
    method Decrypt(c: Bytes) returns (p: Bytes)
      requires Valid() && Whole(|c|, mode.size)
      modifies this`decIV
      ensures p == Decrypted(mode, old(decIV), c) && decIV == LastBlock(mode, old(decIV), c)
    {
      hide Decrypted, LastBlock, Mode.Good, Whole;
      var rest := c;
      p := [];
      while rest != []
        invariant Whole(|rest|, mode.size) && Decrypted(mode, old(decIV), c) == p + Decrypted(mode, decIV, rest)
        invariant LastBlock(mode, old(decIV), c) == LastBlock(mode, decIV, rest)
        decreases |rest|
      {
        DecryptedStep(mode, decIV, rest);
        var b := mode.dec(decIV, rest[..mode.size]);
        decIV := rest[..mode.size];
        rest := rest[mode.size..];
        p := p + b;
      }
      DecryptedStep(mode, decIV, rest);
    }

    /** Writes a packet. A length that does not fit into 32 bits would be a panic. */
    method WritePacket(seqNum: UInt32, rand: Bytes, packet: Bytes) returns (wire: Bytes, err: Option<Problem>)
      requires Valid() && |packet| + 0x200 < TWO_32
      modifies this`encIV, this`packetData
      ensures var n := EncLength(|packet|, mode.size) - PREFIX_LEN - |packet|;
        && 4 <= n < 20 && Whole(|Plain(packet, Zeros(n))|, mode.size)
        && err == (if |rand| < n then Some(NoRandom) else None)
      ensures err == None ==> var n := EncLength(|packet|, mode.size) - PREFIX_LEN - |packet|;
        Whole(|Plain(packet, rand[..n])|, mode.size) && wire == Sealed(mode, mac, old(encIV), seqNum, packet, rand[..n])
        && encIV == LastBlock(mode, old(encIV), Encrypted(mode, old(encIV), Plain(packet, rand[..n])))
      ensures err.Some? ==> encIV == old(encIV)
    {
      hide U32, Encrypted, LastBlock, EncLength, Plain, Mode.Good, Whole;
      OneSize(mode);
      EncLengths(|packet|, mode.size);
      var effectiveBlockSize := Max(MIN_MULTIPLE, mode.size);
      var encLength := Max(PREFIX_LEN + |packet| + MIN_PADDING, MIN_PADDING);
      encLength := (encLength + effectiveBlockSize - 1) / effectiveBlockSize * effectiveBlockSize;
      var length := encLength - 4;
      var paddingLength := length - (1 + |packet|);
      PlainLength(packet, Zeros(paddingLength));
      packetData := U32(length) + [paddingLength] + packet;
      if |rand| < paddingLength {
        return [], Some(NoRandom);
      }
      packetData := packetData + rand[..paddingLength];
      PlainLength(packet, rand[..paddingLength]);
      assert packetData == Plain(packet, rand[..paddingLength]);
      var sum := [];
      if mac.Some? {
        sum := mac.value.sum(U32(seqNum) + packetData);
      }
      var c := Encrypt(packetData);
      packetData := c + sum;
      return packetData, None;
    }

    /** Reads a packet; after a verification error it goes on reading, to hide which one it was. */
    method ReadPacket(seqNum: UInt32, s: Bytes) returns (res: ReadResult, rest: Bytes)
      requires Valid()
      modifies this
      ensures ReadStep(res, decIV, rest) == Opened(mode, mac, old(decIV), seqNum, s)
    {
      hide Decrypted, LastBlock;
      var verification;
      res, rest, verification := ReadPacketLeaky(seqNum, s);
      if verification {
        rest := rest[if oracleCamouflage < |rest| then oracleCamouflage else |rest|..];
      }
    }

    method ReadPacketLeaky(seqNum: UInt32, s: Bytes) returns (res: ReadResult, rest: Bytes, verification: bool)
      requires Valid()
      modifies this
      ensures Opened(mode, mac, old(decIV), seqNum, s) == ReadStep(res, decIV, if verification then rest[Min(oracleCamouflage, |rest|)..] else rest)
    {
      hide Get32, U32, Decrypted, LastBlock, HeaderProblem, OpenedRest;
      FirstBlock(mode);
      var firstBlockLength := (PREFIX_LEN + mode.size - 1) / mode.size * mode.size;
      if |s| < firstBlockLength {
        return Failure(ShortRead), [], false;
      }
      var firstBlock := s[..firstBlockLength];
      rest := s[firstBlockLength..];
      oracleCamouflage := MAX_PACKET + 4 + MacSize(mac) - firstBlockLength;
      OneBlock(mode, decIV, firstBlock);
      firstBlock := Decrypt(firstBlock);
      var problem := Header(firstBlock);
      if problem.Some? {
        RestOfRest(s, firstBlockLength, MAX_PACKET + 4 + MacSize(mac));
        return Failure(problem.value), rest, true;
      }
      res, rest, verification := ReadRest(seqNum, s, firstBlock, old(decIV));
    }

    /** Reads what follows the first block, which has been read and decrypted; iv was the IV before it. */
    method ReadRest(seqNum: UInt32, s: Bytes, firstBlock: Bytes, ghost iv: Bytes) returns (res: ReadResult, rest: Bytes, verification: bool)
      requires Valid() && |s| >= mode.size && firstBlock == Decrypted(mode, iv, s[..mode.size]) && HeaderProblem(firstBlock, mode.size) == None
      requires decIV == s[..mode.size] && oracleCamouflage == MAX_PACKET + 4 + MacSize(mac) - mode.size
      modifies this
      ensures OpenedRest(mode, mac, iv, seqNum, s) == ReadStep(res, decIV, if verification then rest[Min(oracleCamouflage, |rest|)..] else rest)
    {
      hide *;
      ValidParts();
      OneSize(mode);
      GoodHeader(firstBlock, mode.size);
      OneBlock(mode, iv, s[..mode.size]);
      rest := s[mode.size..];
      var length: nat := Get32(firstBlock);
      var paddingLength: nat := firstBlock[4];
      var macStart := 4 + length;
      var entirePacketSize := macStart + MacSize(mac);
      if |rest| < entirePacketSize - mode.size {
        ShortRest(mode, mac, iv, seqNum, s);
        return Failure(ShortRead), [], false;
      }
      DropDrop(s, mode.size, entirePacketSize);
      packetData := firstBlock + rest[..entirePacketSize - mode.size];
      rest := rest[entirePacketSize - mode.size..];
      oracleCamouflage := oracleCamouflage - (entirePacketSize - mode.size);
      Slices(firstBlock, s, macStart, entirePacketSize);
      res, verification := OpenPacket(seqNum, s, firstBlock, macStart, paddingLength, iv);
      HiddenIs(BadMac, mac, decIV, s, entirePacketSize);
    }

    /** Decrypts the rest of the packet in packetData and checks its MAC. */
    method OpenPacket(seqNum: UInt32, ghost s: Bytes, firstBlock: Bytes, macStart: nat, paddingLength: nat, ghost iv: Bytes) returns (res: ReadResult, verification: bool)
      requires Valid() && |s| >= mode.size && firstBlock == Decrypted(mode, iv, s[..mode.size]) && HeaderProblem(firstBlock, mode.size) == None
      requires decIV == s[..mode.size] && macStart == 4 + Get32(firstBlock) && paddingLength == firstBlock[4]
      requires mode.size <= macStart && macStart + MacSize(mac) == |packetData| <= |s|
      requires packetData[mode.size..macStart] == s[mode.size..macStart] && packetData[macStart..] == s[macStart..macStart + MacSize(mac)]
      modifies this`decIV, this`packetData
      ensures OpenedRest(mode, mac, iv, seqNum, s)
        == if verification then Hidden(BadMac, mac, decIV, s) else ReadStep(res, decIV, s[macStart + MacSize(mac)..])
      ensures verification ==> res == Failure(BadMac)
      ensures Whole(macStart - mode.size, mode.size) && decIV == LastBlock(mode, old(decIV), s[mode.size..macStart])
    {
      hide Get32, U32, Decrypted, LastBlock, HeaderProblem, OpenedRest, Hidden, Mode.Good, Whole;
      OneSize(mode);
      GoodHeader(firstBlock, mode.size);
      var paddingStart := macStart - paddingLength;
      var plain := Decrypt(packetData[mode.size..macStart]);
      FullRest(mode, mac, iv, seqNum, s, firstBlock, plain);
      Joined(firstBlock + plain, packetData[macStart..], paddingStart);
      packetData := firstBlock + plain + packetData[macStart..];
      if mac.Some? {
        if mac.value.sum(U32(seqNum) + packetData[..macStart]) != packetData[macStart..] {
          return Failure(BadMac), true;
        }
      }
      return Packet(packetData[5..paddingStart]), false;
    }

    /** The checks on the first block. */
    method Header(first: Bytes) returns (problem: Option<Problem>)
      requires |first| >= 5
      ensures problem == HeaderProblem(first, mode.size)
    {
      hide Get32;
      var length := Get32(first[..4]);
      assert length == Get32(first) by { FourBytes(first); }
      if length > MAX_PACKET {
        return Some(TooLarge);
      }
      if length + 4 < Max(MIN_PACKET, mode.size) {
        return Some(TooSmall);
      }
      if (length + 4) % Max(MIN_MULTIPLE, mode.size) != 0 {
        return Some(BadMultiple);
      }
      var paddingLength: nat := first[4];
      if paddingLength < MIN_PADDING || length <= paddingLength + 1 {
        return Some(BadLength);
      }
      return None;
    }
  }

  /** Whatever is found wrong with a packet, the reader has used up the same number of bytes. */
  lemma ErrorsAlike(m: Mode, mac: Option<Mac>, iv: Bytes, seqNum: UInt32, s: Bytes)
    requires m.Good()
    ensures var o := Opened(m, mac, iv, seqNum, s);
      o.res.Failure? && o.res.e != ShortRead ==> o.rest == s[Min(|s|, MAX_PACKET + 4 + MacSize(mac))..]
  {
    hide Get32;
  }

  function Zeros(n: nat): Bytes {
    seq(n, _ => 0)
  }

  lemma FourBytes(s: Bytes)
    requires |s| >= 4
    ensures Get32(s[..4]) == Get32(s)
  {
  }

  lemma OneBlock(m: Mode, iv: Bytes, c: Bytes)
    requires m.Good() && |c| == m.size
    ensures Whole(|c|, m.size) && LastBlock(m, iv, c) == c && |Decrypted(m, iv, c)| == m.size
  {
  }

  lemma FirstBlock(m: Mode)
    requires m.Good()
    ensures m.size > 0 && (PREFIX_LEN + m.size - 1) / m.size * m.size == m.size
  {
  }

  lemma Slices(first: Bytes, s: Bytes, macStart: nat, entire: nat)
    requires |first| <= macStart <= entire <= |s|
    ensures var data := first + s[|first|..][..entire - |first|];
      |data| == entire && data[|first|..macStart] == s[|first|..macStart] && data[macStart..] == s[macStart..entire]
  {
    var k := |first|;
    Three(first, s[k..macStart], s[macStart..entire]);
    assert s[k..][..entire - k] == s[k..macStart] + s[macStart..entire];
  }

  lemma Joined(a: Bytes, b: Bytes, k: nat)
    requires 5 <= k <= |a|
    ensures (a + b)[..|a|] == a && (a + b)[|a|..] == b && (a + b)[5..k] == a[5..k]
  {
  }

  /** OpenedRest when too few bytes are left. */
  lemma ShortRest(m: Mode, mac: Option<Mac>, iv: Bytes, seqNum: UInt32, s: Bytes)
    requires m.Good() && |s| >= m.size && HeaderProblem(Decrypted(m, iv, s[..m.size]), m.size) == None
    requires |s| < 4 + Get32(Decrypted(m, iv, s[..m.size])) + MacSize(mac)
    ensures OpenedRest(m, mac, iv, seqNum, s) == ReadStep(Failure(ShortRead), s[..m.size], [])
  {
  }

  /** OpenedRest in terms of the first block and of what follows it, which is decrypted later. */
  lemma FullRest(m: Mode, mac: Option<Mac>, iv: Bytes, seqNum: UInt32, s: Bytes, first: Bytes, body: Bytes)
    requires m.Good() && |s| >= m.size && first == Decrypted(m, iv, s[..m.size]) && HeaderProblem(first, m.size) == None
    requires var end := 4 + Get32(first);
      m.size <= end && end + MacSize(mac) <= |s| && Whole(end, m.size) && Whole(end - m.size, m.size) && body == Decrypted(m, s[..m.size], s[m.size..end])
    ensures var end := 4 + Get32(first);
      var last := LastBlock(m, s[..m.size], s[m.size..end]);
      first[4] as int + 5 <= end &&
      OpenedRest(m, mac, iv, seqNum, s) ==
        if mac.Some? && mac.value.sum(U32(seqNum) + (first + body)) != s[end..end + MacSize(mac)] then Hidden(BadMac, mac, last, s)
        else ReadStep(Packet((first + body)[5..end - first[4]]), last, s[end + MacSize(mac)..])
  {
    hide Get32, U32, Decrypted, LastBlock, HeaderProblem, Hidden, Mode.Good, Whole;
    OneSize(m);
    GoodHeader(first, m.size);
    RestDecrypted(m, iv, s, 4 + Get32(first));
  }

  lemma HiddenIs(e: Problem, mac: Option<Mac>, iv: Bytes, s: Bytes, n: nat)
    requires n <= |s| && n <= MAX_PACKET + 4 + MacSize(mac)
    ensures Hidden(e, mac, iv, s) == ReadStep(Failure(e), iv, s[n..][Min(MAX_PACKET + 4 + MacSize(mac) - n, |s[n..]|)..])
  {
    RestOfRest(s, n, MAX_PACKET + 4 + MacSize(mac));
  }

  lemma DropDrop(s: Bytes, m: nat, n: nat)
    requires m <= n <= |s|
    ensures s[m..][n - m..] == s[n..] && |s[m..]| == |s| - m
  {
  }

  lemma RestOfRest(s: Bytes, n: nat, total: nat)
    requires n <= |s| && n <= total
    ensures s[n..][Min(total - n, |s[n..]|)..] == s[Min(|s|, total)..]
  {
  }

  lemma RestDecrypted(m: Mode, iv: Bytes, s: Bytes, end: nat)
    requires m.Good() && m.size <= end <= |s| && Whole(end, m.size) && Whole(end - m.size, m.size)
    ensures var a, b := s[..m.size], s[m.size..end];
      && Whole(|a|, m.size) && Whole(|b|, m.size) && Whole(|s[..end]|, m.size)
      && Decrypted(m, iv, s[..end]) == Decrypted(m, iv, a) + Decrypted(m, a, b) && LastBlock(m, iv, s[..end]) == LastBlock(m, a, b)
  {
    hide Decrypted, Mode.Good;
    assert Whole(m.size, m.size) by { OneSize(m); }
    DecryptedParts(m, iv, s[..m.size], s[m.size..end]);
    LastParts(m, iv, s[..m.size], s[m.size..end]);
    assert s[..end] == s[..m.size] + s[m.size..end];
    OneBlock(m, iv, s[..m.size]);
  }

  lemma GoodHeader(first: Bytes, size: nat)
    requires |first| >= 5 && HeaderProblem(first, size) == None && (size == 8 || size == 16)
    ensures Get32(first) <= MAX_PACKET && Get32(first) + 4 >= 16 && Whole(Get32(first) + 4, size)
    ensures first[4] as int + 1 < Get32(first)
    ensures Whole(Get32(first) + 4 - size, size)
  {
    hide Get32;
  }

  lemma EncLengths(n: nat, size: nat)
    requires size == 8 || size == 16
    ensures var e := EncLength(n, size);
      Whole(e, size) && e >= 16 && 4 <= e - PREFIX_LEN - n < 20
    ensures var k := Max(MIN_MULTIPLE, size);
      k > 0 && EncLength(n, size) == (Max(PREFIX_LEN + n + MIN_PADDING, MIN_PADDING) + k - 1) / k * k
  {
  }

  lemma PlainLength(packet: Bytes, padding: Bytes)
    requires |packet| + |padding| + 1 < TWO_32 && |padding| < 256
    ensures |Plain(packet, padding)| == PREFIX_LEN + |packet| + |padding|
    ensures Plain(packet, padding) == U32(1 + |packet| + |padding|) + [|padding|] + packet + padding
  {
  }

  lemma PlainHeader(packet: Bytes, padding: Bytes)
    requires |packet| + |padding| + 1 < TWO_32 && |padding| < 256
    ensures var p := Plain(packet, padding);
      && |p| == PREFIX_LEN + |packet| + |padding| && Get32(p) == 1 + |packet| + |padding| && p[4] == |padding|
      && p[5..5 + |packet|] == packet
  {
    hide U32, Get32;
    var p := Plain(packet, padding);
    NumbersBack32(1 + |packet| + |padding|, [|padding|] + packet + padding);
    assert p == U32(1 + |packet| + |padding|) + ([|padding|] + packet + padding);
  }

  lemma HeaderOfFirst(p: Bytes, size: nat)
    requires |p| >= size >= 5
    ensures Get32(p[..size]) == Get32(p) && p[..size][4] == p[4]
  {
  }

  /** The header of a packet that was written is all right for exactly the packets that are not empty and whose
      length is within the limit. */
  lemma HeaderBack(packet: Bytes, padding: Bytes, size: nat)
    requires (size == 8 || size == 16) && |packet| + 0x200 < TWO_32 && |padding| == EncLength(|packet|, size) - PREFIX_LEN - |packet|
    ensures |padding| < 256 && |Plain(packet, padding)| >= 16
    ensures HeaderProblem(Plain(packet, padding)[..size], size) == None <==> packet != [] && 1 + |packet| + |padding| <= MAX_PACKET
  {
    hide Get32, U32, Plain;
    EncLengths(|packet|, size);
    PlainHeader(packet, padding);
    HeaderOfFirst(Plain(packet, padding), size);
  }

  /** What is read back from c, the ciphertext of plain, and its MAC. */
  lemma BodyBack(m: Mode, mac: Option<Mac>, iv: Bytes, seqNum: UInt32, plain: Bytes, sum: Bytes, rest: Bytes)
    requires m.Good() && GoodMac(mac) && Whole(|plain|, m.size) && |plain| >= 16 && HeaderProblem(plain[..m.size], m.size) == None
    requires 4 + Get32(plain) == |plain| && sum == if mac.Some? then mac.value.sum(U32(seqNum) + plain) else []
    ensures var c := Encrypted(m, iv, plain);
      plain[4] as int + 5 <= |plain| &&
      Opened(m, mac, iv, seqNum, c + (sum + rest)) == ReadStep(Packet(plain[5..|plain| - plain[4]]), LastBlock(m, iv, c), rest)
  {
    hide Get32, U32, Encrypted, Decrypted, LastBlock, HeaderProblem, Hidden, Mode.Good, Whole;
    var c := Encrypted(m, iv, plain);
    OneSize(m);
    DecryptedEncrypted(m, iv, plain);
    Three(c, sum, rest);
    FirstDecrypted(m, iv, c);
    HeaderOfFirst(plain, m.size);
    GoodHeader(plain[..m.size], m.size);
    assert (c + (sum + rest))[..m.size] == c[..m.size];
  }

  /** The reader undoes the writer, and is left with the same IV, for exactly the packets that are not empty and
      whose length is within the limit. */
  lemma PacketBack(m: Mode, mac: Option<Mac>, iv: Bytes, seqNum: UInt32, packet: Bytes, padding: Bytes, rest: Bytes)
    requires m.Good() && GoodMac(mac) && |packet| + 0x200 < TWO_32
    requires |padding| == EncLength(|packet|, m.size) - PREFIX_LEN - |packet|
    ensures |padding| < 256 && Whole(|Plain(packet, padding)|, m.size)
    ensures Opened(m, mac, iv, seqNum, Sealed(m, mac, iv, seqNum, packet, padding) + rest)
        == ReadStep(Packet(packet), LastBlock(m, iv, Encrypted(m, iv, Plain(packet, padding))), rest)
      <==> packet != [] && 1 + |packet| + |padding| <= MAX_PACKET
  {
    hide Get32, U32, Encrypted, Decrypted, LastBlock, EncLength, Plain, HeaderProblem, Hidden, OpenedRest, Mode.Good, Whole;
    OneSize(m);
    EncLengths(|packet|, m.size);
    PlainHeader(packet, padding);
    HeaderBack(packet, padding, m.size);
    var plain := Plain(packet, padding);
    var c := Encrypted(m, iv, plain);
    var sum := if mac.Some? then mac.value.sum(U32(seqNum) + plain) else [];
    assert Sealed(m, mac, iv, seqNum, packet, padding) + rest == c + (sum + rest);
    if packet != [] && 1 + |packet| + |padding| <= MAX_PACKET {
      BodyBack(m, mac, iv, seqNum, plain, sum, rest);
    } else {
      BadBack(m, mac, iv, seqNum, plain, sum + rest);
    }
  }

  lemma BadBack(m: Mode, mac: Option<Mac>, iv: Bytes, seqNum: UInt32, plain: Bytes, rest: Bytes)
    requires m.Good() && Whole(|plain|, m.size) && |plain| >= 16 && HeaderProblem(plain[..m.size], m.size) != None
    ensures Opened(m, mac, iv, seqNum, Encrypted(m, iv, plain) + rest).res.Failure?
  {
    hide Encrypted, Decrypted, LastBlock, HeaderProblem, Mode.Good, Whole;
    var c := Encrypted(m, iv, plain);
    OneSize(m);
    DecryptedEncrypted(m, iv, plain);
    FirstDecrypted(m, iv, c);
    assert (c + rest)[..m.size] == c[..m.size];
  }

  lemma FirstDecrypted(m: Mode, iv: Bytes, c: Bytes)
    requires m.Good() && Whole(|c|, m.size) && |c| >= m.size
    ensures Whole(m.size, m.size) && Decrypted(m, iv, c[..m.size]) == Decrypted(m, iv, c)[..m.size]
  {
    hide Decrypted, LastBlock, Mode.Good, Whole;
    OneSize(m);
    DecryptedStep(m, iv, c);
    DecryptedParts(m, iv, c[..m.size], c[m.size..]);
    assert c == c[..m.size] + c[m.size..];
    OneBlock(m, iv, c[..m.size]);
  }

  /** Two ciphers with the same keys and IV exchange packets, numbered from seqNum on: each comes out as it
      went in, and the two are left with the same IV. */
  method Exchange(w: CbcCipher, r: CbcCipher, seqNum: UInt32, packets: seq<Bytes>, rand: Bytes) returns (got: seq<Bytes>)
    requires w != r && w.Valid() && r.Valid() && w.mode == r.mode && w.mac == r.mac && w.encIV == r.decIV && |rand| >= 20
    requires forall p :: p in packets ==> 0 < |p| <= MAX_PACKET - 20
    modifies w, r
    ensures got == packets && w.encIV == r.decIV
  {
    hide Encrypted, LastBlock, EncLength, Plain, Mode.Good, Whole, Sealed, Opened;
    OneSize(w.mode);
    got := [];
    for i := 0 to |packets|
      invariant got == packets[..i] && w.encIV == r.decIV
    {
      assert packets[i] in packets;
      var n := WrapU32(seqNum + i);
      ghost var iv := w.encIV;
      var wire, err := w.WritePacket(n, rand, packets[i]);
      PacketBack(w.mode, w.mac, iv, n, packets[i], rand[..EncLength(|packets[i]|, w.mode.size) - PREFIX_LEN - |packets[i]|], []);
      assert wire + [] == wire;
      var res, rest := r.ReadPacket(n, wire);
      got := got + [res.p];
    }
  }
}
