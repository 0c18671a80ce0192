/** Numbers on the wire, high byte first. */
module BigEndian {
  import opened GoInt

  function U16(v: nat): (s: Bytes)
    requires v < 0x1_0000
  {
    [v / 256, v % 256]
  }

  function U24(v: nat): (s: Bytes)
    requires v < 0x100_0000
  {
    [v / 0x1_0000, v / 256 % 256, v % 256]
  }

  function U32(v: UInt32): (s: Bytes) {
    [v / 0x100_0000, v / 0x1_0000 % 256, v / 256 % 256, v % 256]
  }

  function Get16(s: Bytes): (v: nat)
    requires |s| >= 2
    ensures v < 0x1_0000
  {
    s[0] as int * 256 + s[1]
  }

  function Get24(s: Bytes): (v: nat)
    requires |s| >= 3
    ensures v < 0x100_0000
  {
    s[0] as int * 0x1_0000 + s[1] as int * 256 + s[2]
  }

  function Get32(s: Bytes): (v: UInt32)
    requires |s| >= 4
  {
    s[0] as int * 0x100_0000 + s[1] as int * 0x1_0000 + s[2] as int * 256 + s[3]
  }

  lemma NumbersBack16(v: nat, rest: Bytes)
    requires v < 0x1_0000
    ensures |U16(v)| == 2 && Get16(U16(v) + rest) == v && (U16(v) + rest)[2..] == rest
  {
  }

  lemma NumbersBack24(v: nat, rest: Bytes)
    requires v < 0x100_0000
    ensures |U24(v)| == 3 && Get24(U24(v) + rest) == v && (U24(v) + rest)[3..] == rest
  {
    Sum3(v);
    assert (U24(v) + rest)[..3] == U24(v);
  }

  lemma NumbersBack32(v: UInt32, rest: Bytes)
    ensures |U32(v)| == 4 && Get32(U32(v) + rest) == v && (U32(v) + rest)[4..] == rest
  {
    Sum3(v);
    assert v / 0x1_0000 == v / 0x1_0000 / 256 * 256 + v / 0x1_0000 % 256 && v / 0x1_0000 / 256 == v / 0x100_0000;
    assert (U32(v) + rest)[..4] == U32(v);
  }

  lemma Sum3(v: nat)
    ensures v == v / 0x1_0000 * 0x1_0000 + v / 256 % 256 * 256 + v % 256
  {
    assert v / 256 == v / 256 / 256 * 256 + v / 256 % 256 && v / 256 / 256 == v / 0x1_0000;
  }

  /** Four bytes are the bytes of the number they make. */
  lemma NumberFront(s: Bytes)
    requires |s| >= 4
    ensures U32(Get32(s)) == s[..4]
  {
    var a: int, b: int, c: int, d: int := s[0], s[1], s[2], s[3];
    var v := Get32(s);
    Digits(a * 0x1_0000 + b * 0x100 + c, d);
    Digits(a * 0x100 + b, c);
    Digits(a, b);
    assert v == (a * 0x1_0000 + b * 0x100 + c) * 256 + d;
    assert v / 256 == a * 0x1_0000 + b * 0x100 + c == (a * 0x100 + b) * 256 + c;
    assert v / 0x1_0000 == v / 256 / 256 == a * 0x100 + b == a * 256 + b;
    assert v / 0x100_0000 == v / 0x1_0000 / 256 == a;
  }

  lemma Digits(q: int, r: int)
    requires 0 <= r < 256
    ensures (q * 256 + r) / 256 == q && (q * 256 + r) % 256 == r
  {
  }
}
