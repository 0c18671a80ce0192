/** The wire format of HTTP/2 frames (sections 4.1 and 6 of RFC 7540): what the framer writes and how it
    parses what it reads. */
module Frames {
  import opened GoInt
  import opened Options
  import opened BigEndian

  /** The flag with the value bit, a power of two, is set. */
  predicate Has(flags: Byte, bit: nat)
    requires bit > 0
  {
    flags / bit % 2 == 1
  }

  function Flag(on: bool, bit: nat): nat {
    if on then bit else 0
  }

  // ---- Frames

  const DATA: Byte := 0
  const HEADERS: Byte := 1
  const PRIORITY: Byte := 2
  const RST_STREAM: Byte := 3
  const SETTINGS: Byte := 4
  const PUSH_PROMISE: Byte := 5
  const PING: Byte := 6
  const GOAWAY: Byte := 7
  const WINDOW_UPDATE: Byte := 8
  const CONTINUATION: Byte := 9

  const INITIAL_WINDOW_SIZE: nat := 4
  const TWO_31: nat := 0x8000_0000

  const PROTOCOL_ERROR: nat := 1
  const FLOW_CONTROL_ERROR: nat := 3
  const FRAME_SIZE_ERROR: nat := 6

  datatype Header = Header(kind: Byte, flags: Byte, length: nat, streamID: nat)

  datatype PriorityParam = PriorityParam(dep: UInt32, exclusive: bool, weight: Byte) {
    predicate IsZero() {
      dep == 0 && !exclusive && weight == 0
    }
  }

  datatype Setting = Setting(id: nat, val: UInt32)

  /** A frame that has been read. */
  datatype Frame =
    | DataFrame(h: Header, data: Bytes)
    | HeadersFrame(h: Header, priority: PriorityParam, fragment: Bytes)
    | PriorityFrame(h: Header, priority: PriorityParam)
    | RSTStreamFrame(h: Header, code: UInt32)
    | SettingsFrame(h: Header, p: Bytes)
    | PushPromiseFrame(h: Header, promiseID: nat, fragment: Bytes)
    | PingFrame(h: Header, p: Bytes)
    | GoAwayFrame(h: Header, lastStreamID: nat, code: UInt32, p: Bytes)
    | WindowUpdateFrame(h: Header, increment: nat)
    | ContinuationFrame(h: Header, fragment: Bytes)
    | UnknownFrame(h: Header, p: Bytes)

  datatype ReadError = EOF | UnexpectedEOF | TooLarge | OfConnection(code: nat) | OfStream(id: nat, code: nat)

  datatype Parsed = Ok(f: Frame) | Bad(e: ReadError)

  // ---- Parsing

  function ParseData(h: Header, p: Bytes): Parsed {
    if h.streamID == 0 then Bad(OfConnection(PROTOCOL_ERROR))
    else if Has(h.flags, 8) && p == [] then Bad(UnexpectedEOF)
    else
      var pad := if Has(h.flags, 8) then p[0] else 0;
      var q := if Has(h.flags, 8) then p[1..] else p;
      if pad > |q| then Bad(OfConnection(PROTOCOL_ERROR)) else Ok(DataFrame(h, q[..|q| - pad]))
  }

  /** The 31-bit dependency with its exclusive bit, and the weight. */
  function ParsePriorityParam(p: Bytes): PriorityParam
    requires |p| >= 5
  {
    var v := Get32(p);
    PriorityParam(v % TWO_31, v != v % TWO_31, p[4])
  }

  function ParseHeaders(h: Header, p: Bytes): Parsed {
    if h.streamID == 0 then Bad(OfConnection(PROTOCOL_ERROR))
    else if Has(h.flags, 8) && p == [] then Bad(UnexpectedEOF)
    else ParseHeadersAfterPad(h, if Has(h.flags, 8) then p[1..] else p, if Has(h.flags, 8) then p[0] else 0)
  }

  /** The rest of a HEADERS frame whose padding has the given length. */
  function ParseHeadersAfterPad(h: Header, q: Bytes, pad: Byte): Parsed {
    if Has(h.flags, 32) && |q| < 5 then Bad(UnexpectedEOF)
    else
      var priority := if Has(h.flags, 32) then ParsePriorityParam(q) else PriorityParam(0, false, 0);
      var r := if Has(h.flags, 32) then q[5..] else q;
      if |r| - pad <= 0 then Bad(OfStream(h.streamID, PROTOCOL_ERROR)) else Ok(HeadersFrame(h, priority, r[..|r| - pad]))
  }

  function ParsePriority(h: Header, p: Bytes): Parsed {
    if h.streamID == 0 then Bad(OfConnection(PROTOCOL_ERROR))
    else if |p| != 5 then Bad(OfConnection(FRAME_SIZE_ERROR))
    else Ok(PriorityFrame(h, ParsePriorityParam(p)))
  }

  function ParseRSTStream(h: Header, p: Bytes): Parsed {
    if |p| != 4 then Bad(OfConnection(FRAME_SIZE_ERROR))
    else if h.streamID == 0 then Bad(OfConnection(PROTOCOL_ERROR))
    else Ok(RSTStreamFrame(h, Get32(p)))
  }

  /** The value of the first setting with the given number. */
  function ValueOf(p: Bytes, id: nat): Option<UInt32>
    requires |p| % 6 == 0
  {
    if p == [] then None
    else if Get16(p) == id then Some(Get32(p[2..]))
    else ValueOf(p[6..], id)
  }

  function ParseSettings(h: Header, p: Bytes): Parsed {
    if Has(h.flags, 1) && h.length > 0 then Bad(OfConnection(FRAME_SIZE_ERROR))
    else if h.streamID != 0 then Bad(OfConnection(PROTOCOL_ERROR))
    else if |p| % 6 != 0 then Bad(OfConnection(FRAME_SIZE_ERROR))
    else if ValueOf(p, INITIAL_WINDOW_SIZE).Some? && ValueOf(p, INITIAL_WINDOW_SIZE).value >= TWO_31 then Bad(OfConnection(FLOW_CONTROL_ERROR))
    else Ok(SettingsFrame(h, p))
  }

  function ParsePushPromise(h: Header, p: Bytes): Parsed {
    if h.streamID == 0 then Bad(OfConnection(PROTOCOL_ERROR))
    else if Has(h.flags, 8) && p == [] then Bad(UnexpectedEOF)
    else
      var pad := if Has(h.flags, 8) then p[0] else 0;
      var q := if Has(h.flags, 8) then p[1..] else p;
      if |q| < 4 then Bad(UnexpectedEOF)
      else if pad > |q| - 4 then Bad(OfConnection(PROTOCOL_ERROR))
      else Ok(PushPromiseFrame(h, Get32(q) % TWO_31, q[4..|q| - pad]))
  }

  function ParsePing(h: Header, p: Bytes): Parsed {
    if |p| != 8 then Bad(OfConnection(FRAME_SIZE_ERROR))
    else if h.streamID != 0 then Bad(OfConnection(PROTOCOL_ERROR))
    else Ok(PingFrame(h, p))
  }

  function ParseGoAway(h: Header, p: Bytes): Parsed {
    if h.streamID != 0 then Bad(OfConnection(PROTOCOL_ERROR))
    else if |p| < 8 then Bad(OfConnection(FRAME_SIZE_ERROR))
    else Ok(GoAwayFrame(h, Get32(p) % TWO_31, Get32(p[4..]), p[8..]))
  }

  function ParseWindowUpdate(h: Header, p: Bytes): Parsed {
    if |p| != 4 then Bad(OfConnection(FRAME_SIZE_ERROR))
    else
      var inc := Get32(p) % TWO_31;
      if inc == 0 then Bad(if h.streamID == 0 then OfConnection(PROTOCOL_ERROR) else OfStream(h.streamID, PROTOCOL_ERROR))
      else Ok(WindowUpdateFrame(h, inc))
  }

  function ParseContinuation(h: Header, p: Bytes): Parsed {
    if h.streamID == 0 then Bad(OfConnection(PROTOCOL_ERROR)) else Ok(ContinuationFrame(h, p))
  }

  function Parse(h: Header, p: Bytes): Parsed {
    if h.kind == DATA then ParseData(h, p)
    else if h.kind == HEADERS then ParseHeaders(h, p)
    else if h.kind == PRIORITY then ParsePriority(h, p)
    else if h.kind == RST_STREAM then ParseRSTStream(h, p)
    else if h.kind == SETTINGS then ParseSettings(h, p)
    else if h.kind == PUSH_PROMISE then ParsePushPromise(h, p)
    else if h.kind == PING then ParsePing(h, p)
    else if h.kind == GOAWAY then ParseGoAway(h, p)
    else if h.kind == WINDOW_UPDATE then ParseWindowUpdate(h, p)
    else if h.kind == CONTINUATION then ParseContinuation(h, p)
    else Ok(UnknownFrame(h, p))
  }

  function ParseHeader(s: Bytes): Header
    requires |s| >= 9
  {
    Header(s[3], s[4], Get24(s), Get32(s[5..]) % TWO_31)
  }

  /** What reading a frame from the bytes s comes to, and the bytes left. */
  function Decode(s: Bytes, max: nat): (Parsed, Bytes) {
    if |s| < 9 then (Bad(if s == [] then EOF else UnexpectedEOF), [])
    else
      var h := ParseHeader(s);
      if h.length > max then (Bad(TooLarge), s[9..])
      else if |s| - 9 < h.length then (Bad(if |s| == 9 then EOF else UnexpectedEOF), [])
      else (Parse(h, s[9..9 + h.length]), s[9 + h.length..])
  }

  // ---- What may be written

  datatype Message =
    | Data(id: UInt32, endStream: bool, data: Bytes, pad: Option<Bytes>)
    | Headers(id: UInt32, fragment: Bytes, endStream: bool, endHeaders: bool, padLength: Byte, priority: PriorityParam)
    | Priority(id: UInt32, priority: PriorityParam)
    | RSTStream(id: UInt32, code: UInt32)
    | Settings(settings: seq<Setting>)
    | SettingsAck
    | PushPromise(id: UInt32, promiseID: UInt32, fragment: Bytes, endHeaders: bool, padLength: Byte)
    | Ping(ack: bool, p: Bytes)
    | GoAway(maxStreamID: UInt32, code: UInt32, p: Bytes)
    | WindowUpdate(id: UInt32, increment: UInt32)
    | Continuation(id: UInt32, endHeaders: bool, fragment: Bytes)

  datatype WriteError = BadStreamID | BadDependency | BadPadLength | BadIncrement | FrameTooLarge

  predicate ValidStreamID(id: nat) {
    0 < id < TWO_31
  }

  function Zeros(n: nat): Bytes {
    seq(n, _ => 0)
  }

  function PriorityBytes(p: PriorityParam): Bytes
    requires p.dep < TWO_31
  {
    U32(p.dep + if p.exclusive then TWO_31 else 0) + [p.weight]
  }

  function SettingsBytes(settings: seq<Setting>): Bytes
    requires forall x :: x in settings ==> x.id < 0x1_0000
  {
    if settings == [] then []
    else U16(settings[0].id) + U32(settings[0].val) + SettingsBytes(settings[1..])
  }

  function Kind(m: Message): Byte {
    match m
    case Data(_, _, _, _) => DATA
    case Headers(_, _, _, _, _, _) => HEADERS
    case Priority(_, _) => PRIORITY
    case RSTStream(_, _) => RST_STREAM
    case Settings(_) => SETTINGS
    case SettingsAck => SETTINGS
    case PushPromise(_, _, _, _, _) => PUSH_PROMISE
    case Ping(_, _) => PING
    case GoAway(_, _, _) => GOAWAY
    case WindowUpdate(_, _) => WINDOW_UPDATE
    case Continuation(_, _, _) => CONTINUATION
  }

  function Flags(m: Message): Byte {
    match m
    case Data(_, end, _, pad) => Flag(end, 1) + Flag(pad.Some?, 8)
    case Headers(_, _, end, endHeaders, pad, priority) => Flag(end, 1) + Flag(endHeaders, 4) + Flag(pad != 0, 8) + Flag(!priority.IsZero(), 32)
    case SettingsAck => 1
    case PushPromise(_, _, _, endHeaders, pad) => Flag(endHeaders, 4) + Flag(pad != 0, 8)
    case Ping(ack, _) => Flag(ack, 1)
    case Continuation(_, endHeaders, _) => Flag(endHeaders, 4)
    case _ => 0
  }

  function StreamID(m: Message): UInt32 {
    match m
    case Settings(_) => 0
    case SettingsAck => 0
    case Ping(_, _) => 0
    case GoAway(_, _, _) => 0
    case Data(id, _, _, _) => id
    case Headers(id, _, _, _, _, _) => id
    case Priority(id, _) => id
    case RSTStream(id, _) => id
    case PushPromise(id, _, _, _, _) => id
    case WindowUpdate(id, _) => id
    case Continuation(id, _, _) => id
  }

  /** What the parameters' Go types allow: settings numbers of 16 bits and eight bytes in a PING. */
  ghost predicate Typed(m: Message) {
    match m
    case Settings(settings) => forall x :: x in settings ==> x.id < 0x1_0000
    case Ping(_, p) => |p| == 8
    case _ => true
  }

  /** The reason why the framer does not write m, apart from its size. */
  function Refusal(m: Message): Option<WriteError> {
    match m
    case Data(id, _, _, pad) =>
      if !ValidStreamID(id) then Some(BadStreamID) else if pad.Some? && |pad.value| > 255 then Some(BadPadLength) else None
    case Headers(id, _, _, _, _, priority) =>
      if !ValidStreamID(id) then Some(BadStreamID) else if priority.dep >= TWO_31 then Some(BadDependency) else None
    case Priority(id, priority) =>
      if !ValidStreamID(id) then Some(BadStreamID) else if priority.dep >= TWO_31 then Some(BadDependency) else None
    case PushPromise(id, promiseID, _, _, _) =>
      if !ValidStreamID(id) || !ValidStreamID(promiseID) then Some(BadStreamID) else None
    case RSTStream(id, _) => if !ValidStreamID(id) then Some(BadStreamID) else None
    case Continuation(id, _, _) => if !ValidStreamID(id) then Some(BadStreamID) else None
    case WindowUpdate(_, n) => if n < 1 || n >= TWO_31 then Some(BadIncrement) else None
    case _ => None
  }

  function Payload(m: Message): Bytes
    requires Typed(m) && Refusal(m) == None
  {
    match m
    case Data(_, _, data, None) => data
    case Data(_, _, data, Some(pad)) => [|pad|] + data + pad
    case Headers(_, fragment, _, _, pad, priority) =>
      (if pad != 0 then [pad] else []) + (if priority.IsZero() then [] else PriorityBytes(priority)) + fragment + Zeros(pad)
    case Priority(_, priority) => PriorityBytes(priority)
    case RSTStream(_, code) => U32(code)
    case Settings(settings) => SettingsBytes(settings)
    case SettingsAck => []
    case PushPromise(_, promiseID, fragment, _, pad) => (if pad != 0 then [pad] else []) + U32(promiseID) + fragment + Zeros(pad)
    case Ping(_, p) => p
    case GoAway(max, code, p) => U32(max % TWO_31) + U32(code) + p
    case WindowUpdate(_, n) => U32(n)
    case Continuation(_, _, fragment) => fragment
  }

  function HeaderBytes(kind: Byte, flags: Byte, length: nat, id: UInt32): Bytes
    requires length < 0x100_0000
  {
    U24(length) + [kind, flags] + U32(id)
  }

  function Encode(m: Message): Bytes
    requires Typed(m) && Refusal(m) == None && |Payload(m)| < 0x100_0000
  {
    HeaderBytes(Kind(m), Flags(m), |Payload(m)|, StreamID(m)) + Payload(m)
  }

  // ---- Reading back what was written

  /** The frame that m is read back as. */
  function Received(m: Message): Frame
    requires Typed(m) && Refusal(m) == None
  {
    var h := Header(Kind(m), Flags(m), |Payload(m)|, StreamID(m) % TWO_31);
    match m
    case Data(_, _, data, _) => DataFrame(h, data)
    case Headers(_, fragment, _, _, _, priority) => HeadersFrame(h, priority, fragment)
    case Priority(_, priority) => PriorityFrame(h, priority)
    case RSTStream(_, code) => RSTStreamFrame(h, code)
    case Settings(settings) => SettingsFrame(h, SettingsBytes(settings))
    case SettingsAck => SettingsFrame(h, [])
    case PushPromise(_, promiseID, fragment, _, _) => PushPromiseFrame(h, promiseID, fragment)
    case Ping(_, p) => PingFrame(h, p)
    case GoAway(max, code, p) => GoAwayFrame(h, max % TWO_31, code, p)
    case WindowUpdate(_, n) => WindowUpdateFrame(h, n)
    case Continuation(_, _, fragment) => ContinuationFrame(h, fragment)
  }

  /** The first INITIAL_WINDOW_SIZE among the settings, if any, is below 2^31. */
  predicate WindowFits(settings: seq<Setting>) {
    settings == [] ||
    if settings[0].id == INITIAL_WINDOW_SIZE then settings[0].val < TWO_31 else WindowFits(settings[1..])
  }

  /** The parser accepts m: a HEADERS frame carries part of a header block, and no initial window is too large. */
  predicate Readable(m: Message) {
    match m
    case Headers(_, fragment, _, _, _, _) => fragment != []
    case Settings(settings) => WindowFits(settings)
    case _ => true
  }

  lemma FlagsBack(a: bool, b: bool, c: bool, d: bool)
    ensures var f := Flag(a, 1) + Flag(b, 4) + Flag(c, 8) + Flag(d, 32);
      f < 256 && (Has(f, 1) <==> a) && (Has(f, 4) <==> b) && (Has(f, 8) <==> c) && (Has(f, 32) <==> d)
  {
  }

  lemma HeaderBack(kind: Byte, flags: Byte, length: nat, id: UInt32, rest: Bytes)
    requires length < 0x100_0000
    ensures var s := HeaderBytes(kind, flags, length, id) + rest;
      |s| == 9 + |rest| && ParseHeader(s) == Header(kind, flags, length, id % TWO_31) && s[9..] == rest
  {
    hide U24, U32, Get24, Get32;
    var s := HeaderBytes(kind, flags, length, id) + rest;
    NumbersBack24(length, [kind, flags] + (U32(id) + rest));
    NumbersBack32(id, rest);
    assert s == U24(length) + ([kind, flags] + (U32(id) + rest));
    assert s[5..] == U32(id) + rest;
    assert s[9..] == rest;
  }

  lemma PriorityBack(p: PriorityParam, rest: Bytes)
    requires p.dep < TWO_31
    ensures var s := PriorityBytes(p) + rest; |s| >= 5 && ParsePriorityParam(s) == p && s[5..] == rest
    ensures |PriorityBytes(p)| == 5
  {
    hide U32, Get32;
    var v := p.dep + if p.exclusive then TWO_31 else 0;
    NumbersBack32(v, [p.weight] + rest);
    assert PriorityBytes(p) + rest == U32(v) + ([p.weight] + rest);
  }

  lemma DataBack(h: Header, m: Message)
    requires m.Data? && Refusal(m) == None && h == Received(m).h
    ensures Parse(h, Payload(m)) == Ok(Received(m))
  {
    FlagsBack(m.endStream, false, m.pad.Some?, false);
    var p := Payload(m);
    if m.pad.Some? {
      assert p[1..] == m.data + m.pad.value;
      assert (m.data + m.pad.value)[..|m.data|] == m.data;
    }
  }

  lemma HeadersBack(h: Header, m: Message)
    requires m.Headers? && Refusal(m) == None && h == Received(m).h
    ensures Parse(h, Payload(m)) == if m.fragment == [] then Bad(OfStream(m.id, PROTOCOL_ERROR)) else Ok(Received(m))
  {
    hide U32, Get32, PriorityBytes, ParsePriorityParam, Flag, Has, ParseHeadersAfterPad;
    FlagsBack(m.endStream, m.endHeaders, m.padLength != 0, !m.priority.IsZero());
    var p := Payload(m);
    var f := m.fragment + Zeros(m.padLength);
    var b := if m.priority.IsZero() then [] else PriorityBytes(m.priority);
    assert p == (if m.padLength != 0 then [m.padLength] else []) + (b + f);
    assert (if m.padLength != 0 then p[1..] else p) == b + f;
    AfterPadBack(h, m);
  }

  lemma AfterPadBack(h: Header, m: Message)
    requires m.Headers? && Refusal(m) == None && h == Received(m).h && (Has(h.flags, 32) <==> !m.priority.IsZero())
    ensures var q := (if m.priority.IsZero() then [] else PriorityBytes(m.priority)) + (m.fragment + Zeros(m.padLength));
      ParseHeadersAfterPad(h, q, m.padLength) == if m.fragment == [] then Bad(OfStream(m.id, PROTOCOL_ERROR)) else Ok(Received(m))
  {
    hide U32, Get32, PriorityBytes, ParsePriorityParam, Flag, Has, Payload, Flags;
    var f := m.fragment + Zeros(m.padLength);
    assert f[..|f| - m.padLength] == m.fragment;
    if m.priority.IsZero() {
      assert [] + f == f;
    } else {
      PriorityBack(m.priority, f);
    }
  }

  lemma PushPromiseBack(h: Header, m: Message)
    requires m.PushPromise? && Refusal(m) == None && h == Received(m).h
    ensures Parse(h, Payload(m)) == Ok(Received(m))
  {
    hide U32, Get32, Flag, Has, ParsePushPromise, Payload;
    FlagsBack(false, m.endHeaders, m.padLength != 0, false);
    assert Flags(m) == Flag(false, 1) + Flag(m.endHeaders, 4) + Flag(m.padLength != 0, 8) + Flag(false, 32) by { FlagOff(); }
    PromiseBody(h, m);
  }

  lemma PromiseBody(h: Header, m: Message)
    requires m.PushPromise? && Typed(m) && Refusal(m) == None && h.streamID > 0 && (Has(h.flags, 8) <==> m.padLength != 0)
    ensures ParsePushPromise(h, Payload(m)) == Ok(PushPromiseFrame(h, m.promiseID, m.fragment))
  {
    hide U32, Get32, Has, Flags;
    var p := Payload(m);
    var f := m.fragment + Zeros(m.padLength);
    assert p == (if m.padLength != 0 then [m.padLength] else []) + (U32(m.promiseID) + f);
    var q := if m.padLength != 0 then p[1..] else p;
    assert q == U32(m.promiseID) + f;
    NumbersBack32(m.promiseID, f);
    assert q[4..|q| - m.padLength] == f[..|f| - m.padLength] == m.fragment;
  }

  lemma FlagOff()
    ensures Flag(false, 1) == 0 && Flag(false, 32) == 0 && Flag(false, 4) == 0 && Flag(false, 8) == 0
  {
  }

  lemma {:induction false} SettingsBack(settings: seq<Setting>)
    requires forall x :: x in settings ==> x.id < 0x1_0000
    ensures |SettingsBytes(settings)| == 6 * |settings|
    ensures var v := ValueOf(SettingsBytes(settings), INITIAL_WINDOW_SIZE);
      WindowFits(settings) <==> v.None? || v.value < TWO_31
  {
    hide U16, U32, Get16, Get32;
    if settings != [] {
      var x, rest := settings[0], SettingsBytes(settings[1..]);
      SettingsBack(settings[1..]);
      SettingBack(x, rest);
      var s := SettingsBytes(settings);
      assert s == U16(x.id) + U32(x.val) + rest;
    }
  }

  lemma SettingBack(x: Setting, rest: Bytes)
    requires x.id < 0x1_0000
    ensures var s := U16(x.id) + U32(x.val) + rest;
      |s| == 6 + |rest| && Get16(s) == x.id && Get32(s[2..]) == x.val && s[6..] == rest
  {
    hide U16, U32, Get16, Get32;
    NumbersBack16(x.id, U32(x.val) + rest);
    NumbersBack32(x.val, rest);
    var s := U16(x.id) + U32(x.val) + rest;
    assert s == U16(x.id) + (U32(x.val) + rest);
    assert s[6..] == s[2..][4..];
  }

  lemma GoAwayBack(h: Header, m: Message)
    requires m.GoAway? && h == Received(m).h
    ensures Parse(h, Payload(m)) == Ok(Received(m))
  {
    hide U32, Get32;
    var s := Payload(m);
    NumbersBack32(m.maxStreamID % TWO_31, U32(m.code) + m.p);
    NumbersBack32(m.code, m.p);
    assert s == U32(m.maxStreamID % TWO_31) + (U32(m.code) + m.p);
    assert s[8..] == s[4..][4..];
  }

  lemma NumberBack(h: Header, m: Message)
    requires (m.RSTStream? || m.WindowUpdate?) && Refusal(m) == None && h == Received(m).h
    ensures Parse(h, Payload(m)) == Ok(Received(m))
  {
    hide U32, Get32;
    var v := if m.RSTStream? then m.code else m.increment;
    NumbersBack32(v, []);
    assert U32(v) + [] == U32(v);
  }

  lemma PriorityFrameBack(h: Header, m: Message)
    requires m.Priority? && Refusal(m) == None && h == Received(m).h
    ensures Parse(h, Payload(m)) == Ok(Received(m))
  {
    hide PriorityBytes, ParsePriorityParam;
    PriorityBack(m.priority, []);
    assert PriorityBytes(m.priority) + [] == PriorityBytes(m.priority);
  }

  lemma SettingsFrameBack(h: Header, m: Message)
    requires (m.Settings? || m.SettingsAck?) && Typed(m) && h == Received(m).h
    ensures Readable(m) ==> Parse(h, Payload(m)) == Ok(Received(m))
    ensures !Readable(m) ==> Parse(h, Payload(m)) == Bad(OfConnection(FLOW_CONTROL_ERROR))
  {
    hide SettingsBytes, WindowFits;
    if m.Settings? { SettingsBack(m.settings); } else { NothingOf(INITIAL_WINDOW_SIZE); }
  }

  lemma NothingOf(id: nat)
    ensures ValueOf([], id) == None
  {
  }

  lemma PlainBack(h: Header, m: Message)
    requires (m.Ping? || m.Continuation?) && Typed(m) && Refusal(m) == None && h == Received(m).h
    ensures Parse(h, Payload(m)) == Ok(Received(m))
  {
  }

  /** Every frame that the framer writes, and that is within the reader's limit, is read back as what was
      written, and exactly its bytes are consumed, if and only if the parser accepts it. */
  lemma ReadsBack(m: Message, rest: Bytes, max: nat)
    requires Typed(m) && Refusal(m) == None && |Payload(m)| <= max < 0x100_0000
    ensures Readable(m) <==> Decode(Encode(m) + rest, max) == (Ok(Received(m)), rest)
    ensures !Readable(m) ==> Decode(Encode(m) + rest, max).0.Bad? && Decode(Encode(m) + rest, max).1 == rest
  {
    hide Payload, Parse, HeaderBytes, ParseHeader, Refusal, Readable, Kind, Flags, StreamID, Typed;
    var p, h := Payload(m), Received(m).h;
    var s := Encode(m) + rest;
    HeaderBack(Kind(m), Flags(m), |p|, StreamID(m), p + rest);
    assert s == HeaderBytes(Kind(m), Flags(m), |p|, StreamID(m)) + (p + rest);
    assert s[9..9 + |p|] == p && s[9 + |p|..] == rest by { assert s[9..] == p + rest; }
    ParsesBack(h, m);
  }

  lemma ParsesBack(h: Header, m: Message)
    requires Typed(m) && Refusal(m) == None && h == Received(m).h
    ensures h == Header(Kind(m), Flags(m), |Payload(m)|, StreamID(m) % TWO_31)
    ensures if Readable(m) then Parse(h, Payload(m)) == Ok(Received(m)) else Parse(h, Payload(m)).Bad?
  {
    hide Parse, Payload, Refusal, Kind, Flags, StreamID, WindowFits;
    MostlyReadable(m);
    match m
    case Data(_, _, _, _) => DataBack(h, m);
    case Headers(_, _, _, _, _, _) => HeadersBack(h, m);
    case Priority(_, _) => PriorityFrameBack(h, m);
    case RSTStream(_, _) => NumberBack(h, m);
    case Settings(_) => SettingsFrameBack(h, m);
    case SettingsAck => SettingsFrameBack(h, m);
    case PushPromise(_, _, _, _, _) => PushPromiseBack(h, m);
    case Ping(_, _) => PlainBack(h, m);
    case GoAway(_, _, _) => GoAwayBack(h, m);
    case WindowUpdate(_, _) => NumberBack(h, m);
    case Continuation(_, _, _) => PlainBack(h, m);
  }

  /** Only HEADERS and SETTINGS can be written and not be readable. */
  lemma MostlyReadable(m: Message)
    ensures !m.Headers? && !m.Settings? ==> Readable(m)
    ensures m.Headers? ==> (Readable(m) <==> m.fragment != [])
  {
  }

  /** Whatever the bytes, a frame that is read is within the limit and uses up its header and its payload. */
  lemma DecodeConsumes(s: Bytes, max: nat)
    ensures var d := Decode(s, max);
      d.0.Ok? ==> d.0.f.h == ParseHeader(s) && d.0.f.h.length <= max && s == s[..9 + d.0.f.h.length] + d.1
  {
  }
}
