/** The framer: it writes frames, reads them, and keeps HEADERS and CONTINUATION frames together
    (sections 4.3 and 6.10 of RFC 7540). */
module Framers {
  import opened GoInt
  import opened Options
  import opened BigEndian
  import opened Frames

  /** What becomes of an attempt to write m. */
  function Outcome(m: Message): Option<WriteError>
    requires Typed(m)
  {
    if Refusal(m).Some? then Refusal(m) else if |Payload(m)| >= 0x100_0000 then Some(FrameTooLarge) else None
  }

  /** The stream of bytes after an attempt to write m. */
  function After(w: Bytes, m: Message): Bytes
    requires Typed(m)
  {
    if Outcome(m).Some? then w else w + Encode(m)
  }

  /** The stream whose header block is unfinished after a frame with the header h, last being the one before
      it (0 for none), or nothing if the frame may not come here. */
  function Ordered(last: nat, h: Header): Option<nat> {
    if last != 0 && (h.kind != CONTINUATION || h.streamID != last) then None
    else if last == 0 && h.kind == CONTINUATION then None
    else if h.kind == HEADERS || h.kind == CONTINUATION then Some(if Has(h.flags, 4) then 0 else h.streamID)
    else Some(last)
  }

  /** What reading a frame comes to when the order counts too, the stream then unfinished and the bytes left. */
  function Next(s: Bytes, last: nat, max: nat): (Parsed, nat, Bytes) {
    var (p, rest) := Decode(s, max);
    if p.Bad? then (p, last, rest)
    else match Ordered(last, p.f.h)
      case None => (Bad(OfConnection(PROTOCOL_ERROR)), last, rest)
      case Some(l) => (p, l, rest)
  }

  /** While a header block is unfinished every frame that is read is a CONTINUATION of its stream. */
  lemma OnlyContinuation(s: Bytes, last: nat, max: nat)
    requires last != 0 && Next(s, last, max).0.Ok?
    ensures var (p, l, rest) := Next(s, last, max);
      p.f.ContinuationFrame? && p.f.h.streamID == last && (l == if Has(p.f.h.flags, 4) then 0 else last) && |rest| < |s|
  {
  }

  class Framer {
    /** Everything written so far, and the bytes still to be read. */
    var w: Bytes
    var r: Bytes
    var wbuf: Bytes
    var lastHeaderStream: nat
    var maxReadSize: nat

    constructor (r: Bytes)
      ensures w == [] && this.r == r && lastHeaderStream == 0 && maxReadSize == 0xFF_FFFF
    {
      w, this.r, wbuf, lastHeaderStream, maxReadSize := [], r, [], 0, 0xFF_FFFF;
    }

    method StartWrite(kind: Byte, flags: Byte, streamID: UInt32)
      modifies this`wbuf
      ensures wbuf == [0, 0, 0, kind, flags] + U32(streamID)
    {
      wbuf := [0, 0, 0, kind, flags, streamID / 0x100_0000, streamID / 0x1_0000 % 256, streamID / 256 % 256, streamID % 256];
    }

    /** Fills in the length and sends the frame. */
    method EndWrite(ghost m: Message) returns (err: Option<WriteError>)
      requires Typed(m) && Refusal(m) == None && wbuf == [0, 0, 0, Kind(m), Flags(m)] + U32(StreamID(m)) + Payload(m)
      modifies this`wbuf, this`w
      ensures err == Outcome(m) && w == After(old(w), m)
    {
      hide Kind, Flags, StreamID, Payload, Refusal, U32;
      U32Length(StreamID(m));
      var length := |wbuf| - 9;
      if length >= 0x100_0000 {
        return Some(FrameTooLarge);
      }
      wbuf := U24(length) + wbuf[3..];
      assert wbuf == Encode(m) by { U24Length(length); }
      w := w + wbuf;
      return None;
    }

    method WriteDataPadded(streamID: UInt32, endStream: bool, data: Bytes, pad: Option<Bytes>) returns (err: Option<WriteError>)
      modifies this`wbuf, this`w
      ensures var m := Data(streamID, endStream, data, pad); err == Outcome(m) && w == After(old(w), m)
    {
      hide U32;
      ghost var m := Data(streamID, endStream, data, pad);
      if !ValidStreamID(streamID) {
        return Some(BadStreamID);
      }
      if pad.Some? && |pad.value| > 255 {
        return Some(BadPadLength);
      }
      StartWrite(DATA, Flag(endStream, 1) + Flag(pad.Some?, 8), streamID);
      ghost var start := wbuf;
      if pad.Some? {
        wbuf := wbuf + [|pad.value|];
      }
      wbuf := wbuf + data;
      wbuf := wbuf + if pad.Some? then pad.value else [];
      assert wbuf == start + Payload(m);
      err := EndWrite(m);
    }

    /** Writes a HEADERS frame. */
    method WriteHeaders(id: UInt32, fragment: Bytes, endStream: bool, endHeaders: bool, padLength: Byte, priority: PriorityParam)
      returns (err: Option<WriteError>)
      modifies this`wbuf, this`w
      ensures var m := Headers(id, fragment, endStream, endHeaders, padLength, priority); err == Outcome(m) && w == After(old(w), m)
    {
      hide U32;
      ghost var m := Headers(id, fragment, endStream, endHeaders, padLength, priority);
      if !ValidStreamID(id) {
        return Some(BadStreamID);
      }
      StartWrite(HEADERS, Flag(endStream, 1) + Flag(endHeaders, 4) + Flag(padLength != 0, 8) + Flag(!priority.IsZero(), 32), id);
      ghost var start := wbuf;
      ghost var a: Bytes := if padLength != 0 then [padLength] else [];
      if padLength != 0 {
        wbuf := wbuf + [padLength];
      }
      assert wbuf == start + a;
      ghost var padded := wbuf;
      if !priority.IsZero() {
        if priority.dep >= TWO_31 {
          return Some(BadDependency);
        }
        wbuf := wbuf + U32(priority.dep + if priority.exclusive then TWO_31 else 0);
        wbuf := wbuf + [priority.weight];
      }
      ghost var b: Bytes := if priority.IsZero() then [] else PriorityBytes(priority);
      assert wbuf == padded + b;
      wbuf := wbuf + fragment;
      wbuf := wbuf + Zeros(padLength);
      FourParts(start, a, b, fragment, Zeros(padLength));
      err := EndWrite(m);
    }

    method WritePriority(streamID: UInt32, p: PriorityParam) returns (err: Option<WriteError>)
      modifies this`wbuf, this`w
      ensures var m := Priority(streamID, p); err == Outcome(m) && w == After(old(w), m)
    {
      hide U32;
      ghost var m := Priority(streamID, p);
      if !ValidStreamID(streamID) {
        return Some(BadStreamID);
      }
      if p.dep >= TWO_31 {
        return Some(BadDependency);
      }
      StartWrite(PRIORITY, 0, streamID);
      ghost var start := wbuf;
      wbuf := wbuf + U32(p.dep + if p.exclusive then TWO_31 else 0);
      wbuf := wbuf + [p.weight];
      assert wbuf == start + Payload(m);
      err := EndWrite(m);
    }

    method WriteRSTStream(streamID: UInt32, code: UInt32) returns (err: Option<WriteError>)
      modifies this`wbuf, this`w
      ensures var m := RSTStream(streamID, code); err == Outcome(m) && w == After(old(w), m)
    {
      hide U32;
      if !ValidStreamID(streamID) {
        return Some(BadStreamID);
      }
      StartWrite(RST_STREAM, 0, streamID);
      wbuf := wbuf + U32(code);
      err := EndWrite(RSTStream(streamID, code));
    }

    method WriteSettings(settings: seq<Setting>) returns (err: Option<WriteError>)
      requires forall x :: x in settings ==> x.id < 0x1_0000
      modifies this`wbuf, this`w
      ensures var m := Settings(settings); err == Outcome(m) && w == After(old(w), m)
    {
      hide U32, U16;
      StartWrite(SETTINGS, 0, 0);
      ghost var start := wbuf;
      for i := 0 to |settings|
        invariant wbuf == start + SettingsBytes(settings[..i]) && w == old(w)
      {
        SettingsBytesAppend(settings[..i], settings[i]);
        assert settings[..i + 1] == settings[..i] + [settings[i]];
        wbuf := wbuf + U16(settings[i].id);
        wbuf := wbuf + U32(settings[i].val);
      }
      assert settings[..|settings|] == settings;
      err := EndWrite(Settings(settings));
    }

    method WriteSettingsAck() returns (err: Option<WriteError>)
      modifies this`wbuf, this`w
      ensures err == Outcome(SettingsAck) && w == After(old(w), SettingsAck)
    {
      hide U32;
      StartWrite(SETTINGS, 1, 0);
      assert wbuf == wbuf + Payload(SettingsAck);
      err := EndWrite(SettingsAck);
    }

    method WritePushPromise(id: UInt32, promiseID: UInt32, fragment: Bytes, endHeaders: bool, padLength: Byte) returns (err: Option<WriteError>)
      modifies this`wbuf, this`w
      ensures var m := PushPromise(id, promiseID, fragment, endHeaders, padLength); err == Outcome(m) && w == After(old(w), m)
    {
      hide U32;
      ghost var m := PushPromise(id, promiseID, fragment, endHeaders, padLength);
      if !ValidStreamID(id) {
        return Some(BadStreamID);
      }
      StartWrite(PUSH_PROMISE, Flag(endHeaders, 4) + Flag(padLength != 0, 8), id);
      ghost var start := wbuf;
      ghost var a: Bytes := if padLength != 0 then [padLength] else [];
      if padLength != 0 {
        wbuf := wbuf + [padLength];
      }
      assert wbuf == start + a;
      if !ValidStreamID(promiseID) {
        return Some(BadStreamID);
      }
      wbuf := wbuf + U32(promiseID);
      wbuf := wbuf + fragment;
      wbuf := wbuf + Zeros(padLength);
      FourParts(start, a, U32(promiseID), fragment, Zeros(padLength));
      err := EndWrite(m);
    }

    method WritePing(ack: bool, data: Bytes) returns (err: Option<WriteError>)
      requires |data| == 8
      modifies this`wbuf, this`w
      ensures var m := Ping(ack, data); err == Outcome(m) && w == After(old(w), m)
    {
      hide U32;
      StartWrite(PING, Flag(ack, 1), 0);
      wbuf := wbuf + data;
      err := EndWrite(Ping(ack, data));
    }

    method WriteGoAway(maxStreamID: UInt32, code: UInt32, debugData: Bytes) returns (err: Option<WriteError>)
      modifies this`wbuf, this`w
      ensures var m := GoAway(maxStreamID, code, debugData); err == Outcome(m) && w == After(old(w), m)
    {
      hide U32;
      ghost var m := GoAway(maxStreamID, code, debugData);
      StartWrite(GOAWAY, 0, 0);
      ghost var start := wbuf;
      wbuf := wbuf + U32(maxStreamID % TWO_31);
      wbuf := wbuf + U32(code);
      wbuf := wbuf + debugData;
      assert wbuf == start + Payload(m);
      err := EndWrite(m);
    }

    method WriteWindowUpdate(streamID: UInt32, incr: UInt32) returns (err: Option<WriteError>)
      modifies this`wbuf, this`w
      ensures var m := WindowUpdate(streamID, incr); err == Outcome(m) && w == After(old(w), m)
    {
      hide U32;
      if incr < 1 || incr > 2147483647 {
        return Some(BadIncrement);
      }
      StartWrite(WINDOW_UPDATE, 0, streamID);
      wbuf := wbuf + U32(incr);
      err := EndWrite(WindowUpdate(streamID, incr));
    }

    method WriteContinuation(streamID: UInt32, endHeaders: bool, fragment: Bytes) returns (err: Option<WriteError>)
      modifies this`wbuf, this`w
      ensures var m := Continuation(streamID, endHeaders, fragment); err == Outcome(m) && w == After(old(w), m)
    {
      hide U32;
      if !ValidStreamID(streamID) {
        return Some(BadStreamID);
      }
      StartWrite(CONTINUATION, Flag(endHeaders, 4), streamID);
      wbuf := wbuf + fragment;
      err := EndWrite(Continuation(streamID, endHeaders, fragment));
    }

    // ---- Reading

    /** Reads n bytes, or all there are if they are fewer. */
    method ReadFull(n: nat) returns (p: Bytes, err: Option<ReadError>)
      modifies this`r
      ensures if |old(r)| >= n then err == None && p == old(r)[..n] && r == old(r)[n..]
        else err == Some(if old(r) == [] then EOF else UnexpectedEOF) && r == []
    {
      if |r| < n {
        err := Some(if r == [] then EOF else UnexpectedEOF);
        p, r := [], [];
      } else {
        p, r, err := r[..n], r[n..], None;
      }
    }

    method ReadFrame() returns (p: Parsed)
      modifies this`r, this`lastHeaderStream
      ensures (p, lastHeaderStream, r) == Next(old(r), old(lastHeaderStream), maxReadSize)
    {
      hide Parse, Has, Get24, Get32;
      var buf, err := ReadFull(9);
      if err.Some? {
        return Bad(err.value);
      }
      var h := ParseHeader(buf);
      assert h == ParseHeader(old(r)) by { HeaderOfPrefix(old(r)); }
      if h.length > maxReadSize {
        return Bad(TooLarge);
      }
      var payload;
      payload, err := ReadFull(h.length);
      if err.Some? {
        return Bad(err.value);
      }
      assert payload == old(r)[9..9 + h.length];
      p := Parse(h, payload);
      if p.Bad? {
        return;
      }
      ParseKeepsHeader(h, payload);
      var ok := CheckFrameOrder(p.f.h);
      if !ok {
        return Bad(OfConnection(PROTOCOL_ERROR));
      }
    }

    method CheckFrameOrder(h: Header) returns (ok: bool)
      modifies this`lastHeaderStream
      ensures ok <==> Ordered(old(lastHeaderStream), h).Some?
      ensures lastHeaderStream == if ok then Ordered(old(lastHeaderStream), h).value else old(lastHeaderStream)
    {
      if lastHeaderStream != 0 {
        if h.kind != CONTINUATION {
          return false;
        }
        if h.streamID != lastHeaderStream {
          return false;
        }
      } else if h.kind == CONTINUATION {
        return false;
      }
      if h.kind == HEADERS || h.kind == CONTINUATION {
        lastHeaderStream := if Has(h.flags, 4) then 0 else h.streamID;
      }
      return true;
    }
  }

  lemma FourParts(start: Bytes, a: Bytes, b: Bytes, c: Bytes, d: Bytes)
    ensures start + a + b + c + d == start + (a + b + c + d)
  {
  }

  lemma U32Length(v: UInt32)
    ensures |U32(v)| == 4
  {
  }

  lemma U24Length(v: nat)
    requires v < 0x100_0000
    ensures |U24(v)| == 3
  {
  }

  lemma HeaderOfPrefix(s: Bytes)
    requires |s| >= 9
    ensures ParseHeader(s[..9]) == ParseHeader(s)
  {
    assert s[..9][5..] == s[5..9];
  }

  lemma ParseKeepsHeader(h: Header, p: Bytes)
    ensures Parse(h, p).Ok? ==> Parse(h, p).f.h == h
  {
  }

  lemma {:induction false} SettingsBytesAppend(s: seq<Setting>, x: Setting)
    requires forall y :: y in s + [x] ==> y.id < 0x1_0000
    ensures SettingsBytes(s + [x]) == SettingsBytes(s) + U16(x.id) + U32(x.val)
  {
    hide U16, U32;
    if s == [] {
      assert SettingsBytes([x][1..]) == [];
    } else {
      assert (s + [x])[1..] == s[1..] + [x];
      SettingsBytesAppend(s[1..], x);
    }
  }

  // ---- Settings

  /** The settings in a payload, in order. */
  function SettingsOf(p: Bytes): seq<Setting>
    requires |p| % 6 == 0
  {
    if p == [] then [] else [Setting(Get16(p), Get32(p[2..]))] + SettingsOf(p[6..])
  }

  /** What is written as settings is read as the same settings. */
  lemma {:induction false} SettingsReadBack(settings: seq<Setting>)
    requires forall x :: x in settings ==> x.id < 0x1_0000
    ensures |SettingsBytes(settings)| % 6 == 0 && SettingsOf(SettingsBytes(settings)) == settings
  {
    hide U16, U32, Get16, Get32;
    SettingsBack(settings);
    if settings != [] {
      SettingsReadBack(settings[1..]);
      SettingBack(settings[0], SettingsBytes(settings[1..]));
    }
  }

  /** The value of a setting, or nothing. */
  method Value(p: Bytes, id: nat) returns (v: Option<UInt32>)
    requires |p| % 6 == 0
    ensures v == ValueOf(p, id)
  {
    hide Get16, Get32;
    var buf := p;
    while |buf| > 0
      invariant |buf| % 6 == 0 && ValueOf(p, id) == ValueOf(buf, id)
    {
      if Get16(buf[..2]) == id {
        GetPrefixes(buf);
        return Some(Get32(buf[2..6]));
      }
      GetPrefixes(buf);
      buf := buf[6..];
    }
    return None;
  }

  lemma GetPrefixes(p: Bytes)
    requires |p| >= 6
    ensures Get16(p[..2]) == Get16(p) && Get32(p[2..6]) == Get32(p[2..])
  {
  }

  /** Visits the settings in order. */
  method ForeachSetting(p: Bytes) returns (visited: seq<Setting>)
    requires |p| % 6 == 0
    ensures visited == SettingsOf(p)
  {
    hide Get16, Get32;
    var buf := p;
    visited := [];
    while |buf| > 0
      invariant |buf| % 6 == 0 && SettingsOf(p) == visited + SettingsOf(buf)
    {
      GetPrefixes(buf);
      visited := visited + [Setting(Get16(buf[..2]), Get32(buf[2..6]))];
      buf := buf[6..];
    }
  }
}
