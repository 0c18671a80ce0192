/** A request body on its way from DATA frames to the handler, and the receive window that bounds it. */
module BodyFlows {
  import opened GoInt
  import opened Options
  import opened FlowControl
  import opened FixedBuffers

  /** Why a pipe is closed, or what a read from it fails with. */
  datatype PipeError = EOF | ClosedBody | Failed(code: nat)

  datatype ReadResult = Got(n: nat) | Err(e: PipeError) | Waits

  class Pipe {
    const b: FixedBuffer
    var err: Option<PipeError>
    var breakErr: Option<PipeError>
    /** Code to run before the error is returned is waiting; ran counts how often such code has run. */
    var readFn: bool
    var ran: nat

    ghost predicate Valid()
      reads this, b
    {
      b.Valid()
    }

    ghost function Contents(): seq<Byte>
      requires Valid()
      reads this, b, b.buf
    {
      b.Contents()
    }

    constructor (size: nat)
      ensures Valid() && fresh(b) && fresh(b.buf) && b.buf.Length == size && Contents() == []
      ensures err == None && breakErr == None && !readFn
    {
      b := new FixedBuffer(size);
      err, breakErr, readFn, ran := None, None, false, 0;
    }

    function Len(): (n: nat)
      requires Valid()
      reads this, b, b.buf
      ensures n == |Contents()|
    {
      b.Len()
    }

    /** What is buffered comes before the error with which the pipe was closed, but not before the one with
        which it was broken. */
    method Read(d: array<Byte>) returns (res: ReadResult)
      requires Valid() && d != b.buf
      modifies this`readFn, this`ran, b`r, b`w, d
      ensures Valid()
      ensures old(breakErr).Some? ==> res == Err(old(breakErr).value) && Contents() == old(Contents())
      ensures old(breakErr).None? && old(Contents()) != [] ==>
        res == Got(Min(d.Length, |old(Contents())|)) && d[..res.n] == old(Contents())[..res.n] && Contents() == old(Contents())[res.n..]
      ensures old(breakErr).None? && old(Contents()) == [] ==>
        Contents() == [] && res == if err.Some? then Err(err.value) else Waits
      ensures ran - old(ran) == if res.Err? && old(breakErr).None? && old(readFn) then 1 else 0
      ensures readFn == (old(readFn) && ran == old(ran))
    {
      if breakErr.Some? {
        return Err(breakErr.value);
      }
      if b.Len() > 0 {
        var n, _ := b.Read(d);
        return Got(n);
      }
      if err.Some? {
        if readFn {
          ran := ran + 1;
          readFn := false;
        }
        return Err(err.value);
      }
      return Waits;
    }

    method Write(d: seq<Byte>) returns (n: nat, ok: bool)
      requires Valid()
      modifies b`r, b`w, b.buf
      ensures Valid()
      ensures err.Some? ==> n == 0 && !ok && Contents() == old(Contents())
      ensures err.None? ==> n == Min(|d|, b.buf.Length - |old(Contents())|) && (ok <==> n == |d|) && Contents() == old(Contents()) + d[..n]
    {
      if err.Some? {
        return 0, false;
      }
      n, ok := b.Write(d);
    }

    /** Closes the pipe, once. */
    method CloseWithErrorAndCode(e: PipeError, fn: bool)
      modifies this`err, this`readFn
      ensures err == if old(err).Some? then old(err) else Some(e)
      ensures readFn == if old(err).Some? then old(readFn) else fn
    {
      if err.None? {
        readFn := fn;
        err := Some(e);
      }
    }

    method BreakWithError(e: PipeError)
      modifies this`breakErr, this`readFn
      ensures breakErr == if old(breakErr).Some? then old(breakErr) else Some(e)
      ensures readFn == (old(readFn) && old(breakErr).Some?)
    {
      if breakErr.None? {
        readFn := false;
        breakErr := Some(e);
      }
    }
  }

  const WINDOW := 65535

  /** What became of a DATA frame. */
  datatype Fate = Taken | TooLong | OverWindow | BodyClosed

  class InboundStream {
    const body: Pipe
    /** The receive window of the stream. */
    var inflow: Int32
    /** The client may still send. */
    var open: bool
    var declBodyBytes: int
    var bodyBytes: int
    var sawEOF: bool
    /** Bytes that the handler has read and the server has not yet been told of. */
    var unnoted: nat
    ghost var received: seq<Byte>
    ghost var delivered: seq<Byte>

    /** Everything that may still arrive or is still held fits into the buffer. */
    ghost predicate Valid()
      reads this, body, body.b, body.b.buf
    {
      && body.Valid() && body.b.buf.Length == WINDOW
      && inflow >= 0 && inflow + body.Len() + unnoted <= WINDOW
      && received == delivered + body.Contents() && bodyBytes == |received|
      && (open ==> declBodyBytes == -1 || bodyBytes <= declBodyBytes)
      && (body.err == Some(EOF) ==> !open && (declBodyBytes == -1 || bodyBytes == declBodyBytes))
      && (sawEOF ==> body.err == Some(EOF) && delivered == received)
      && (body.breakErr.Some? ==> body.breakErr.value != EOF)
    }

    ghost function Footprint(): set<object>
      reads this
    {
      {this, body, body.b, body.b.buf}
    }

    constructor (declBodyBytes: int)
      requires declBodyBytes >= -1
      ensures Valid() && fresh(body) && fresh(body.b) && fresh(body.b.buf) && inflow == WINDOW && open && received == [] && delivered == []
    {
      body := new Pipe(WINDOW);
      inflow, open, bodyBytes, sawEOF, unnoted := WINDOW, true, 0, false, 0;
      this.declBodyBytes := declBodyBytes;
      received, delivered := [], [];
    }

    /** The receive window grows; if it could not, the server would panic. */
    method Credit(k: Int32)
      requires inflow >= 0 && k >= 0 && inflow + k <= WINDOW
      modifies this`inflow
      ensures inflow == old(inflow) + k
    {
      assert Accepts(inflow, k);
      inflow := Wrap32(inflow + k);
    }

    /** A DATA frame of the given length, padding included, arrives on an open stream, conn being the receive
        window of the connection. The buffer always takes all of the data. */
    method ProcessData(length: Int32, data: seq<Byte>, ended: bool, conn: Int32) returns (fate: Fate)
      requires Valid() && open && |data| <= length
      modifies Footprint()
      ensures Valid() && delivered == old(delivered) && unnoted == old(unnoted) && declBodyBytes == old(declBodyBytes)
      ensures fate.TooLong? <==> declBodyBytes != -1 && |old(received)| + |data| > declBodyBytes
      ensures fate.OverWindow? <==> !fate.TooLong? && length > 0 && Min(old(inflow), conn) < length
      ensures fate.BodyClosed? <==> !fate.TooLong? && !fate.OverWindow? && data != [] && old(body.err).Some?
      ensures fate.Taken? ==> received == old(received) + data && inflow == old(inflow) - |data|
      ensures !fate.Taken? ==> received == old(received) && open
      ensures inflow == old(inflow) - (if fate.Taken? then |data| else if fate.BodyClosed? then length else 0)
      ensures fate.Taken? ==> open == !ended
    {
      hide FixedBuffer.Contents;
      if declBodyBytes != -1 && bodyBytes + |data| > declBodyBytes {
        body.CloseWithErrorAndCode(Failed(0), false);
        return TooLong;
      }
      if length > 0 {
        var available := if conn < inflow then conn else inflow;
        if available < length {
          return OverWindow;
        }
        var ok := Buffer(length, data);
        if !ok {
          return BodyClosed;
        }
      }
      if ended {
        EndStream();
      }
      return Taken;
    }

    /** Takes a frame that the window allows, gives its padding back and buffers its data. If not all of the
        data fitted, the server would panic. */
    method Buffer(length: Int32, data: seq<Byte>) returns (ok: bool)
      requires Valid() && open && |data| <= length && 0 < length <= inflow
      requires declBodyBytes == -1 || bodyBytes + |data| <= declBodyBytes
      modifies this`inflow, this`received, this`bodyBytes, body.b`r, body.b`w, body.b.buf
      ensures Valid()
      ensures ok <==> data == [] || body.err.None?
      ensures received == old(received) + if ok then data else []
      ensures inflow == old(inflow) - if ok then |data| else length
    {
      hide FixedBuffer.Contents;
      ghost var c := body.Contents();
      inflow := inflow - length;
      if |data| > 0 {
        var wrote, all := body.Write(data);
        if !all {
          return false;
        }
        assert wrote == |data|;
        AppendLater(delivered, c, data);
        received := received + data;
        bodyBytes := bodyBytes + |data|;
      }
      var pad := length - |data|;
      if pad > 0 {
        Credit(pad);
      }
      return true;
    }

    /** The client has sent everything: the handler will see the end, or that the declared length is wrong. */
    method EndStream()
      requires Valid() && open
      modifies this`open, body`err, body`readFn
      ensures Valid() && !open
      ensures body.err == if old(body.err).Some? then old(body.err) else if declBodyBytes == -1 || declBodyBytes == bodyBytes then Some(EOF) else Some(Failed(1))
    {
      if declBodyBytes != -1 && declBodyBytes != bodyBytes {
        body.CloseWithErrorAndCode(Failed(1), false);
      } else {
        body.CloseWithErrorAndCode(EOF, true);
        body.CloseWithErrorAndCode(EOF, false);
      }
      open := false;
    }

    /** The handler reads: it gets the bytes in the order in which they came, and the end only after all of them. */
    method HandlerRead(p: array<Byte>) returns (res: ReadResult)
      requires Valid() && p != body.b.buf
      modifies Footprint(), p
      ensures Valid() && received == old(received) && inflow == old(inflow) && open == old(open)
      ensures delivered <= received
      ensures res.Got? ==> res.n <= p.Length && delivered == old(delivered) + p[..res.n] && unnoted == old(unnoted) + res.n
      ensures !res.Got? ==> delivered == old(delivered) && unnoted == old(unnoted)
      ensures res == Err(EOF) ==> delivered == received && !open && (declBodyBytes == -1 || |delivered| == declBodyBytes)
      ensures res.Waits? <==> old(!sawEOF && body.breakErr.None? && body.err.None? && delivered == received)
    {
      hide FixedBuffer.Contents;
      if sawEOF {
        return Err(EOF);
      }
      ghost var c := body.Contents();
      res := body.Read(p);
      match res {
        case Got(n) =>
          MoveFront(delivered, c, n);
          delivered := delivered + p[..n];
          unnoted := unnoted + n;
        case Err(e) =>
          if e == EOF {
            sawEOF := true;
          }
        case Waits =>
      }
    }

    /** The server learns of n bytes read, and lets the client send as much again while it may send at all. */
    method NoteBodyRead(n: nat)
      requires Valid() && n <= unnoted
      modifies this`unnoted, this`inflow
      ensures Valid() && unnoted == old(unnoted) - n && inflow == old(inflow) + if open then n else 0
    {
      unnoted := unnoted - n;
      if open && n > 0 {
        Credit(n);
      }
    }

    /** The stream closes, or the handler closes the body. */
    method Close(code: nat, byHandler: bool)
      requires Valid()
      modifies this`open, body`err, body`breakErr, body`readFn
      ensures Valid() && open == (old(open) && byHandler)
    {
      if byHandler {
        body.BreakWithError(ClosedBody);
      } else {
        body.CloseWithErrorAndCode(Failed(code), false);
        open := false;
      }
    }

    /** Any run of the server and the handler: everything received is delivered in order, what is not yet
        delivered is still held, and no write finds the buffer full. */
    method Run(steps: seq<Step>)
      requires Valid()
      modifies Footprint()
      ensures Valid() && old(received) <= received && old(delivered) <= delivered <= received
      ensures |received| - |delivered| <= WINDOW
    {
      for i := 0 to |steps|
        invariant Valid() && old(received) <= received && old(delivered) <= delivered <= received
      {
        match steps[i] {
          case Data(length, data, ended, conn) =>
            if open && |data| <= length {
              var _ := ProcessData(length, data, ended, conn);
            }
          case Read(n) =>
            var p := new Byte[n](_ => 0);
            var _ := HandlerRead(p);
          case Note(n) =>
            if n <= unnoted {
              NoteBodyRead(n);
            }
          case End =>
            if open {
              EndStream();
            }
          case Shut(code, byHandler) => Close(code, byHandler);
        }
      }
    }
  }

  lemma AppendLater(a: seq<Byte>, b: seq<Byte>, c: seq<Byte>)
    ensures (a + b) + c == a + (b + c)
  {
  }

  lemma MoveFront(a: seq<Byte>, b: seq<Byte>, n: nat)
    requires n <= |b|
    ensures a + b == (a + b[..n]) + b[n..]
  {
  }

  datatype Step =
    | Data(length: Int32, data: seq<Byte>, ended: bool, conn: Int32)
    | Read(n: nat)
    | Note(n: nat)
    | End
    | Shut(code: nat, byHandler: bool)
}
