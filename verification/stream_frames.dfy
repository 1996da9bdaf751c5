/** The framed binary protocol of a stream session: type byte, four-byte length, payload. */
module StreamFrames {
  import opened Bytes

  const FRAME_DATA: Byte := 0x01
  const FRAME_BREAK: Byte := 0x02
  const FRAME_SET_DTR: Byte := 0x03
  const FRAME_SET_RTS: Byte := 0x04
  const FRAME_CLOSE: Byte := 0x05
  const HEADER_SIZE := 5
  const MAX_FRAME_PAYLOAD := 0x10_0000

  datatype Frame = Frame(kind: Byte, payload: seq<Byte>)

  /** A read ends in a frame, a clean end before any header byte, or an error. */
  datatype ReadResult = Got(frame: Frame) | CleanEnd | FrameError

  // ----- the wire format -----

  function BigEndian32(n: nat): (b: seq<Byte>)
    requires n < 0x1_0000_0000
    ensures |b| == 4 && FromBigEndian(b) == n
  {
    ByteDigits(n);
    [n / 0x100_0000, n / 0x1_0000 % 0x100, n / 0x100 % 0x100, n % 0x100]
  }

  lemma ByteDigits(n: nat)
    ensures Value(n / 0x100_0000, n / 0x1_0000 % 0x100, n / 0x100 % 0x100, n % 0x100) == n
  {
    assert n / 0x1_0000 == n / 0x100 / 0x100 && n / 0x100_0000 == n / 0x1_0000 / 0x100;
  }

  function FromBigEndian(b: seq<Byte>): (n: nat)
    requires |b| == 4
    ensures n < 0x1_0000_0000
  {
    Value(b[0], b[1], b[2], b[3])
  }

  function Value(a: nat, b: nat, c: nat, d: nat): nat {
    ((a * 0x100 + b) * 0x100 + c) * 0x100 + d
  }

  /** encode_frame; a payload of 2^32 bytes or more has no encoding in the source either. */
  function Encode(f: Frame): (b: seq<Byte>)
    requires |f.payload| < 0x1_0000_0000
    ensures |b| == 5 + |f.payload| && b[0] == f.kind && b[5..] == f.payload
    ensures |f.payload| == b[1] as int * 0x100_0000 + b[2] as int * 0x1_0000 + b[3] as int * 0x100 + b[4] as int
  {
    [f.kind] + BigEndian32(|f.payload|) + f.payload
  }

  predicate Sendable(fs: seq<Frame>) {
    forall i :: 0 <= i < |fs| ==> |fs[i].payload| <= MAX_FRAME_PAYLOAD
  }

  function EncodeAll(fs: seq<Frame>): seq<Byte>
    requires Sendable(fs)
  {
    if fs == [] then [] else Encode(fs[0]) + EncodeAll(fs[1..])
  }

  // ----- decoding a byte string -----

  /** One read from the front of a byte string that then ends: the result and what is left. */
  function DecodeOne(s: seq<Byte>): (ReadResult, seq<Byte>) {
    if s == [] then (CleanEnd, [])
    else if |s| < HEADER_SIZE then (FrameError, [])
    else
      var n := FromBigEndian(s[1..HEADER_SIZE]);
      if n > MAX_FRAME_PAYLOAD then (FrameError, s[HEADER_SIZE..])
      else if |s| < HEADER_SIZE + n then (FrameError, [])
      else (Got(Frame(s[0], s[HEADER_SIZE..HEADER_SIZE + n])), s[HEADER_SIZE + n..])
  }

  /** A frame that declares more than a mebibyte is refused on its header alone, whatever follows. */
  lemma OversizeIsRefused(f: Frame, rest: seq<Byte>)
    requires 1048576 < |f.payload| < 0x1_0000_0000
    ensures DecodeOne(Encode(f) + rest).0 == FrameError && DecodeOne(Encode(f)[..5] + rest).0 == FrameError
  {
    hide FromBigEndian;
    assert (Encode(f) + rest)[1..HEADER_SIZE] == BigEndian32(|f.payload|);
    assert (Encode(f)[..5] + rest)[1..HEADER_SIZE] == BigEndian32(|f.payload|);
  }

  datatype Transcript = Transcript(frames: seq<Frame>, end: ReadResult)

  /** Reading until something other than a frame comes back. */
  function DecodeAll(s: seq<Byte>): (t: Transcript)
    ensures !t.end.Got?
  {
    var (r, rest) := DecodeOne(s);
    if r.Got? then
      var t := DecodeAll(rest);
      Transcript([r.frame] + t.frames, t.end)
    else Transcript([], r)
  }

  lemma DecodeOneOfEncoded(f: Frame, rest: seq<Byte>)
    requires |f.payload| <= MAX_FRAME_PAYLOAD
    ensures DecodeOne(Encode(f) + rest) == (Got(f), rest)
  {
    hide FromBigEndian;
    var s := Encode(f) + rest;
    assert s[1..HEADER_SIZE] == BigEndian32(|f.payload|);
    assert s[HEADER_SIZE..HEADER_SIZE + |f.payload|] == f.payload;
    assert s[HEADER_SIZE + |f.payload|..] == rest;
  }

  lemma DecodeOneOfNothing()
    ensures DecodeOne([]).0 == CleanEnd
  {
  }

  /** A proper, non-empty part of one encoding is an error, never a frame and never a clean end. */
  lemma DecodeOneOfTruncated(f: Frame, cut: nat)
    requires |f.payload| <= MAX_FRAME_PAYLOAD && 0 < cut < HEADER_SIZE + |f.payload|
    ensures DecodeOne(Encode(f)[..cut]).0 == FrameError
  {
    hide FromBigEndian;
    var s := Encode(f)[..cut];
    if cut >= HEADER_SIZE {
      assert Encode(f)[1..HEADER_SIZE] == BigEndian32(|f.payload|);
      assert s[1..HEADER_SIZE] == Encode(f)[1..HEADER_SIZE];
    }
  }

  /** For any frames and any cut of their concatenated encodings: exactly the frames wholly before the cut come out,
      then a clean end if the cut is on a frame boundary and an error otherwise. */
  lemma {:induction false} CutStreamDecodes(fs: seq<Frame>, cut: nat, k: nat)
    requires Sendable(fs) && k <= |fs| && cut <= |EncodeAll(fs)|
    requires |EncodeAll(fs[..k])| <= cut
    requires k < |fs| ==> cut < |EncodeAll(fs[..k + 1])|
    ensures DecodeAll(EncodeAll(fs)[..cut])
            == Transcript(fs[..k], if cut == |EncodeAll(fs[..k])| then CleanEnd else FrameError)
  {
    hide Encode, FromBigEndian, DecodeOne;
    var s := EncodeAll(fs)[..cut];
    if k == 0 {
      if fs != [] {
        assert fs[..1][1..] == [] && fs[..1][0] == fs[0];
        assert |EncodeAll(fs[..1])| == |Encode(fs[0])|;
        assert s == Encode(fs[0])[..cut];
        if cut > 0 {
          DecodeOneOfTruncated(fs[0], cut);
        }
      }
      assert fs[..0] == [];
      DecodeOneOfNothing();
    } else {
      var head, tail := Encode(fs[0]), fs[1..];
      assert fs[..k][0] == fs[0] && fs[..k][1..] == tail[..k - 1];
      assert k < |fs| ==> fs[..k + 1][1..] == tail[..k];
      CutStreamDecodes(tail, cut - |head|, k - 1);
      assert s == head + EncodeAll(tail)[..cut - |head|];
      DecodeOneOfEncoded(fs[0], EncodeAll(tail)[..cut - |head|]);
      assert fs[..k] == [fs[0]] + tail[..k - 1];
    }
  }

  /** Encoding is unambiguous: two frame lists with the same bytes are the same list. */
  lemma EncodingIsInjective(fs: seq<Frame>, gs: seq<Frame>)
    requires Sendable(fs) && Sendable(gs) && EncodeAll(fs) == EncodeAll(gs)
    ensures fs == gs
  {
    hide EncodeAll, DecodeAll;
    var s := EncodeAll(fs);
    assert s[..|s|] == s && fs[..|fs|] == fs && gs[..|gs|] == gs;
    CutStreamDecodes(fs, |s|, |fs|);
    CutStreamDecodes(gs, |s|, |gs|);
  }

  // ----- reading from a socket -----

  /** The source's read_exact closure: n bytes, or fewer only at the end of the stream. */
  method ReadExact(sock: Socket, n: nat) returns (data: seq<Byte>)
    modifies sock
    ensures data + sock.pending == old(sock.pending)
    ensures |data| == if n <= |old(sock.pending)| then n else |old(sock.pending)|
  {
    data := [];
    var remaining := n;
    while remaining > 0
      invariant data + sock.pending == old(sock.pending)
      invariant 0 <= remaining && |data| + remaining == n
    {
      var chunk := sock.Recv(remaining);
      if chunk == [] {
        assert sock.pending == [];
        break;
      }
      data := data + chunk;
      remaining := remaining - |chunk|;
    }
  }

  method ReadFrame(sock: Socket) returns (r: ReadResult)
    modifies sock
    ensures (r, sock.pending) == DecodeOne(old(sock.pending))
  {
    hide FromBigEndian;
    ghost var s := sock.pending;
    var header := ReadExact(sock, HEADER_SIZE);
    assert header == s[..|header|] && sock.pending == s[|header|..];
    if header == [] {
      assert sock.pending == [];
      return CleanEnd;
    }
    if |header| < HEADER_SIZE {
      assert sock.pending == [];
      return FrameError;
    }
    var kind := header[0];
    var length := FromBigEndian(header[1..5]);
    assert header[1..5] == s[1..HEADER_SIZE];
    if length > MAX_FRAME_PAYLOAD {
      return FrameError;
    }
    var payload: seq<Byte> := [];
    if length != 0 {
      ghost var body := sock.pending;
      payload := ReadExact(sock, length);
      assert payload == body[..|payload|] && sock.pending == body[|payload|..];
      if |payload| < length {
        assert sock.pending == [];
        return FrameError;
      }
    }
    assert payload == s[HEADER_SIZE..HEADER_SIZE + length] && sock.pending == s[HEADER_SIZE + length..];
    return Got(Frame(kind, payload));
  }

  // ----- the server's side of a session -----

  /** What a session does to the serial port. */
  datatype PortEvent = Wrote(data: seq<Byte>) | SentBreak | SetDtr(on: bool) | SetRts(on: bool)

  /** The port, recording what was done to it; every call on it may fail. */
  class SerialPort {
    var events: seq<PortEvent>
    var working: bool

    constructor ()
      ensures events == [] && working
    {
      events, working := [], true;
    }

    method Attempt(e: PortEvent) returns (ok: bool)
      requires working
      modifies this
      ensures ok == working
      ensures events == if ok then old(events) + [e] else old(events)
    {
      ok :| true;
      if ok {
        events := events + [e];
      }
      working := ok;
    }
  }

  predicate EndsSession(f: Frame) {
    f.kind !in {FRAME_DATA, FRAME_BREAK, FRAME_SET_DTR, FRAME_SET_RTS}
  }

  function PortEffect(f: Frame): seq<PortEvent> {
    if f.kind == FRAME_DATA then [Wrote(f.payload)]
    else if f.kind == FRAME_BREAK then [SentBreak]
    else if f.kind == FRAME_SET_DTR && f.payload != [] then [SetDtr(f.payload[0] != 0)]
    else if f.kind == FRAME_SET_RTS && f.payload != [] then [SetRts(f.payload[0] != 0)]
    else []
  }

  /** The port events of the frames before the first one that ends the session. */
  function PortEvents(fs: seq<Frame>): seq<PortEvent> {
    if fs == [] || EndsSession(fs[0]) then [] else PortEffect(fs[0]) + PortEvents(fs[1..])
  }

  /** A frame of a type the protocol does not know ends the session like a close: nothing after it reaches the port. */
  lemma {:induction false} NothingAfterTheEnd(fs: seq<Frame>, end: Frame, rest: seq<Frame>)
    requires end.kind !in {1, 2, 3, 4}
    ensures PortEvents(fs + [end] + rest) == PortEvents(fs)
  {
    if fs != [] {
      NothingAfterTheEnd(fs[1..], end, rest);
      assert (fs + [end] + rest)[1..] == fs[1..] + [end] + rest;
    }
  }

  /** What each frame does: the first payload byte of a line setting counts, and an empty one does nothing. */
  lemma FrameEffects(payload: seq<Byte>)
    ensures PortEffect(Frame(1, payload)) == [Wrote(payload)] && PortEffect(Frame(2, payload)) == [SentBreak]
    ensures PortEffect(Frame(3, payload)) == (if payload == [] then [] else [SetDtr(payload[0] != 0)])
    ensures PortEffect(Frame(4, payload)) == (if payload == [] then [] else [SetRts(payload[0] != 0)])
  {
  }

  /** What one read leaves of the session. */
  lemma AllAfterOne(s: seq<Byte>)
    ensures var (r, rest) := DecodeOne(s);
            && (r.Got? ==> |rest| < |s|)
            && PortEvents(DecodeAll(s).frames)
               == if !r.Got? || EndsSession(r.frame) then [] else PortEffect(r.frame) + PortEvents(DecodeAll(rest).frames)
  {
    var (r, rest) := DecodeOne(s);
    if r.Got? {
      assert DecodeAll(s).frames[1..] == DecodeAll(rest).frames;
    }
  }

  /** What the session does with one frame: the port call it asks for, if any, or the end of the session. */
  method ApplyFrame(port: SerialPort, f: Frame) returns (goesOn: bool)
    requires port.working
    modifies port
    ensures goesOn <==> !EndsSession(f) && port.working
    ensures port.events == if goesOn then old(port.events) + PortEffect(f) else old(port.events)
    ensures EndsSession(f) ==> port.working
  {
    if f.kind == FRAME_DATA {
      goesOn := port.Attempt(Wrote(f.payload));
    } else if f.kind == FRAME_BREAK {
      goesOn := port.Attempt(SentBreak);
    } else if f.kind == FRAME_SET_DTR {
      goesOn := true;
      if f.payload != [] {
        goesOn := port.Attempt(SetDtr(f.payload[0] != 0));
      }
    } else if f.kind == FRAME_SET_RTS {
      goesOn := true;
      if f.payload != [] {
        goesOn := port.Attempt(SetRts(f.payload[0] != 0));
      }
    } else {
      goesOn := false;
    }
  }

  /** The frame loop of a stream session. `dropped` reports a recv that raised. The port sees a part of the frames' events,
      and exactly those events if no port call fails and no recv raises. */
  method HandleStream(sock: Socket, port: SerialPort) returns (dropped: bool)
    requires port.events == [] && port.working
    modifies sock, port
    ensures port.events <= PortEvents(DecodeAll(old(sock.pending)).frames)
    ensures port.working && !dropped ==> port.events == PortEvents(DecodeAll(old(sock.pending)).frames)
  {
    hide DecodeOne, DecodeAll, PortEvents, PortEffect, EndsSession;
    ghost var all := PortEvents(DecodeAll(sock.pending).frames);
    dropped := false;
    while true
      invariant port.working
      invariant port.events + PortEvents(DecodeAll(sock.pending).frames) == all
      decreases |sock.pending|
    {
      dropped := *;
      if dropped {
        break;
      }
      AllAfterOne(sock.pending);
      var r := ReadFrame(sock);
      if !r.Got? {
        break;
      }
      var goesOn := ApplyFrame(port, r.frame);
      if !goesOn {
        break;
      }
    }
  }

  /** Reading frames off a socket until one cannot be had: the decoding of the whole stream, however it was cut into chunks. */
  method ReadFrames(sock: Socket) returns (t: Transcript)
    modifies sock
    ensures t == DecodeAll(old(sock.pending))
  {
    hide DecodeOne;
    ghost var all := DecodeAll(sock.pending);
    var frames: seq<Frame> := [];
    while true
      invariant all == Transcript(frames + DecodeAll(sock.pending).frames, DecodeAll(sock.pending).end)
      decreases |sock.pending|
    {
      AllAfterOne(sock.pending);
      var r := ReadFrame(sock);
      if !r.Got? {
        return Transcript(frames, r);
      }
      frames := frames + [r.frame];
    }
  }

  // ----- both sides together -----

  /** A client's request, and the frame it sends. */
  function FrameOf(e: PortEvent): Frame {
    match e
    case Wrote(data) => Frame(FRAME_DATA, data)
    case SentBreak => Frame(FRAME_BREAK, [])
    case SetDtr(on) => Frame(FRAME_SET_DTR, [if on then 1 else 0])
    case SetRts(on) => Frame(FRAME_SET_RTS, [if on then 1 else 0])
  }

  function FramesOf(es: seq<PortEvent>): (fs: seq<Frame>)
    ensures |fs| == |es|
  {
    seq(|es|, i requires 0 <= i < |es| => FrameOf(es[i]))
  }

  lemma {:induction false} PortEventsOfFrames(es: seq<PortEvent>)
    ensures PortEvents(FramesOf(es)) == es
    ensures PortEvents(FramesOf(es) + [Frame(FRAME_CLOSE, [])]) == es
  {
    if es != [] {
      var fs := FramesOf(es);
      PortEventsOfFrames(es[1..]);
      assert fs[1..] == FramesOf(es[1..]);
      assert (fs + [Frame(FRAME_CLOSE, [])])[1..] == fs[1..] + [Frame(FRAME_CLOSE, [])];
      assert PortEffect(fs[0]) == [es[0]];
    } else {
      assert FramesOf(es) + [Frame(FRAME_CLOSE, [])] == [Frame(FRAME_CLOSE, [])];
    }
  }

  /** Wherever the connection is cut, the frames that arrive stand for a whole number of the client's requests, in order;
      and all of them if nothing is lost. */
  lemma PortSeesAPrefixOfTheRequests(es: seq<PortEvent>, cut: nat)
    requires Sendable(FramesOf(es)) && cut <= |EncodeAll(FramesOf(es))|
    ensures PortEvents(DecodeAll(EncodeAll(FramesOf(es))[..cut]).frames) <= es
    ensures cut == |EncodeAll(FramesOf(es))| ==> PortEvents(DecodeAll(EncodeAll(FramesOf(es))[..cut]).frames) == es
  {
    hide DecodeAll, EncodeAll, PortEvents, Sendable;
    var fs := FramesOf(es);
    var k := if cut == |EncodeAll(fs)| then |fs| else WholeFrames(fs, cut);
    assert fs[..|fs|] == fs && es[..|es|] == es;
    CutStreamDecodes(fs, cut, k);
    assert fs[..k] == FramesOf(es[..k]);
    PortEventsOfFrames(es[..k]);
  }

  /** From the client to the port: whatever the client asked for, wherever the connection was cut and however recv cut it up,
      the port sees the first of its requests, in order; and all of them if nothing was lost and nothing failed. */
  method ServeClient(ghost es: seq<PortEvent>, ghost cut: nat, sock: Socket, port: SerialPort) returns (dropped: bool)
    requires Sendable(FramesOf(es)) && cut <= |EncodeAll(FramesOf(es))|
    requires sock.pending == EncodeAll(FramesOf(es))[..cut] && port.events == [] && port.working
    modifies sock, port
    ensures port.events <= es
    ensures port.working && !dropped && cut == |EncodeAll(FramesOf(es))| ==> port.events == es
  {
    hide DecodeAll, EncodeAll, PortEvents, FramesOf;
    PortSeesAPrefixOfTheRequests(es, cut);
    dropped := HandleStream(sock, port);
  }

  /** How many frames lie wholly before a cut that is not the end. */
  ghost function WholeFrames(fs: seq<Frame>, cut: nat): (k: nat)
    requires Sendable(fs) && cut < |EncodeAll(fs)|
    ensures k < |fs| && |EncodeAll(fs[..k])| <= cut < |EncodeAll(fs[..k + 1])|
  {
    assert fs[..1][1..] == [] && fs[..0] == [];
    if cut < |Encode(fs[0])| then 0
    else
      var k := WholeFrames(fs[1..], cut - |Encode(fs[0])|);
      assert fs[..k + 1][1..] == fs[1..][..k] && fs[..k + 2][1..] == fs[1..][..k + 1];
      k + 1
  }
}
