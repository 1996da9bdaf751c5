/** Newline framing over byte streams: the named-pipe line reader, and the handshake and splice of a virtual board's stream. */
module LineFraming {
  import opened Bytes

  const NEWLINE: Byte := 10
  const CHUNK := 65536

  /** Where the first newline is, or the length if there is none. */
  function FirstNewline(s: seq<Byte>): (k: nat)
    ensures k <= |s| && NEWLINE !in s[..k]
    ensures k < |s| ==> s[k] == NEWLINE
    ensures k < |s| <==> NEWLINE in s
  {
    if s == [] || s[0] == NEWLINE then 0
    else
      var k := FirstNewline(s[1..]);
      assert s[..k + 1] == [s[0]] + s[1..][..k];
      k + 1
  }

  lemma {:induction false} FirstNewlineIs(s: seq<Byte>, k: nat)
    requires k <= |s| && NEWLINE !in s[..k]
    requires k < |s| ==> s[k] == NEWLINE
    ensures FirstNewline(s) == k
  {
    if k > 0 {
      assert s[0] == s[..k][0] && s[1..][..k - 1] == s[..k][1..];
      FirstNewlineIs(s[1..], k - 1);
    }
  }

  /** Bytes read later never move the first newline. */
  lemma FirstNewlineAppended(s: seq<Byte>, t: seq<Byte>)
    ensures FirstNewline(s + t) == if NEWLINE in s then FirstNewline(s) else |s| + FirstNewline(t)
  {
    hide FirstNewline;
    if NEWLINE in s {
      var k := FirstNewline(s);
      assert (s + t)[..k] == s[..k];
      FirstNewlineIs(s + t, k);
    } else {
      var k := FirstNewline(t);
      assert (s + t)[..|s| + k] == s + t[..k];
      FirstNewlineIs(s + t, |s| + k);
    }
  }

  // ----- the pipe reader -----

  /** The lines of a byte string: each runs up to and including a newline, the last one to the end. */
  function SplitLines(s: seq<Byte>): seq<seq<Byte>> {
    if s == [] then []
    else
      var k := FirstNewline(s);
      if k == |s| then [s] else [s[..k + 1]] + SplitLines(s[k + 1..])
  }

  function Concat(lines: seq<seq<Byte>>): seq<Byte> {
    if lines == [] then [] else lines[0] + Concat(lines[1..])
  }

  /** A line is not empty and holds a newline at most as its last byte. */
  predicate IsLine(l: seq<Byte>) {
    l != [] && NEWLINE !in l[..|l| - 1]
  }

  predicate EndsInNewline(l: seq<Byte>) {
    l != [] && l[|l| - 1] == NEWLINE
  }

  lemma SplitAtNewline(s: seq<Byte>, t: seq<Byte>)
    requires NEWLINE in s
    ensures var k := FirstNewline(s);
            k < |s| && s[k] == NEWLINE && NEWLINE !in s[..k] && SplitLines(s + t) == [s[..k + 1]] + SplitLines(s[k + 1..] + t)
  {
    hide FirstNewline;
    FirstNewlineAppended(s, t);
    var k := FirstNewline(s);
    assert (s + t)[..k + 1] == s[..k + 1] && (s + t)[k + 1..] == s[k + 1..] + t;
  }

  lemma SplitWithoutNewline(s: seq<Byte>)
    requires s != [] && NEWLINE !in s
    ensures SplitLines(s) == [s]
  {
    hide FirstNewline;
  }

  lemma SplitNothing()
    ensures SplitLines([]) == []
  {
  }

  /** The lines lose no byte, hold newlines only at their ends, and only the last may lack one. */
  lemma {:induction false} SplitLinesIsExact(s: seq<Byte>)
    ensures Concat(SplitLines(s)) == s
    ensures forall i :: 0 <= i < |SplitLines(s)| ==> IsLine(SplitLines(s)[i])
    ensures forall i :: 0 <= i < |SplitLines(s)| - 1 ==> EndsInNewline(SplitLines(s)[i])
  {
    hide FirstNewline, SplitLines;
    SplitNothing();
    if NEWLINE in s {
      var k := FirstNewline(s);
      SplitAtNewline(s, []);
      assert s + [] == s && s[k + 1..] + [] == s[k + 1..];
      var head, rest := s[..k + 1], SplitLines(s[k + 1..]);
      SplitLinesIsExact(s[k + 1..]);
      assert ([head] + rest)[1..] == rest;
      assert head[..|head| - 1] == s[..k];
    } else if s != [] {
      SplitWithoutNewline(s);
      assert Concat([s]) == s + Concat([]);
    }
  }

  /** There is only one such division into lines. */
  lemma {:induction false} SplitLinesIsUnique(lines: seq<seq<Byte>>)
    requires forall i :: 0 <= i < |lines| ==> IsLine(lines[i])
    requires forall i :: 0 <= i < |lines| - 1 ==> EndsInNewline(lines[i])
    ensures SplitLines(Concat(lines)) == lines
  {
    hide FirstNewline, SplitLines;
    if lines != [] {
      var l, rest := lines[0], lines[1..];
      SplitLinesIsUnique(rest);
      assert l == l[..|l| - 1] + [l[|l| - 1]];
      if EndsInNewline(l) {
        FirstNewlineIs(l, |l| - 1);
        SplitAtNewline(l, Concat(rest));
        assert l[..|l|] == l && l[|l|..] + Concat(rest) == Concat(rest);
      } else {
        assert rest == [] && Concat(lines) == l;
        SplitWithoutNewline(l);
      }
      assert [l] + rest == lines;
    } else {
      SplitNothing();
    }
  }

  class PipeLineReader {
    const pipe: Socket
    var buf: seq<Byte>
    var eof: bool

    /** Everything not yet returned. */
    ghost function Unread(): seq<Byte>
      reads this, pipe
    {
      buf + pipe.pending
    }

    ghost predicate Valid()
      reads this, pipe
    {
      eof ==> pipe.pending == []
    }

    constructor (pipe: Socket)
      ensures Valid() && Unread() == pipe.pending && this.pipe == pipe
    {
      this.pipe := pipe;
      buf, eof := [], false;
    }

    /** The next line, or nothing once all is read. */
    method ReadLine() returns (line: seq<Byte>)
      requires Valid()
      modifies this, pipe
      ensures Valid()
      ensures line + Unread() == old(Unread()) && (line == [] <==> old(Unread()) == [])
      ensures SplitLines(old(Unread())) == (if line == [] then [] else [line] + SplitLines(Unread()))
    {
      hide FirstNewline, SplitLines;
      SplitNothing();
      while NEWLINE !in buf && !eof
        invariant Valid() && Unread() == old(Unread())
        decreases !eof, |pipe.pending|
      {
        var chunk := pipe.Recv(CHUNK);
        if chunk == [] {
          eof := true;
          break;
        }
        buf := buf + chunk;
      }
      if NEWLINE in buf {
        SplitAtNewline(buf, pipe.pending);
        var k := FirstNewline(buf);
        line := buf[..k] + [NEWLINE];
        assert line == buf[..k + 1];
        buf := buf[k + 1..];
      } else if buf != [] {
        line := buf;
        assert old(Unread()) == buf;
        SplitWithoutNewline(buf);
        buf := [];
      } else {
        line := [];
      }
    }

    /** Iterating the reader yields exactly the lines of the input. */
    method ReadAll() returns (lines: seq<seq<Byte>>)
      requires Valid()
      modifies this, pipe
      ensures lines == SplitLines(old(Unread())) && Unread() == []
    {
      hide FirstNewline, SplitLines;
      SplitNothing();
      lines := [];
      while true
        invariant Valid() && lines + SplitLines(Unread()) == SplitLines(old(Unread()))
        decreases |Unread()|
      {
        var line := ReadLine();
        if line == [] {
          break;
        }
        lines := lines + [line];
      }
    }
  }

  // ----- the endpoint of a virtual board -----

  /** What a line from the endpoint means; how JSON is read is not modelled. */
  datatype Ack = Accepted | Refused | NotAnObject

  datatype Request = LockRequest | StreamRequest

  /** The first line of a byte string and what follows it. */
  predicate HasLine(s: seq<Byte>) {
    NEWLINE in s
  }

  function LineOf(s: seq<Byte>): seq<Byte> {
    s[..FirstNewline(s)]
  }

  function AfterLine(s: seq<Byte>): seq<Byte>
    requires HasLine(s)
  {
    s[FirstNewline(s) + 1..]
  }

  /** The newline that ends a line belongs neither to it nor to what follows. */
  lemma LineAndRest(s: seq<Byte>)
    requires HasLine(s)
    ensures LineOf(s) + [NEWLINE] + AfterLine(s) == s && NEWLINE !in LineOf(s)
  {
  }

  /** Two complete lines and what follows them. */
  predicate IsTwoLines(s: seq<Byte>, first: seq<Byte>, second: seq<Byte>, rest: seq<Byte>) {
    s == first + [NEWLINE] + second + [NEWLINE] + rest && NEWLINE !in first && NEWLINE !in second
  }

  lemma LineIs(line: seq<Byte>, rest: seq<Byte>)
    requires NEWLINE !in line
    ensures var s := line + [NEWLINE] + rest;
            HasLine(s) && LineOf(s) == line && AfterLine(s) == rest
  {
    var s := line + [NEWLINE] + rest;
    assert s[|line|] == NEWLINE && s[..|line|] == line;
    FirstNewlineIs(s, |line|);
  }

  /** The two lines are what the two reads of a handshake return, and the rest is what they leave. */
  lemma TwoLines(s: seq<Byte>, first: seq<Byte>, second: seq<Byte>, rest: seq<Byte>)
    requires IsTwoLines(s, first, second, rest)
    ensures HasLine(s) && LineOf(s) == first && HasLine(AfterLine(s)) && LineOf(AfterLine(s)) == second && AfterLine(AfterLine(s)) == rest
  {
    hide HasLine, LineOf, AfterLine;
    assert s == first + [NEWLINE] + (second + [NEWLINE] + rest);
    LineIs(first, second + [NEWLINE] + rest);
    LineIs(second, rest);
  }

  lemma TwoLinesRead(s: seq<Byte>)
    requires HasLine(s) && HasLine(AfterLine(s))
    ensures IsTwoLines(s, LineOf(s), LineOf(AfterLine(s)), AfterLine(AfterLine(s)))
  {
    LineAndRest(s);
    LineAndRest(AfterLine(s));
    hide HasLine, LineOf, AfterLine;
    var rest := AfterLine(AfterLine(s));
    assert LineOf(s) + [NEWLINE] + (LineOf(AfterLine(s)) + [NEWLINE] + rest)
           == LineOf(s) + [NEWLINE] + LineOf(AfterLine(s)) + [NEWLINE] + rest;
  }

  /** The endpoint accepts both requests of the handshake. */
  predicate BothAccepted(s: seq<Byte>, parse: seq<Byte> -> Ack) {
    && HasLine(s) && parse(LineOf(s)) == Accepted
    && HasLine(AfterLine(s)) && parse(LineOf(AfterLine(s))) == Accepted
  }

  /** The same, for all lines at once. */
  lemma TwoLinesAnyhow(s: seq<Byte>, parse: seq<Byte> -> Ack)
    ensures BothAccepted(s, parse) ==> exists first, second, rest :: IsTwoLines(s, first, second, rest)
    ensures forall first, second, rest :: IsTwoLines(s, first, second, rest) ==>
              && (BothAccepted(s, parse) <==> parse(first) == Accepted && parse(second) == Accepted)
              && HasLine(s) && HasLine(AfterLine(s)) && AfterLine(AfterLine(s)) == rest
  {
    hide HasLine, LineOf, AfterLine, IsTwoLines;
    if BothAccepted(s, parse) {
      TwoLinesRead(s);
    }
    forall first, second, rest | IsTwoLines(s, first, second, rest)
      ensures (BothAccepted(s, parse) <==> parse(first) == Accepted && parse(second) == Accepted)
              && HasLine(s) && HasLine(AfterLine(s)) && AfterLine(AfterLine(s)) == rest
    {
      TwoLines(s, first, second, rest);
    }
  }

  class EndpointConn {
    const sock: Socket
    var buf: seq<Byte>
    var sent: seq<Request>

    ghost function Unread(): seq<Byte>
      reads this, sock
    {
      buf + sock.pending
    }

    constructor (sock: Socket)
      ensures this.sock == sock && Unread() == sock.pending && sent == []
    {
      this.sock := sock;
      buf, sent := [], [];
    }

    /** Sending may fail; then nothing is recorded as sent. */
    method Send(req: Request) returns (ok: bool)
      modifies this`sent
      ensures sent == if ok then old(sent) + [req] else old(sent)
    {
      ok :| true;
      if ok {
        sent := sent + [req];
      }
    }

    /** One line off the connection; false if the endpoint closed before completing one. */
    method Read() returns (ok: bool, line: seq<Byte>)
      modifies this`buf, sock
      ensures ok <==> NEWLINE in old(Unread())
      ensures ok ==> line == LineOf(old(Unread())) && Unread() == AfterLine(old(Unread()))
      ensures ok ==> old(Unread()) == line + [NEWLINE] + Unread() && NEWLINE !in line
      ensures !ok ==> Unread() == old(Unread())
    {
      hide FirstNewline;
      while NEWLINE !in buf
        invariant Unread() == old(Unread())
        decreases |sock.pending|
      {
        var chunk := sock.Recv(CHUNK);
        if chunk == [] {
          return false, [];
        }
        buf := buf + chunk;
      }
      FirstNewlineAppended(buf, sock.pending);
      var k := FirstNewline(buf);
      line := buf[..k];
      buf := buf[k + 1..];
      assert old(Unread())[..k] == line && old(Unread())[k + 1..] == Unread();
      LineAndRest(old(Unread()));
      ok := true;
    }

    /** lock then stream at the endpoint. If no send fails, it succeeds exactly when both answers accept;
        and then everything after the second newline is still unread. */
    method OpenStream(parse: seq<Byte> -> Ack) returns (accepted: bool, sendFailed: bool)
      requires sent == []
      modifies this, sock
      ensures accepted ==> BothAccepted(old(Unread()), parse) && sent == [LockRequest, StreamRequest]
      ensures accepted ==> Unread() == AfterLine(AfterLine(old(Unread())))
      ensures !accepted && !sendFailed ==> !BothAccepted(old(Unread()), parse)
      ensures accepted ==> exists first, second, rest :: IsTwoLines(old(Unread()), first, second, rest)
      ensures forall first, second, rest :: IsTwoLines(old(Unread()), first, second, rest) ==>
                && (accepted ==> parse(first) == Accepted && parse(second) == Accepted && Unread() == rest)
                && (!accepted && !sendFailed ==> parse(first) != Accepted || parse(second) != Accepted)
    {
      TwoLinesAnyhow(Unread(), parse);
      hide FirstNewline, LineOf, AfterLine;
      accepted, sendFailed := false, false;
      var ok := Send(LockRequest);
      if !ok {
        return false, true;
      }
      var got, line := Read();
      if !got || parse(line) != Accepted {
        return;
      }
      ok := Send(StreamRequest);
      if !ok {
        return false, true;
      }
      got, line := Read();
      if !got || parse(line) != Accepted {
        return;
      }
      accepted := true;
    }
  }

  /** The far end of a forwarding loop. A failing send may still deliver a part. */
  class Sink {
    var received: seq<Byte>
    var up: bool

    constructor ()
      ensures received == [] && up
    {
      received, up := [], true;
    }

    method SendAll(data: seq<Byte>)
      requires up
      modifies this
      ensures old(received) <= received <= old(received) + data
      ensures up ==> received == old(received) + data
    {
      var k: nat :| k <= |data|;
      received := received + data[..k];
      up := k == |data|;
    }
  }

  /** recv and sendall until either side stops. `cut` reports a source that was shut down from here before it had ended. */
  method Forward(source: Socket, sink: Sink) returns (cut: bool)
    requires sink.up
    modifies source, sink
    ensures old(sink.received) <= sink.received <= old(sink.received) + old(source.pending)
    ensures sink.up && !cut ==> sink.received == old(sink.received) + old(source.pending)
  {
    cut := false;
    while true
      invariant sink.up && sink.received + source.pending == old(sink.received) + old(source.pending)
      invariant old(sink.received) <= sink.received
      decreases |source.pending|
    {
      cut := *;
      if cut {
        break;
      }
      var data := source.Recv(CHUNK);
      if data == [] {
        break;
      }
      sink.SendAll(data);
      if !sink.up {
        break;
      }
    }
  }

  /** The endpoint-to-client half of a splice: the buffered bytes first, then whatever arrives. */
  method PumpEndpointToClient(ep: EndpointConn, client: Sink) returns (cut: bool)
    requires client.up && client.received == []
    modifies ep`buf, ep.sock, client
    ensures client.received <= old(ep.Unread())
    ensures client.up && !cut ==> client.received == old(ep.Unread())
  {
    if ep.buf != [] {
      client.SendAll(ep.buf);
      if !client.up {
        return false;
      }
      ep.buf := [];
    }
    cut := Forward(ep.sock, client);
  }

  /** Both directions of a virtual board's stream, from the dial to the end. The client only ever gets a prefix of what the
      endpoint sent after its second line, and all of it unless its side fails or the other direction's end cuts the pump short;
      the endpoint only ever gets a prefix of what the client sent. The two loops share no bytes, so their order is immaterial. */
  method VirtualStream(ep: EndpointConn, client: Sink, requests: Socket, endpoint: Sink, parse: seq<Byte> -> Ack)
    returns (accepted: bool, sendFailed: bool, cut: bool, requestsCut: bool)
    requires client.up && client.received == [] && endpoint.up && endpoint.received == [] && ep.sent == []
    requires client != endpoint && requests != ep.sock
    modifies ep, ep.sock, client, requests, endpoint
    ensures accepted ==> BothAccepted(old(ep.Unread()), parse)
    ensures accepted ==> client.received <= AfterLine(AfterLine(old(ep.Unread())))
    ensures accepted && client.up && !cut ==> client.received == AfterLine(AfterLine(old(ep.Unread())))
    ensures accepted ==> exists first, second, rest :: IsTwoLines(old(ep.Unread()), first, second, rest)
    ensures forall first, second, rest :: IsTwoLines(old(ep.Unread()), first, second, rest) && accepted ==>
              && parse(first) == Accepted && parse(second) == Accepted
              && client.received <= rest && (client.up && !cut ==> client.received == rest)
    ensures !accepted && !sendFailed ==> !BothAccepted(old(ep.Unread()), parse)
    ensures endpoint.received <= old(requests.pending)
    ensures accepted && endpoint.up && !requestsCut ==> endpoint.received == old(requests.pending)
    ensures !accepted ==> client.received == [] && endpoint.received == []
  {
    hide IsTwoLines;
    TwoLinesAnyhow(ep.Unread(), parse);
    accepted, sendFailed := ep.OpenStream(parse);
    cut, requestsCut := false, false;
    if accepted {
      cut := PumpEndpointToClient(ep, client);
      requestsCut := Forward(requests, endpoint);
    }
  }
}
