/** The conversation the client holds on one connection, as a pure function
    of what the connection will do. A `Wire` is one TCP stream seen from the
    client: the bytes written to it so far, the bytes the server will still
    deliver, how many more writes it accepts before the pipe breaks, and
    whether the server ends its reply with an orderly close (end of stream)
    or the connection breaks instead. The methods of `Adb` are proved to do
    exactly what these functions say. */
module Protocol {
  import opened Errors
  import opened Framing
  import Utf8

  datatype Wire = Wire(sent: seq<byte>, incoming: seq<byte>, writesLeft: nat, orderlyClose: bool)

  /** The result of one step and the connection after it. */
  datatype Step<T> = Step(result: Result<T>, wire: Wire)

  /** `RecvData`: the status of a device service and every byte that
      followed it up to the end of the stream. */
  datatype RecvData = RecvData(isOk: bool, data: seq<byte>)

  /** The error of a read that runs past the last byte the server sends. */
  function EndOfStream(w: Wire): Error
  {
    Io(if w.orderlyClose then UnexpectedEof else ConnectionReset)
  }

  /** `Write::write`, taken as all-or-error. */
  function Write(w: Wire, data: seq<byte>): (s: Step<()>)
    ensures s.wire.incoming == w.incoming && s.wire.orderlyClose == w.orderlyClose
    ensures s.result.Ok? <==> w.writesLeft > 0
    ensures s.result.Ok? ==> s.wire.sent == w.sent + data && s.wire.writesLeft == w.writesLeft - 1
    ensures s.result.Err? ==> s.result.error == Io(BrokenPipe) && s.wire == w
  {
    if w.writesLeft == 0 then Step(Err(Io(BrokenPipe)), w)
    else Step(Ok(()), w.(sent := w.sent + data, writesLeft := w.writesLeft - 1))
  }

  /** `Read::read_exact`: `n` bytes, or an error once the stream ends first
      (the bytes it did read are consumed all the same). */
  function ReadExact(w: Wire, n: nat): (s: Step<seq<byte>>)
    ensures s.wire.sent == w.sent && s.wire.writesLeft == w.writesLeft && s.wire.orderlyClose == w.orderlyClose
    ensures s.result.Ok? <==> n <= |w.incoming|
    ensures s.result.Ok? ==> |s.result.value| == n && s.result.value + s.wire.incoming == w.incoming
    ensures s.result.Err? ==> s.result.error == EndOfStream(w) && s.wire.incoming == []
  {
    if n <= |w.incoming| then Step(Ok(w.incoming[..n]), w.(incoming := w.incoming[n..]))
    else Step(Err(EndOfStream(w)), w.(incoming := []))
  }

  /** `Read::read_to_end`: everything up to the end of the stream. */
  function ReadToEnd(w: Wire): (s: Step<seq<byte>>)
    ensures s.wire == w.(incoming := [])
    ensures s.result.Ok? <==> w.orderlyClose
    ensures s.result.Ok? ==> s.result.value == w.incoming
    ensures s.result.Err? ==> s.result.error == Io(ConnectionReset)
  {
    Step(if w.orderlyClose then Ok(w.incoming) else Err(Io(ConnectionReset)), w.(incoming := []))
  }

  /** `send_data`: two writes, the length prefix and then the payload. Only a
      write that fails stops it, so a failure of the second write leaves half
      a frame (the prefix alone) on the wire. */
  function SendData(w: Wire, payload: seq<byte>): (s: Step<()>)
    ensures s.wire.incoming == w.incoming && s.wire.orderlyClose == w.orderlyClose
    ensures s.result.Ok? <==> w.writesLeft >= 2
    ensures s.result.Err? ==> s.result.error == Io(BrokenPipe)
    ensures s.result.Ok? ==> s.wire.sent == w.sent + Frame(payload) && s.wire.writesLeft == w.writesLeft - 2
    ensures w.writesLeft == 1 ==> s.wire.sent == w.sent + LengthPrefix(|payload|) && s.wire.writesLeft == 0
    ensures w.writesLeft == 0 ==> s.wire == w
  {
    var prefix := Write(w, LengthPrefix(|payload|));
    if prefix.result.Err? then Step(Err(prefix.result.error), prefix.wire)
    else Write(prefix.wire, payload)
  }

  /** `check_okay`: consumes exactly four bytes and answers whether they are
      `OKAY`; any other four bytes, `FAIL` among them, give `false` and not an
      error. Fewer than four bytes before the end is an I/O error. */
  function CheckOkay(w: Wire): (s: Step<bool>)
    ensures s.wire.sent == w.sent && s.wire.writesLeft == w.writesLeft && s.wire.orderlyClose == w.orderlyClose
    ensures s.result.Ok? <==> |w.incoming| >= 4
    ensures s.result.Ok? ==> s.result.value == (w.incoming[..4] == Okay) && s.wire.incoming == w.incoming[4..]
    ensures s.result.Err? ==> s.result.error == EndOfStream(w) && s.wire.incoming == []
  {
    var status := ReadExact(w, 4);
    if status.result.Err? then Step(Err(status.result.error), status.wire)
    else Step(Ok(IsOkay(status.result.value)), status.wire)
  }

  /** The services the client uses, as the text that starts their requests. */
  const TransportService: string := "host:transport:"
  const ShellService: string := "shell:"
  const ExecService: string := "exec:"
  const ConnectService: string := "host:connect:"

  /** A request payload: the UTF-8 encoding of the service text followed by
      the argument (`RequestBytes` shows it is the service's bytes followed by
      the argument's bytes). The server decodes it back to that exact text. */
  function Request(service: string, arg: string): (r: seq<byte>)
    ensures Utf8.DecodeLossy(r) == service + arg
  {
    Utf8.DecodeEncode(service + arg);
    Utf8.Encode(service + arg)
  }

  /** `transport`: asks the server to bind this connection to `target`; any
      status but `OKAY` is the error "transport fail". */
  function Transport(w: Wire, target: string): (s: Step<()>)
    ensures s.result ==
      if w.writesLeft < 2 then Err(Io(BrokenPipe))
      else if |w.incoming| < 4 then Err(EndOfStream(w))
      else if !IsOkay(w.incoming[..4]) then Err(Custom("transport fail"))
      else Ok(())
    ensures w.writesLeft >= 2 ==> s.wire.sent == w.sent + Frame(Request(TransportService, target))
                                  && s.wire.writesLeft == w.writesLeft - 2
    ensures s.wire.orderlyClose == w.orderlyClose
    ensures s.result.Ok? ==> s.wire.incoming == w.incoming[4..]
  {
    var sent := SendData(w, Request(TransportService, target));
    if sent.result.Err? then Step(Err(sent.result.error), sent.wire)
    else
      var status := CheckOkay(sent.wire);
      if status.result.Err? then Step(Err(status.result.error), status.wire)
      else if !status.result.value then Step(Err(Custom("transport fail")), status.wire)
      else Step(Ok(()), status.wire)
  }

  /** What follows a successful transport in `shell`, `exec` and `connect`:
      send the request, read its status, drain the stream. A status other
      than `OKAY` is not an error here but `isOk == false`. */
  function Serve(w: Wire, request: seq<byte>): (s: Step<RecvData>)
    ensures s.result ==
      if w.writesLeft < 2 then Err(Io(BrokenPipe))
      else if |w.incoming| < 4 then Err(EndOfStream(w))
      else if !w.orderlyClose then Err(Io(ConnectionReset))
      else Ok(RecvData(IsOkay(w.incoming[..4]), w.incoming[4..]))
    ensures s.result.Ok? ==> s.wire == w.(sent := w.sent + Frame(request), incoming := [],
                                          writesLeft := w.writesLeft - 2)
  {
    var sent := SendData(w, request);
    if sent.result.Err? then Step(Err(sent.result.error), sent.wire)
    else
      var status := CheckOkay(sent.wire);
      if status.result.Err? then Step(Err(status.result.error), status.wire)
      else
        var rest := ReadToEnd(status.wire);
        if rest.result.Err? then Step(Err(rest.result.error), rest.wire)
        else Step(Ok(RecvData(status.result.value, rest.result.value)), rest.wire)
  }

  /** The body shared by `shell`, `exec` and `connect`, up to the reset:
      transport, then serve the request on the bound connection. On success
      both frames are on the wire and the stream has been drained. */
  function Exchange(w: Wire, target: string, request: seq<byte>): (s: Step<RecvData>)
    ensures s.result.Ok? ==> w.writesLeft >= 4
    ensures s.result.Ok? ==> s.wire == w.(sent := w.sent + Frame(Request(TransportService, target)) + Frame(request),
                                          incoming := [], writesLeft := w.writesLeft - 4)
  {
    var bound := Transport(w, target);
    if bound.result.Err? then Step(Err(bound.result.error), bound.wire)
    else Serve(bound.wire, request)
  }

  /** The outcome of an exchange read off the connection's initial state: it
      fails at the first step the connection cannot carry; a status other
      than `OKAY` for the transport is the error "transport fail", while for
      the request itself it is `isOk == false`, and the data is everything
      after that status. */
  lemma ExchangeOutcome(w: Wire, target: string, request: seq<byte>)
    ensures Exchange(w, target, request).result ==
      if w.writesLeft < 2 then Err(Io(BrokenPipe))
      else if |w.incoming| < 4 then Err(EndOfStream(w))
      else if !IsOkay(w.incoming[..4]) then Err(Custom("transport fail"))
      else if w.writesLeft < 4 then Err(Io(BrokenPipe))
      else if |w.incoming| < 8 then Err(EndOfStream(w))
      else if !w.orderlyClose then Err(Io(ConnectionReset))
      else Ok(RecvData(IsOkay(w.incoming[4..8]), w.incoming[8..]))
  {
    var bound := Transport(w, target);
    if bound.result.Ok? {
      var b := bound.wire;
      assert b.writesLeft == w.writesLeft - 2 && b.orderlyClose == w.orderlyClose;
      assert b.incoming == w.incoming[4..];
      if |b.incoming| >= 4 {
        assert b.incoming[..4] == w.incoming[4..8];
        assert b.incoming[4..] == w.incoming[8..];
      }
    }
  }

  /** A successful exchange appends the transport frame and the request
      frame to what was sent before. */
  lemma ExchangeSent(w: Wire, target: string, request: seq<byte>)
    requires Exchange(w, target, request).result.Ok?
    ensures Exchange(w, target, request).wire.sent
         == w.sent + (Frame(Request(TransportService, target)) + Frame(request))
  {
  }

  /** What the server receives on a connection whose exchange succeeded is
      exactly two frames, the transport request and then the service request,
      and nothing after them, provided both fit the 16-bit length. */
  lemma ServerReadsTwoFrames(w: Wire, target: string, request: seq<byte>)
    requires Exchange(w, target, request).result.Ok?
    requires |Request(TransportService, target)| < 0x10000 && |request| < 0x10000
    ensures var s := Exchange(w, target, request).wire.sent;
            |s| >= |w.sent|
            && ParseFrame(s[|w.sent|..]) == Some((Request(TransportService, target),
                                                   s[|w.sent| + 4 + |Request(TransportService, target)|..]))
            && ParseFrame(s[|w.sent| + 4 + |Request(TransportService, target)|..]) == Some((request, []))
  {
    ExchangeSent(w, target, request);
    ParseTwoFrames(w.sent, Request(TransportService, target), request, Exchange(w, target, request).wire.sent);
  }

  /** What `shell` and `exec` return: the exchange's error if it failed;
      otherwise, if the reset at the end cannot reach the server again
      (`redial` false), the error of that dial; otherwise the status and the
      data that were read. */
  function ServiceOutcome(w: Wire, target: string, request: seq<byte>, redial: bool): (r: Result<RecvData>)
    ensures r.Ok? <==> Exchange(w, target, request).result.Ok? && redial
    ensures r.Ok? ==> r == Exchange(w, target, request).result
    ensures Exchange(w, target, request).result.Err? ==> r == Exchange(w, target, request).result
  {
    var e := Exchange(w, target, request).result;
    if e.Err? || redial then e else Err(Io(ConnectionRefused))
  }

  /** A server that acknowledges the transport, answers the request with a
      status and closes the stream after `data` yields exactly that status
      (as `isOk`) and that data, whether the status is `OKAY` or not. */
  lemma ServiceReply(w: Wire, target: string, request: seq<byte>, status: seq<byte>, data: seq<byte>)
    requires w.writesLeft >= 4 && w.orderlyClose
    requires |status| == 4 && w.incoming == Okay + status + data
    ensures ServiceOutcome(w, target, request, true) == Ok(RecvData(IsOkay(status), data))
    ensures Exchange(w, target, request).wire.sent
            == w.sent + Frame(Request(TransportService, target)) + Frame(request)
  {
    ExchangeOutcome(w, target, request);
    assert w.incoming[..4] == Okay;
    assert w.incoming[4..8] == status;
    assert w.incoming[8..] == data;
  }

  /** A transport the server does not acknowledge ends the exchange with
      "transport fail" before the request is sent: only the transport frame
      is on the wire. */
  lemma TransportRejected(w: Wire, target: string, request: seq<byte>, redial: bool)
    requires w.writesLeft >= 2 && |w.incoming| >= 4 && !IsOkay(w.incoming[..4])
    ensures ServiceOutcome(w, target, request, redial) == Err(Custom("transport fail"))
    ensures Exchange(w, target, request).wire.sent == w.sent + Frame(Request(TransportService, target))
  {
    ExchangeOutcome(w, target, request);
  }

  /** The reset comes after the command: when the server cannot be dialed
      again, a command that was sent and answered is still reported as the
      error `ConnectionRefused`, and its reply is lost. */
  lemma ServedButNotReset(w: Wire, target: string, request: seq<byte>)
    requires Exchange(w, target, request).result.Ok?
    ensures ServiceOutcome(w, target, request, false) == Err(Io(ConnectionRefused))
    ensures Exchange(w, target, request).wire.sent
            == w.sent + Frame(Request(TransportService, target)) + Frame(request)
  {
  }

  /** The payload is the service's own bytes followed by the argument's. */
  lemma RequestBytes(service: string, arg: string)
    ensures Request(service, arg) == Utf8.Encode(service) + Utf8.Encode(arg)
  {
    Utf8.EncodeAppend(service, arg);
  }

  /** `shell:` and `exec:` requests never coincide, whatever their commands:
      the first byte already differs. */
  lemma ShellIsNotExec(cmd1: string, cmd2: string)
    ensures Request(ShellService, cmd1) != Request(ExecService, cmd2)
  {
    var a, b := Request(ShellService, cmd1), Request(ExecService, cmd2);
    assert ShellService + cmd1 == ['s'] + (ShellService[1..] + cmd1);
    assert ExecService + cmd2 == ['e'] + (ExecService[1..] + cmd2);
    assert a[0] == Utf8.EncodeChar('s')[0];
    assert b[0] == Utf8.EncodeChar('e')[0];
  }
}
