/** The ADB client of autogui_core/src/controller/adb.rs: the `ADB` value,
    which holds one connection to the ADB server and the device it talks to,
    its builder, and the device actions it offers as a controller. Every
    method that talks to the server is proved to do exactly what the step
    functions of `Protocol` say for the connection it started from, and to
    reconnect as the source does. */
module Client {
  import opened Errors
  import opened Framing
  import opened Protocol
  import opened Net
  import Utf8
  import Commands

  /** The platform the program was compiled for, which picks the default
      name of the `adb` executable. */
  datatype Os = Windows | Other

  /** `image::RgbaImage`: a decoded screen capture. */
  datatype RgbaImage = RgbaImage(width: nat, height: nat, pixels: seq<byte>)

  const DefaultAddr: string := "127.0.0.1:5037"
  /** Three seconds, in nanoseconds. */
  const DefaultTimeout: nat := 3_000_000_000
  const DefaultTarget: string := "127.0.0.1:5555"
  const StartServer: string := "start-server"

  function DefaultBinPath(os: Os): string
  {
    if os == Windows then "adb.exe" else "adb"
  }

  /** `self.shell(...)?; Ok(())`: the device actions keep the error and drop
      the reply, the status included. */
  function Discard<T>(r: Result<T>): (d: Result<()>)
    ensures d.Ok? <==> r.Ok?
    ensures d.Err? ==> d.error == r.error
  {
    if r.Err? then Err(r.error) else Ok(())
  }

  /** What `screenshot` makes of the result of `exec("screencap -p")`: an
      error passes through; a status other than `OKAY` becomes an error
      whose message is the reply read as UTF-8; otherwise the reply is
      decoded as an image, and bytes that are no image are an `Image` error. */
  function Capture(recv: Result<RecvData>, decode: seq<byte> -> Option<RgbaImage>): (r: Result<RgbaImage>)
    ensures r.Ok? <==> recv.Ok? && recv.value.isOk && decode(recv.value.data).Some?
    ensures r.Ok? ==> decode(recv.value.data) == Some(r.value)
    ensures recv.Err? ==> r == Err(recv.error)
    ensures recv.Ok? && !recv.value.isOk ==> r == Err(Custom(Utf8.DecodeLossy(recv.value.data)))
    ensures recv.Ok? && recv.value.isOk && decode(recv.value.data).None? ==> r == Err(Image)
  {
    if recv.Err? then Err(recv.error)
    else if !recv.value.isOk then Err(Custom(Utf8.DecodeLossy(recv.value.data)))
    else match decode(recv.value.data)
      case None => Err(Image)
      case Some(img) => Ok(img)
  }

  /** A refusal that the device explains in text reaches the caller as that
      very text, whatever the image decoder would have made of it. */
  lemma CaptureRefusalText(message: string, decode: seq<byte> -> Option<RgbaImage>)
    ensures Capture(Ok(RecvData(false, Utf8.Encode(message))), decode) == Err(Custom(message))
  {
    Utf8.DecodeEncode(message);
  }

  /** A refusal in plain ASCII, as the device's own error messages are,
      reaches the caller character for character. */
  lemma CaptureRefusalAscii(data: seq<byte>, decode: seq<byte> -> Option<RgbaImage>)
    requires forall i :: 0 <= i < |data| ==> data[i] < 0x80
    ensures var r := Capture(Ok(RecvData(false, data)), decode);
            && r.Err? && r.error.Custom? && |r.error.message| == |data|
            && forall i :: 0 <= i < |data| ==> r.error.message[i] as int == data[i] as int
  {
    Utf8.DecodeAscii(data);
  }

  /** A tap is reported as done once the shell service has answered, even
      when the device refused the command with a status other than `OKAY`. */
  lemma ClickIgnoresStatus(w: Wire, target: string, x: u32, y: u32, status: seq<byte>, data: seq<byte>)
    requires w.writesLeft >= 4 && w.orderlyClose
    requires |status| == 4 && w.incoming == Okay + status + data
    ensures Discard(ServiceOutcome(w, target, Request(ShellService, Commands.Tap(x, y)), true)) == Ok(())
  {
    ServiceReply(w, target, Request(ShellService, Commands.Tap(x, y)), status, data);
  }

  /** `connect` sets the target once the server has answered, even when it
      refused the connection with a status other than `OKAY`. */
  lemma ConnectIgnoresStatus(w: Wire, target: string, t: string, status: seq<byte>, data: seq<byte>)
    requires w.writesLeft >= 4 && w.orderlyClose
    requires |status| == 4 && w.incoming == Okay + status + data
    ensures Discard(ServiceOutcome(w, target, Request(ConnectService, t), true)) == Ok(())
  {
    ServiceReply(w, target, Request(ConnectService, t), status, data);
  }

  /** `ADB`: the connection to the server and the serial of the device. */
  class Adb {
    var stream: TcpStream
    var target: string

    constructor (stream: TcpStream, target: string)
      ensures this.stream == stream && this.target == target
    {
      this.stream := stream;
      this.target := target;
    }

    /** `reset` found the server again through `host`, or failed to: the
        old stream's peer was dialed once, and on success `stream` is a
        fresh connection to it with no timeouts. */
    twostate predicate Reconnected(host: Host, s0: TcpStream)
      reads this, host, s0, stream
    {
      && host.dialed == old(host.dialed) + [s0.peer]
      && host.pending == LaterDials(old(host.pending))
      && match NextDial(old(host.pending))
         case Refused =>
           stream == s0 && host.connections == old(host.connections)
         case Accepted(script) =>
           && fresh(stream) && host.connections == old(host.connections) + 1
           && stream.Opened(s0.peer, old(host.connections), script)
    }

    /** The state after one request served on the stream `s0` the call
        started with: `s0` went through the exchange, and the client
        reconnected only if the exchange succeeded. */
    twostate predicate Served(host: Host, s0: TcpStream, request: seq<byte>)
      reads this, host, s0, stream
    {
      var e := Exchange(old(s0.State()), old(target), request);
      && s0.State() == e.wire
      && if e.result.Err? then
           && stream == s0 && host.pending == old(host.pending)
           && host.dialed == old(host.dialed) && host.connections == old(host.connections)
         else
           Reconnected(host, s0)
    }

    /** `send_data`: the frame of `data`, in two writes. */
    method SendData(data: seq<byte>) returns (r: Result<()>)
      modifies stream`sent, stream`writesLeft
      ensures Step(r, stream.State()) == Protocol.SendData(old(stream.State()), data)
    {
      var prefix := stream.Write(LengthPrefix(|data|));
      if prefix.Err? {
        return Err(prefix.error);
      }
      r := stream.Write(data);
    }

    /** `check_okay`: reads a four-byte status. */
    method CheckOkay() returns (r: Result<bool>)
      modifies stream`incoming
      ensures Step(r, stream.State()) == Protocol.CheckOkay(old(stream.State()))
    {
      var status := stream.ReadExact(4);
      if status.Err? {
        return Err(status.error);
      }
      return Ok(IsOkay(status.value));
    }

    /** `reset`: dials the current stream's peer again and, if that
        succeeds, replaces the stream. Lines 112-115 read the old stream's
        timeouts and set them on that same old stream, which changes
        nothing; the new stream starts without timeouts. */
    method Reset(host: Host) returns (r: Result<()>)
      modifies this`stream, host`pending, host`dialed, host`connections
      ensures Reconnected(host, old(stream))
      ensures r == if NextDial(old(host.pending)).Accepted? then Ok(()) else Err(Io(ConnectionRefused))
      ensures target == old(target)
    {
      var redialed := host.Dial(stream.peer);
      if redialed.Err? {
        return Err(redialed.error);
      }
      stream := redialed.value;
      return Ok(());
    }

    /** `transport`: binds the connection to `target`. */
    method Transport() returns (r: Result<()>)
      modifies stream`sent, stream`writesLeft, stream`incoming
      ensures Step(r, stream.State()) == Protocol.Transport(old(stream.State()), target)
    {
      var sent := SendData(Request(TransportService, target));
      if sent.Err? {
        return Err(sent.error);
      }
      var ok := CheckOkay();
      if ok.Err? {
        return Err(ok.error);
      }
      if !ok.value {
        return Err(Custom("transport fail"));
      }
      return Ok(());
    }

    /** The body that `shell` and `exec` share, with the service text as a
        parameter: transport, send the request, read the status and
        everything after it, reset. */
    method Service(host: Host, service: string, arg: string) returns (r: Result<RecvData>)
      modifies this`stream, stream`sent, stream`writesLeft, stream`incoming
      modifies host`pending, host`dialed, host`connections
      ensures Served(host, old(stream), Request(service, arg))
      ensures r == ServiceOutcome(old(stream.State()), old(target), Request(service, arg),
                                  NextDial(old(host.pending)).Accepted?)
      ensures target == old(target)
    {
      var bound := Transport();
      if bound.Err? {
        return Err(bound.error);
      }
      var sent := SendData(Request(service, arg));
      if sent.Err? {
        return Err(sent.error);
      }
      var isOk := CheckOkay();
      if isOk.Err? {
        return Err(isOk.error);
      }
      var data := stream.ReadToEnd();
      if data.Err? {
        return Err(data.error);
      }
      var reset := Reset(host);
      if reset.Err? {
        return Err(reset.error);
      }
      return Ok(RecvData(isOk.value, data.value));
    }

    /** `shell`: runs `cmd` through the device's `shell:` service. */
    method Shell(host: Host, cmd: string) returns (r: Result<RecvData>)
      modifies this`stream, stream`sent, stream`writesLeft, stream`incoming
      modifies host`pending, host`dialed, host`connections
      ensures Served(host, old(stream), Request(ShellService, cmd))
      ensures r == ServiceOutcome(old(stream.State()), old(target), Request(ShellService, cmd),
                                  NextDial(old(host.pending)).Accepted?)
      ensures target == old(target)
    {
      r := Service(host, ShellService, cmd);
    }

    /** `exec`: runs `cmd` through the device's `exec:` service, whose
        output is not altered by a terminal. */
    method Exec(host: Host, cmd: string) returns (r: Result<RecvData>)
      modifies this`stream, stream`sent, stream`writesLeft, stream`incoming
      modifies host`pending, host`dialed, host`connections
      ensures Served(host, old(stream), Request(ExecService, cmd))
      ensures r == ServiceOutcome(old(stream.State()), old(target), Request(ExecService, cmd),
                                  NextDial(old(host.pending)).Accepted?)
      ensures target == old(target)
    {
      r := Service(host, ExecService, cmd);
    }

    /** `connect`: asks the server, over a transport to the current target,
        to connect to the device at `t`. The status is read and ignored;
        only a completed exchange and reset make `t` the target. */
    method Connect(host: Host, t: string) returns (r: Result<()>)
      modifies this`stream, this`target, stream`sent, stream`writesLeft, stream`incoming
      modifies host`pending, host`dialed, host`connections
      ensures Served(host, old(stream), Request(ConnectService, t))
      ensures r == Discard(ServiceOutcome(old(stream.State()), old(target), Request(ConnectService, t),
                                          NextDial(old(host.pending)).Accepted?))
      ensures target == if r.Ok? then t else old(target)
    {
      var served := Service(host, ConnectService, t);
      if served.Err? {
        return Err(served.error);
      }
      target := t;
      return Ok(());
    }

    /** `start_daemon`: starts `bin_path start-server` and does not wait. */
    static method StartDaemon(host: Host, binPath: string) returns (r: Result<()>)
      modifies host`launched
      ensures host.launched == old(host.launched) + [(binPath, StartServer)]
      ensures r == if binPath in host.runnable then Ok(()) else Err(Io(NotFound))
    {
      r := host.Spawn(binPath, StartServer);
    }

    /** `screenshot`: `screencap -p` through `exec:`, then the reply decoded
        by `decode`, which stands for `image::load_from_memory` followed by
        `to_rgba8`. */
    method Screenshot(host: Host, decode: seq<byte> -> Option<RgbaImage>) returns (r: Result<RgbaImage>)
      modifies this`stream, stream`sent, stream`writesLeft, stream`incoming
      modifies host`pending, host`dialed, host`connections
      ensures Served(host, old(stream), Request(ExecService, Commands.Screencap))
      ensures r == Capture(ServiceOutcome(old(stream.State()), old(target), Request(ExecService, Commands.Screencap),
                                          NextDial(old(host.pending)).Accepted?), decode)
    {
      var recv := Exec(host, Commands.Screencap);
      r := Capture(recv, decode);
    }

    /** `click`: `input tap x y` through `shell:`. */
    method Click(host: Host, x: u32, y: u32) returns (r: Result<()>)
      modifies this`stream, stream`sent, stream`writesLeft, stream`incoming
      modifies host`pending, host`dialed, host`connections
      ensures Served(host, old(stream), Request(ShellService, Commands.Tap(x, y)))
      ensures r == Discard(ServiceOutcome(old(stream.State()), old(target), Request(ShellService, Commands.Tap(x, y)),
                                          NextDial(old(host.pending)).Accepted?))
    {
      var recv := Shell(host, Commands.Tap(x, y));
      r := Discard(recv);
    }

    /** `swipe`: `input swipe x1 y1 x2 y2` through `shell:`. */
    method Swipe(host: Host, x1: u32, y1: u32, x2: u32, y2: u32) returns (r: Result<()>)
      modifies this`stream, stream`sent, stream`writesLeft, stream`incoming
      modifies host`pending, host`dialed, host`connections
      ensures Served(host, old(stream), Request(ShellService, Commands.Swipe(x1, y1, x2, y2)))
      ensures r == Discard(ServiceOutcome(old(stream.State()), old(target),
                                          Request(ShellService, Commands.Swipe(x1, y1, x2, y2)),
                                          NextDial(old(host.pending)).Accepted?))
    {
      var recv := Shell(host, Commands.Swipe(x1, y1, x2, y2));
      r := Discard(recv);
    }

    /** `press_key`: `input keyevent keycode` through `shell:`. */
    method PressKey(host: Host, keycode: u32) returns (r: Result<()>)
      modifies this`stream, stream`sent, stream`writesLeft, stream`incoming
      modifies host`pending, host`dialed, host`connections
      ensures Served(host, old(stream), Request(ShellService, Commands.KeyEvent(keycode)))
      ensures r == Discard(ServiceOutcome(old(stream.State()), old(target), Request(ShellService, Commands.KeyEvent(keycode)),
                                          NextDial(old(host.pending)).Accepted?))
    {
      var recv := Shell(host, Commands.KeyEvent(keycode));
      r := Discard(recv);
    }

    /** `input_text`: `input text <text>` through `shell:`, the text not
        quoted. */
    method InputText(host: Host, text: string) returns (r: Result<()>)
      modifies this`stream, stream`sent, stream`writesLeft, stream`incoming
      modifies host`pending, host`dialed, host`connections
      ensures Served(host, old(stream), Request(ShellService, Commands.Text(text)))
      ensures r == Discard(ServiceOutcome(old(stream.State()), old(target), Request(ShellService, Commands.Text(text)),
                                          NextDial(old(host.pending)).Accepted?))
    {
      var recv := Shell(host, Commands.Text(text));
      r := Discard(recv);
    }
  }

  /** How the opening of `build` ends for a host whose dials will meet
      `pending`, where `canStart` says whether the server's executable can
      be started: the script of the server reached, or the error. */
  function OpenOutcome(pending: seq<DialOutcome>, canStart: bool): Result<PeerScript>
  {
    match NextDial(pending)
    case Accepted(script) => Ok(script)
    case Refused =>
      if !canStart then Err(Io(NotFound))
      else match NextDial(LaterDials(pending))
        case Accepted(script) => Ok(script)
        case Refused => Err(Io(ConnectionRefused))
  }

  /** The dials left once the opening is over: a second dial is made only
      after the server was started. */
  function AfterOpen(pending: seq<DialOutcome>, canStart: bool): seq<DialOutcome>
  {
    if NextDial(pending).Refused? && canStart then LaterDials(LaterDials(pending)) else LaterDials(pending)
  }

  /** The exchange that asks the server, on a connection just opened to a
      server following `script`, to connect to the device at `t`. */
  function BuildConnect(script: PeerScript, t: string): Step<RecvData>
  {
    Exchange(Initial(script), t, Request(ConnectService, t))
  }

  /** What `build` returns, with the `ADB` value left out: the opening's
      error, `InvalidInput` for a zero timeout, success when no target was
      set, and otherwise what `connect` to that target returns. */
  function BuildOutcome(pending: seq<DialOutcome>, canStart: bool, timeout: nat, target: Option<string>): Result<()>
  {
    var script := OpenOutcome(pending, canStart);
    if script.Err? then Err(script.error)
    else if timeout == 0 then Err(Io(InvalidInput))
    else if target.None? then Ok(())
    else Discard(ServiceOutcome(Initial(script.value), target.value, Request(ConnectService, target.value),
                                NextDial(AfterOpen(pending, canStart)).Accepted?))
  }

  /** The addresses the opening of `build` dials: `addr` once, or twice
      when the server had to be started. */
  function OpenDialLog(addr: string, pending: seq<DialOutcome>, canStart: bool): seq<string>
  {
    if NextDial(pending).Refused? && canStart then [addr, addr] else [addr]
  }

  /** Whether `build` gets as far as completing the `connect` exchange, after
      which its reset dials the server once more. */
  predicate BuildConnects(pending: seq<DialOutcome>, canStart: bool, timeout: nat, target: Option<string>)
  {
    var script := OpenOutcome(pending, canStart);
    script.Ok? && timeout != 0 && target.Some? && BuildConnect(script.value, target.value).result.Ok?
  }

  /** The addresses `build` dials: those of the opening, and `addr` once
      more for the reset after a completed `connect`. */
  function BuildDialLog(addr: string, pending: seq<DialOutcome>, canStart: bool, timeout: nat,
                        target: Option<string>): seq<string>
  {
    OpenDialLog(addr, pending, canStart) + if BuildConnects(pending, canStart, timeout, target) then [addr] else []
  }

  /** The dials left after `build`: those left by the opening, less the one
      the reset after a completed `connect` uses. */
  function BuildPending(pending: seq<DialOutcome>, canStart: bool, timeout: nat, target: Option<string>): seq<DialOutcome>
  {
    var rest := AfterOpen(pending, canStart);
    if BuildConnects(pending, canStart, timeout, target) then LaterDials(rest) else rest
  }

  /** How many connections `build` opens: the opening's, and the reset's when
      it finds the server again. */
  function BuildConnections(pending: seq<DialOutcome>, canStart: bool, timeout: nat, target: Option<string>): nat
  {
    (if OpenOutcome(pending, canStart).Ok? then 1 else 0)
      + if BuildConnects(pending, canStart, timeout, target) && NextDial(AfterOpen(pending, canStart)).Accepted?
        then 1 else 0
  }

  /** `build` read stage by stage: when the opening fails, the timeout is
      refused, or no target was set, only the opening touched the host;
      otherwise the `connect` exchange on the opened stream decides the rest. */
  lemma BuildStages(addr: string, pending: seq<DialOutcome>, canStart: bool, timeout: nat, target: Option<string>)
    ensures var script := OpenOutcome(pending, canStart);
            script.Err? || timeout == 0 || target.None? ==>
              && BuildOutcome(pending, canStart, timeout, target)
                 == (if script.Err? then Err(script.error) else if timeout == 0 then Err(Io(InvalidInput)) else Ok(()))
              && BuildDialLog(addr, pending, canStart, timeout, target) == OpenDialLog(addr, pending, canStart)
              && BuildPending(pending, canStart, timeout, target) == AfterOpen(pending, canStart)
              && BuildConnections(pending, canStart, timeout, target) == if script.Ok? then 1 else 0
    ensures var script := OpenOutcome(pending, canStart);
            script.Ok? && timeout != 0 && target.Some? ==>
              var ok := BuildConnects(pending, canStart, timeout, target);
              var rest := AfterOpen(pending, canStart);
              && (ok <==> BuildConnect(script.value, target.value).result.Ok?)
              && BuildOutcome(pending, canStart, timeout, target)
                 == Discard(ServiceOutcome(Initial(script.value), target.value, Request(ConnectService, target.value),
                                           NextDial(rest).Accepted?))
              && BuildDialLog(addr, pending, canStart, timeout, target)
                 == OpenDialLog(addr, pending, canStart) + (if ok then [addr] else [])
              && BuildPending(pending, canStart, timeout, target) == (if ok then LaterDials(rest) else rest)
              && BuildConnections(pending, canStart, timeout, target)
                 == 1 + if ok && NextDial(rest).Accepted? then 1 else 0
  {
  }

  /** `AdbBuilder`: optional settings, each replaced by a default in `build`.
      The timeout is a duration in nanoseconds. */
  class AdbBuilder {
    var addr: Option<string>
    var timeout: Option<nat>
    var binPath: Option<string>
    var target: Option<string>

    /** `AdbBuilder::new`: nothing set. */
    constructor ()
      ensures addr == None && timeout == None && binPath == None && target == None
    {
      addr := None;
      timeout := None;
      binPath := None;
      target := None;
    }

    method WithAddr(a: string)
      modifies this`addr
      ensures addr == Some(a)
    {
      addr := Some(a);
    }

    method WithTimeout(t: nat)
      modifies this`timeout
      ensures timeout == Some(t)
    {
      timeout := Some(t);
    }

    method WithBinPath(b: string)
      modifies this`binPath
      ensures binPath == Some(b)
    {
      binPath := Some(b);
    }

    method WithTarget(t: string)
      modifies this`target
      ensures target == Some(t)
    {
      target := Some(t);
    }

    /** The first connection of `build`: dial `addr`; if nobody answers,
        start the server with `binPath start-server` and dial once more. */
    static method Open(host: Host, addr: string, binPath: string) returns (r: Result<TcpStream>)
      modifies host`pending, host`dialed, host`connections, host`launched
      ensures var first := NextDial(old(host.pending));
              var second := NextDial(LaterDials(old(host.pending)));
              match first
              case Accepted(script) =>
                && host.dialed == old(host.dialed) + [addr] && host.launched == old(host.launched)
                && r.Ok? && fresh(r.value) && r.value.Opened(addr, old(host.connections), script)
              case Refused =>
                && host.launched == old(host.launched) + [(binPath, StartServer)]
                && if binPath !in host.runnable then
                     r == Err(Io(NotFound)) && host.dialed == old(host.dialed) + [addr]
                   else
                     && host.dialed == old(host.dialed) + [addr, addr]
                     && match second
                        case Refused => r == Err(Io(ConnectionRefused))
                        case Accepted(script) =>
                          r.Ok? && fresh(r.value) && r.value.Opened(addr, old(host.connections), script)
      ensures host.pending == AfterOpen(old(host.pending), binPath in host.runnable)
      ensures host.connections == if r.Ok? then old(host.connections) + 1 else old(host.connections)
    {
      r := host.Dial(addr);
      if r.Err? {
        var started := Adb.StartDaemon(host, binPath);
        if started.Err? {
          return Err(started.error);
        }
        r := host.Dial(addr);
      }
    }

    /** The opening of `build` followed by the two timeouts: `Open`, then
        `set_read_timeout` and `set_write_timeout` with `timeout`. The ghost
        `initial` is the stream the opening produced, if it produced one. */
    static method OpenTimed(host: Host, addr: string, binPath: string, timeout: nat)
      returns (r: Result<TcpStream>, ghost initial: Option<TcpStream>)
      modifies host`pending, host`dialed, host`connections, host`launched
      ensures var script := OpenOutcome(old(host.pending), binPath in host.runnable);
              && (initial.Some? <==> script.Ok?)
              && (initial.Some? ==>
                    && fresh(initial.value) && initial.value.peer == addr
                    && initial.value.serial == old(host.connections)
                    && initial.value.State() == Initial(script.value)
                    && initial.value.readTimeout == (if timeout == 0 then None else Some(timeout))
                    && initial.value.writeTimeout == (if timeout == 0 then None else Some(timeout)))
              && (r.Ok? <==> script.Ok? && timeout != 0)
              && (r.Ok? ==> r.value == initial.value)
              && (r.Err? ==> r.error == if script.Err? then script.error else Io(InvalidInput))
      ensures && host.pending == AfterOpen(old(host.pending), binPath in host.runnable)
              && host.connections == (if initial.Some? then old(host.connections) + 1 else old(host.connections))
              && host.dialed == old(host.dialed) + OpenDialLog(addr, old(host.pending), binPath in host.runnable)
              && host.launched == if NextDial(old(host.pending)).Accepted? then old(host.launched)
                                  else old(host.launched) + [(binPath, StartServer)]
    {
      initial := None;
      r := Open(host, addr, binPath);
      if r.Err? {
        return;
      }
      var stream := r.value;
      initial := Some(stream);
      var timed := stream.SetReadTimeout(Some(timeout));
      if timed.Ok? {
        // The same duration was just accepted for reads, so this cannot fail.
        timed := stream.SetWriteTimeout(Some(timeout));
      }
      if timed.Err? {
        r := Err(timed.error);
      }
    }

    /** The end of `build` when a target was set: a client on the stream
        just opened to a server following `script`, with that target,
        runs `connect` to it; an error of `connect` is the result. */
    static method ConnectOpened(host: Host, stream: TcpStream, ghost script: PeerScript, t: string)
      returns (r: Result<Adb>, ghost completed: bool)
      requires stream.State() == Initial(script)
      modifies stream`sent, stream`writesLeft, stream`incoming
      modifies host`pending, host`dialed, host`connections
      ensures Discard(r) == Discard(ServiceOutcome(Initial(script), t, Request(ConnectService, t),
                                                   NextDial(old(host.pending)).Accepted?))
      ensures stream.State() == BuildConnect(script, t).wire
      ensures completed == BuildConnect(script, t).result.Ok?
      ensures host.dialed == old(host.dialed) + if completed then [stream.peer] else []
      ensures host.pending == if completed then LaterDials(old(host.pending)) else old(host.pending)
      ensures host.connections
           == old(host.connections) + if completed && NextDial(old(host.pending)).Accepted? then 1 else 0
      ensures r.Ok? ==>
                && fresh(r.value) && r.value.target == t && fresh(r.value.stream)
                && r.value.stream.Opened(stream.peer, old(host.connections), NextDial(old(host.pending)).peer)
    {
      completed := BuildConnect(script, t).result.Ok?;
      var adb := new Adb(stream, t);
      var connected := adb.Connect(host, t);
      if connected.Err? {
        return Err(connected.error), completed;
      }
      return Ok(adb), completed;
    }

    /** `build`: the defaults fill what was not set; the stream is opened,
        given the timeout for reads and writes, and, only when a target was
        set explicitly, the server is asked to connect to it. The ghost
        `initial` is the stream the opening produced, if it produced one. */
    method Build(host: Host, os: Os) returns (r: Result<Adb>, ghost initial: Option<TcpStream>)
      modifies host`pending, host`dialed, host`connections, host`launched
      ensures var canStart := binPath.GetOr(DefaultBinPath(os)) in host.runnable;
              Discard(r) == BuildOutcome(old(host.pending), canStart, timeout.GetOr(DefaultTimeout), target)
      ensures var canStart := binPath.GetOr(DefaultBinPath(os)) in host.runnable;
              host.dialed == old(host.dialed) + BuildDialLog(addr.GetOr(DefaultAddr), old(host.pending), canStart,
                                                             timeout.GetOr(DefaultTimeout), target)
      ensures var canStart := binPath.GetOr(DefaultBinPath(os)) in host.runnable;
              && host.pending == BuildPending(old(host.pending), canStart, timeout.GetOr(DefaultTimeout), target)
              && host.connections
                 == old(host.connections) + BuildConnections(old(host.pending), canStart, timeout.GetOr(DefaultTimeout), target)
      ensures host.launched == if NextDial(old(host.pending)).Accepted? then old(host.launched)
                               else old(host.launched) + [(binPath.GetOr(DefaultBinPath(os)), StartServer)]
      ensures var a, t := addr.GetOr(DefaultAddr), timeout.GetOr(DefaultTimeout);
              var canStart := binPath.GetOr(DefaultBinPath(os)) in host.runnable;
              var script := OpenOutcome(old(host.pending), canStart);
              && (initial.Some? <==> script.Ok?)
              && (initial.Some? ==>
                    && fresh(initial.value) && initial.value.peer == a
                    && initial.value.serial == old(host.connections)
                    && initial.value.readTimeout == (if t == 0 then None else Some(t))
                    && initial.value.writeTimeout == (if t == 0 then None else Some(t))
                    && initial.value.State() == if t == 0 || target.None? then Initial(script.value)
                                                else BuildConnect(script.value, target.value).wire)
      ensures r.Ok? ==> fresh(r.value) && r.value.target == target.GetOr(DefaultTarget) && initial.Some?
      ensures r.Ok? && target.None? ==> r.value.stream == initial.value
      ensures r.Ok? && target.Some? ==>
                var canStart := binPath.GetOr(DefaultBinPath(os)) in host.runnable;
                && fresh(r.value.stream)
                && r.value.stream.Opened(addr.GetOr(DefaultAddr), old(host.connections) + 1,
                                         NextDial(AfterOpen(old(host.pending), canStart)).peer)
    {
      var a := addr.GetOr(DefaultAddr);
      var bin := binPath.GetOr(DefaultBinPath(os));
      var t := timeout.GetOr(DefaultTimeout);
      ghost var pending, canStart := host.pending, bin in host.runnable;
      BuildStages(a, pending, canStart, t, target);
      var dialed;
      dialed, initial := OpenTimed(host, a, bin, t);
      if dialed.Err? {
        return Err(dialed.error), initial;
      }
      if target.None? {
        var adb := new Adb(dialed.value, DefaultTarget);
        return Ok(adb), initial;
      }
      ghost var completed;
      r, completed := ConnectOpened(host, dialed.value, OpenOutcome(pending, canStart).value, target.value);
    }
  }
}
