/** The parts of the standard library the client talks to: a TCP stream
    (`std::net::TcpStream`), and the machine it runs on, which dials
    addresses and starts programs (`TcpStream::connect`,
    `std::process::Command::spawn`). What the network and the operating
    system will do is not computed but given up front, as a script the
    methods consume in order. */
module Net {
  import opened Errors
  import opened Protocol

  /** What the far end of one connection will do: the bytes it sends, how
      many writes it takes before the pipe breaks, and whether it ends its
      reply by closing the stream (end of file) or by resetting it. */
  datatype PeerScript = PeerScript(replies: seq<byte>, acceptsWrites: nat, orderlyClose: bool)

  /** What one `TcpStream::connect` meets: nobody listening, or a server. */
  datatype DialOutcome = Refused | Accepted(peer: PeerScript)

  /** The outcome of the next dial; once the script is used up nobody listens. */
  function NextDial(pending: seq<DialOutcome>): DialOutcome
  {
    if pending == [] then Refused else pending[0]
  }

  /** The script left after one dial. */
  function LaterDials(pending: seq<DialOutcome>): seq<DialOutcome>
  {
    if pending == [] then [] else pending[1..]
  }

  /** The connection to a server following `script`, before anything is
      sent on it. */
  function Initial(script: PeerScript): Wire
  {
    Wire([], script.replies, script.acceptsWrites, script.orderlyClose)
  }

  /** One open TCP connection to the server. The timeouts are kept but have
      no effect on the model's reads, which never block. */
  class TcpStream {
    /** `peer_addr`: the address this stream was dialed at. */
    const peer: string
    /** Which connection of the host this is, counting from zero. */
    const serial: nat
    const orderlyClose: bool
    var sent: seq<byte>
    var incoming: seq<byte>
    var writesLeft: nat
    var readTimeout: Option<nat>
    var writeTimeout: Option<nat>

    /** The connection as the protocol functions see it. */
    function State(): Wire
      reads this
    {
      Wire(sent, incoming, writesLeft, orderlyClose)
    }

    /** A stream just opened to `peer` whose server follows `script`:
        nothing sent yet and no timeouts set. */
    predicate Opened(peer: string, serial: nat, script: PeerScript)
      reads this
    {
      && this.peer == peer && this.serial == serial
      && State() == Initial(script)
      && readTimeout == None && writeTimeout == None
    }

    constructor (peer: string, serial: nat, script: PeerScript)
      ensures Opened(peer, serial, script)
    {
      this.peer := peer;
      this.serial := serial;
      this.orderlyClose := script.orderlyClose;
      sent := [];
      incoming := script.replies;
      writesLeft := script.acceptsWrites;
      readTimeout := None;
      writeTimeout := None;
    }

    /** `Write::write`, taken as writing all of `data` or failing. */
    method Write(data: seq<byte>) returns (r: Result<()>)
      modifies this`sent, this`writesLeft
      ensures Step(r, State()) == Protocol.Write(old(State()), data)
    {
      if writesLeft == 0 {
        return Err(Io(BrokenPipe));
      }
      sent := sent + data;
      writesLeft := writesLeft - 1;
      return Ok(());
    }

    /** `Read::read_exact` of `n` bytes. */
    method ReadExact(n: nat) returns (r: Result<seq<byte>>)
      modifies this`incoming
      ensures Step(r, State()) == Protocol.ReadExact(old(State()), n)
    {
      if n <= |incoming| {
        r := Ok(incoming[..n]);
        incoming := incoming[n..];
      } else {
        r := Err(EndOfStream(State()));
        incoming := [];
      }
    }

    /** `Read::read_to_end`. */
    method ReadToEnd() returns (r: Result<seq<byte>>)
      modifies this`incoming
      ensures Step(r, State()) == Protocol.ReadToEnd(old(State()))
    {
      r := if orderlyClose then Ok(incoming) else Err(Io(ConnectionReset));
      incoming := [];
    }

    /** `set_read_timeout`: a zero duration is refused with `InvalidInput`
        and leaves the setting as it was. */
    method SetReadTimeout(t: Option<nat>) returns (r: Result<()>)
      modifies this`readTimeout
      ensures r.Err? <==> t == Some(0)
      ensures r.Err? ==> r.error == Io(InvalidInput) && readTimeout == old(readTimeout)
      ensures r.Ok? ==> readTimeout == t
    {
      if t == Some(0) {
        return Err(Io(InvalidInput));
      }
      readTimeout := t;
      return Ok(());
    }

    /** `set_write_timeout`, with the same rule as `set_read_timeout`. */
    method SetWriteTimeout(t: Option<nat>) returns (r: Result<()>)
      modifies this`writeTimeout
      ensures r.Err? <==> t == Some(0)
      ensures r.Err? ==> r.error == Io(InvalidInput) && writeTimeout == old(writeTimeout)
      ensures r.Ok? ==> writeTimeout == t
    {
      if t == Some(0) {
        return Err(Io(InvalidInput));
      }
      writeTimeout := t;
      return Ok(());
    }
  }

  /** The machine the client runs on: the dials it will meet, in order, the
      programs that can be started, and a log of what was dialed and what
      was started. */
  class Host {
    var pending: seq<DialOutcome>
    var dialed: seq<string>
    var connections: nat
    var launched: seq<(string, string)>
    const runnable: set<string>

    constructor (pending: seq<DialOutcome>, runnable: set<string>)
      ensures this.pending == pending && this.runnable == runnable
      ensures dialed == [] && connections == 0 && launched == []
    {
      this.pending := pending;
      this.runnable := runnable;
      dialed := [];
      connections := 0;
      launched := [];
    }

    /** `TcpStream::connect(addr)`: consumes one dial outcome; a refusal is
        `ConnectionRefused`, an accepted dial a new stream. */
    method Dial(addr: string) returns (r: Result<TcpStream>)
      modifies this`pending, this`dialed, this`connections
      ensures dialed == old(dialed) + [addr] && pending == LaterDials(old(pending))
      ensures NextDial(old(pending)).Refused? ==> r == Err(Io(ConnectionRefused)) && connections == old(connections)
      ensures NextDial(old(pending)).Accepted? ==>
                && r.Ok? && fresh(r.value) && connections == old(connections) + 1
                && r.value.Opened(addr, old(connections), NextDial(old(pending)).peer)
    {
      var next := NextDial(pending);
      pending := LaterDials(pending);
      dialed := dialed + [addr];
      match next
      case Refused =>
        r := Err(Io(ConnectionRefused));
      case Accepted(script) =>
        var s := new TcpStream(addr, connections, script);
        connections := connections + 1;
        r := Ok(s);
    }

    /** `Command::new(program).arg(arg).spawn()`: the attempt is logged; a
        program that cannot be found is `NotFound`. The child is not waited
        for. */
    method Spawn(program: string, arg: string) returns (r: Result<()>)
      modifies this`launched
      ensures launched == old(launched) + [(program, arg)]
      ensures r == if program in runnable then Ok(()) else Err(Io(NotFound))
    {
      launched := launched + [(program, arg)];
      r := if program in runnable then Ok(()) else Err(Io(NotFound));
    }
  }
}
