# ADB client model

A Dafny model of the Android Debug Bridge client in
`autogui_core/src/controller/adb.rs`. The client talks to a local ADB server over one
TCP stream using the host "smart socket" protocol:

- every request is a frame: four upper-case hexadecimal digits giving the payload length
  as a big-endian `u16`, then the payload;
- every answer starts with a four-byte status, and only `OKAY` acknowledges.

A device command binds the connection to a target (`host:transport:<serial>`) and then
sends `shell:<cmd>` or `exec:<cmd>`. It reads the status and everything up to the end of
the stream, then dials the server again (`reset`), because a connection that has served
a device command cannot carry another request. The builder fills in defaults. If nothing
listens, it starts the server once (`adb start-server`) and dials once more. The device
actions (`click`, `swipe`, `press_key`, `input_text`, `screenshot`) are shell or exec
command lines.

The project is layered:

- `errors.dfy`: bytes, `u32`, `Option`, `Result` and the error kinds of `AGError`.
- `utf8.dfy`: `str::as_bytes` as UTF-8 encoding. `String::from_utf8_lossy` as the
  standard library's decoder, where each malformed prefix becomes one U+FFFD.
- `decimal.dfy`: the `{}` format of an unsigned integer and the number it reads back as.
- `commands.dfy`: the command lines of the device actions and the fields they split
  into at single spaces. This split is simpler than a shell's: it keeps empty fields
  and treats tabs, newlines and quotes as ordinary characters.
- `framing.dfy`: the length prefix, a frame, the server-side reading of a frame, and the
  `OKAY` status.
- `protocol.dfy`: each client operation as a pure step function over a `Wire`. A `Wire`
  is one connection seen from the client: the bytes written, the bytes the server will
  still send, how many writes it accepts, and whether it closes in order or resets at
  the end.
- `net.dfy`: `TcpStream` and the `Host` that dials and spawns. Both are classes.
  `TcpStream.Write`, `ReadExact` and `ReadToEnd` are proved equal to the step functions
  of the same names. The timeout setters, `Host.Dial` and `Host.Spawn` have no step
  function and state their effect in their own contracts. What the network will do is a
  script given in advance: the outcome of each dial in order, and each server's replies.
- `client.dfy`: the `Adb` class (`stream`, `target`) and `AdbBuilder`. Each `Adb` method
  that talks to the server is proved to leave the old stream exactly as the protocol
  functions say. It reconnects only after a complete exchange, and it returns the
  result those functions give. `AdbBuilder.Build` is proved against pure functions of
  the dial script that give its result and its effect on the host.

On success, `shell`, `exec` and `connect` leave `stream` as a newly allocated
connection to the same peer (`Adb.Reconnected`). So the command after a successful
command never shares its connection. A failed command keeps the stream it used.

## Model

| member | source | states |
|---|---|---|
| `Framing.HexDigit` | autogui_core/src/controller/adb.rs:83 | each nibble is written as an upper-case hexadecimal digit |
| `Framing.LengthPrefix` | autogui_core/src/controller/adb.rs:82-83 | the prefix is exactly four bytes, all upper-case hexadecimal ASCII digits |
| `Framing.DecodeLengthPrefix` | autogui_core/src/controller/adb.rs:99-101 | reading a prefix gives a value below 65536 exactly when all four bytes are hex digits of either case; otherwise the error is `Decode` |
| `Framing.LengthPrefixRoundTrip` | autogui_core/src/controller/adb.rs:82-83 | decoding the prefix gives back the length modulo 65536, so the length itself when it is at most 65535 |
| `Framing.LengthPrefixWraps` | autogui_core/src/controller/adb.rs:82 | the `as u16` cast is silent: lengths that differ by 65536 get the same prefix |
| `Framing.LengthPrefixInjective` | autogui_core/src/controller/adb.rs:82-83 | two lengths below 65536 never share a prefix |
| `Framing.Frame` | autogui_core/src/controller/adb.rs:81-87 | a frame is four prefix bytes followed by the payload unchanged |
| `Framing.ParseFrame` | autogui_core/src/controller/adb.rs:99-106 | reading a frame succeeds exactly when there are four bytes of valid length and at least that many bytes after them; the payload is then exactly as long as the prefix announces, below 65536 bytes, and the input is prefix, payload and the rest |
| `Framing.ParseFrameRoundTrip` | autogui_core/src/controller/adb.rs:81-87 | the server reads back a payload below 65536 bytes exactly and leaves whatever follows for the next read |
| `Framing.ParseFrameTruncated` | autogui_core/src/controller/adb.rs:82 | a payload of 65536 bytes or more is not rejected but announced with a wrong length, so the server never reads it back as sent |
| `Framing.HexValue` | autogui_core/src/controller/adb.rs:100 | exactly the hexadecimal digits of either case have a value; it is below 16; an upper-case digit is the one written for its value, and a lower-case letter means the same as its upper-case form |
| `Framing.IsOkay` | autogui_core/src/controller/adb.rs:92 | a status acknowledges exactly when it has four bytes and each is the byte of `OKAY` in that place |
| `Framing.StatusWords` | autogui_core/src/controller/adb.rs:92 | the status constants are the ASCII bytes of `OKAY` and `FAIL`; `OKAY` is accepted and `FAIL` is not |
| `Protocol.Write` | autogui_core/src/controller/adb.rs:84-85 | a write succeeds exactly while the connection still accepts writes, and then appends all its bytes and uses one write; otherwise it is `BrokenPipe` and changes nothing; it never reads |
| `Protocol.ReadExact` | autogui_core/src/controller/adb.rs:91 | reading `n` bytes succeeds exactly when `n` bytes are left, and then returns the first `n` and leaves the rest; otherwise it is the end-of-stream error and everything left is consumed; it never writes |
| `Protocol.ReadToEnd` | autogui_core/src/controller/adb.rs:151 | reading to the end returns everything left exactly when the server closes in order, otherwise `ConnectionReset`; either way nothing is left to read |
| `Protocol.SendData` | autogui_core/src/controller/adb.rs:81-87 | `send_data` succeeds exactly when two writes are accepted, and then appends the frame; after one accepted write only the prefix is on the wire; the error is `BrokenPipe`; nothing is read |
| `Protocol.CheckOkay` | autogui_core/src/controller/adb.rs:89-93 | `check_okay` consumes exactly four bytes and returns whether they are `OKAY`; with fewer than four bytes left it is an I/O error; it never writes |
| `Protocol.Transport` | autogui_core/src/controller/adb.rs:133-142 | `transport` sends one frame `host:transport:<target>`; its result is `BrokenPipe`, end of stream, "transport fail" for any status but `OKAY`, or success, and on success it has consumed exactly the status |
| `Protocol.Serve` | autogui_core/src/controller/adb.rs:145-153 | after the transport, one frame holding the request; the result's `isOk` is the status read and its data is every byte after it; a non-`OKAY` status is not an error; a reset connection is `ConnectionReset` |
| `Protocol.Exchange` | autogui_core/src/controller/adb.rs:143-151 | on success the wire holds exactly the transport frame, then the request frame, the stream is drained, and four writes were used |
| `Protocol.ExchangeOutcome` | autogui_core/src/controller/adb.rs:143-151 | the result of a whole exchange, read off the connection's initial state: the first step that cannot go through decides the error, else the status and data after the transport's `OKAY` |
| `Protocol.ServerReadsTwoFrames` | autogui_core/src/controller/adb.rs:133-151 | what the server receives on a successful exchange parses as exactly two frames, the transport request and then the service request, with nothing after them |
| `Protocol.RequestBytes` | autogui_core/src/controller/adb.rs:145-147 | a request payload is the service's bytes followed by the argument's bytes |
| `Protocol.Request` | autogui_core/src/controller/adb.rs:134-136 | the server decodes a request payload back to the exact text of the service followed by the argument |
| `Protocol.ShellIsNotExec` | autogui_core/src/controller/adb.rs:146-159 | a `shell:` request and an `exec:` request never have the same bytes, whatever the commands |
| `Protocol.ServiceOutcome` | autogui_core/src/controller/adb.rs:143-167 | `shell`/`exec` succeed exactly when the exchange succeeds and the reset finds the server again; then the result is the exchange's; an exchange error is returned unchanged |
| `Protocol.ServiceReply` | autogui_core/src/controller/adb.rs:149-153 | a server that acknowledges the transport and answers with a status and data yields exactly that status as `isOk` and that data, `OKAY` or not, after the two frames were sent |
| `Protocol.TransportRejected` | autogui_core/src/controller/adb.rs:138-140 | an unacknowledged transport is the error "transport fail" and the request itself is never sent |
| `Protocol.ServedButNotReset` | autogui_core/src/controller/adb.rs:152 | when the reset cannot dial, a command that was sent and answered is still reported as `ConnectionRefused` |
| `Utf8.Encode` | autogui_core/src/controller/adb.rs:136 | a string's bytes are between one and four per character |
| `Utf8.EncodeAppend` | autogui_core/src/controller/adb.rs:145-147 | extending the buffer with the service bytes and then the argument bytes gives the encoding of the concatenated text |
| `Utf8.DecodeLossy` | autogui_core/src/controller/adb.rs:194 | lossy decoding never yields more characters than there were bytes |
| `Utf8.DecodeEncode` | autogui_core/src/controller/adb.rs:194 | decoding the bytes of any string gives the string back |
| `Utf8.DecodeAscii` | autogui_core/src/controller/adb.rs:194 | bytes below 0x80 decode one for one into the characters with those codes |
| `Decimal.Show` | autogui_core/src/controller/adb.rs:201 | an integer's numeral is non-empty, all digits, starts with `0` only for zero, and has one digit exactly below ten |
| `Decimal.ValueShow` | autogui_core/src/controller/adb.rs:201 | the numeral read back as a number is the number |
| `Decimal.ShowInjective` | autogui_core/src/controller/adb.rs:206 | different numbers never share a numeral |
| `Commands.Tap` | autogui_core/src/controller/adb.rs:201 | the tap command line starts with `input tap ` and holds only digits and spaces after it |
| `Commands.Swipe` | autogui_core/src/controller/adb.rs:206 | the swipe command line starts with `input swipe ` and holds only digits and spaces after it |
| `Commands.KeyEvent` | autogui_core/src/controller/adb.rs:211 | the key command line starts with `input keyevent ` and holds only digits after it |
| `Commands.Text` | autogui_core/src/controller/adb.rs:220 | the text follows `input text ` unchanged: nothing is quoted or escaped |
| `Commands.ScreencapWords` | autogui_core/src/controller/adb.rs:192 | the capture command is the two fields `screencap` and `-p` |
| `Commands.WordsJoin` | autogui_core/src/controller/adb.rs:201 | joining two texts with one space joins their word lists |
| `Commands.TapWords` | autogui_core/src/controller/adb.rs:200-203 | cut at single spaces, `input tap x y` is exactly the fields `input`, `tap` and two numerals, which read back as `x` and `y` |
| `Commands.SwipeWords` | autogui_core/src/controller/adb.rs:205-208 | cut at single spaces, `input swipe x1 y1 x2 y2` is exactly six fields, whose numerals read back as the two points in order |
| `Commands.KeyEventWords` | autogui_core/src/controller/adb.rs:210-213 | cut at single spaces, `input keyevent k` is exactly three fields, the last reading back as `k` |
| `Commands.TextWords` | autogui_core/src/controller/adb.rs:219-222 | cut at single spaces, `input text s` is `input`, `text` and then the fields of `s` as they are |
| `Commands.TextNotEscaped` | autogui_core/src/controller/adb.rs:219-222 | since nothing is quoted, a text that contains a space makes the command line more than three fields when cut at single spaces |
| `Net.TcpStream.Write` | autogui_core/src/controller/adb.rs:84-85 | a write appends all its bytes or fails with `BrokenPipe`, as `Protocol.Write` says |
| `Net.TcpStream.ReadExact` | autogui_core/src/controller/adb.rs:91 | reading `n` bytes takes them from the front of what the server sends, or fails at the end of the stream |
| `Net.TcpStream.ReadToEnd` | autogui_core/src/controller/adb.rs:151 | reading to the end takes everything left, or fails if the connection is reset |
| `Net.TcpStream.SetReadTimeout` | autogui_core/src/controller/adb.rs:61 | a zero timeout is refused with `InvalidInput` and nothing changes; any other value is stored |
| `Net.TcpStream.SetWriteTimeout` | autogui_core/src/controller/adb.rs:62 | the same rule for the write timeout |
| `Net.Host.Dial` | autogui_core/src/controller/adb.rs:54 | a dial consumes one scripted outcome and is logged: a refusal is `ConnectionRefused`, an accepted dial a fresh stream with the next serial and no timeouts |
| `Net.Host.Spawn` | autogui_core/src/controller/adb.rs:181 | the start is logged, and fails with `NotFound` for a program that cannot be run |
| `Client.Discard` | autogui_core/src/controller/adb.rs:200-203 | a device action succeeds exactly when its shell call does and keeps that call's error |
| `Client.Capture` | autogui_core/src/controller/adb.rs:191-198 | a screenshot is an image exactly when the exec succeeded with `OKAY` and the bytes decode; a non-`OKAY` reply is the error carrying the reply as lossy UTF-8 text; undecodable bytes are `Image` |
| `Client.CaptureRefusalText` | autogui_core/src/controller/adb.rs:193-195 | a refusal that the device explains in text reaches the caller as that very text |
| `Client.CaptureRefusalAscii` | autogui_core/src/controller/adb.rs:193-195 | a refusal in plain ASCII reaches the caller as a message with one character per byte, each with that byte's code |
| `Client.ConnectIgnoresStatus` | autogui_core/src/controller/adb.rs:169-177 | `connect` succeeds, and so sets the target, whenever the server answers, even with a status other than `OKAY` |
| `Client.ClickIgnoresStatus` | autogui_core/src/controller/adb.rs:200-203 | a tap is reported as done whenever the shell service answers, even with a status other than `OKAY` |
| `Client.Adb.SendData` | autogui_core/src/controller/adb.rs:81-87 | the stream ends in the state and result `Protocol.SendData` gives |
| `Client.Adb.CheckOkay` | autogui_core/src/controller/adb.rs:89-93 | the stream ends in the state and result `Protocol.CheckOkay` gives |
| `Client.Adb.Reset` | autogui_core/src/controller/adb.rs:110-118 | the old stream's peer is dialed once; on success `stream` is a fresh connection to it, otherwise the stream is kept and the error is `ConnectionRefused`; the target is unchanged |
| `Client.Adb.Transport` | autogui_core/src/controller/adb.rs:133-142 | the stream ends in the state and result `Protocol.Transport` gives for the current target; the target is untouched |
| `Client.Adb.Service` | autogui_core/src/controller/adb.rs:143-154 | the old stream goes through `Protocol.Exchange`; the client reconnects only if that succeeded; the result is `Protocol.ServiceOutcome` |
| `Client.Adb.Shell` | autogui_core/src/controller/adb.rs:143-154 | as `Service` for `shell:<cmd>`, with the target unchanged |
| `Client.Adb.Exec` | autogui_core/src/controller/adb.rs:156-167 | as `Service` for `exec:<cmd>`, with the target unchanged |
| `Client.Adb.Connect` | autogui_core/src/controller/adb.rs:169-178 | `host:connect:<t>` served over a transport to the old target; the status is ignored; `target` becomes `t` exactly when the call succeeds, otherwise it keeps its old value |
| `Client.Adb.StartDaemon` | autogui_core/src/controller/adb.rs:180-183 | one start of `<bin_path> start-server` is logged, and it fails only if the program cannot be run |
| `Client.Adb.Screenshot` | autogui_core/src/controller/adb.rs:191-198 | `screencap -p` is served through `exec:` and its result goes through `Capture` |
| `Client.Adb.Click` | autogui_core/src/controller/adb.rs:200-203 | `input tap x y` is served through `shell:` and only its error is kept |
| `Client.Adb.Swipe` | autogui_core/src/controller/adb.rs:205-208 | `input swipe x1 y1 x2 y2` is served through `shell:` and only its error is kept |
| `Client.Adb.PressKey` | autogui_core/src/controller/adb.rs:210-213 | `input keyevent k` is served through `shell:` and only its error is kept |
| `Client.Adb.InputText` | autogui_core/src/controller/adb.rs:219-222 | `input text <text>` is served through `shell:` and only its error is kept |
| `Client.AdbBuilder.constructor` | autogui_core/src/controller/adb.rs:22-24 | a new builder has nothing set |
| `Client.AdbBuilder.WithAddr` | autogui_core/src/controller/adb.rs:26-29 | sets the address and nothing else |
| `Client.AdbBuilder.WithTimeout` | autogui_core/src/controller/adb.rs:31-34 | sets the timeout and nothing else |
| `Client.AdbBuilder.WithBinPath` | autogui_core/src/controller/adb.rs:36-39 | sets the executable path and nothing else |
| `Client.AdbBuilder.WithTarget` | autogui_core/src/controller/adb.rs:41-44 | sets the target and nothing else |
| `Client.AdbBuilder.Open` | autogui_core/src/controller/adb.rs:54-60 | if the first dial is accepted, nothing is started; otherwise the daemon is started exactly once, and only if that start succeeds is the address dialed exactly once more; a second refusal is the error; the stream is fresh with nothing sent, and the dials used are gone from the script |
| `Client.AdbBuilder.OpenTimed` | autogui_core/src/controller/adb.rs:54-62 | the opening ends as `OpenOutcome` says; an opened stream gets both timeouts unless the timeout is zero, which is the error `InvalidInput`; the dial log, the start log and the remaining dials are exact |
| `Client.AdbBuilder.ConnectOpened` | autogui_core/src/controller/adb.rs:63-69 | on a just-opened stream, `connect` to the explicit target is exactly the exchange `BuildConnect`; its error is the result; the dial log, the dials left and the connection count change exactly by the reset, which happens only after a completed exchange; on success the client has that target and a new stream to the same peer |
| `Client.AdbBuilder.Build` | autogui_core/src/controller/adb.rs:46-71 | the defaults `127.0.0.1:5037`, 3 s, `adb.exe`/`adb` and `127.0.0.1:5555` fill unset fields; the result is `BuildOutcome`: the opening's error, else `InvalidInput` for a zero timeout, else success without an explicit target, else exactly what `connect` to that target over the opened stream returns; the dials are exactly those of `BuildDialLog`, the dials left those of `BuildPending` and the new connections `BuildConnections`, and the daemon is started only after a refused first dial; the opened stream holds exactly the connect exchange, or nothing without a target, and carries the timeout; without a target it is the result's stream, with one the result has a fresh stream with no timeouts |

## Left out

- `get_resolution` (autogui_core/src/controller/adb.rs:215-217) is `todo!()` and has no behaviour to model.
- `into_dyn` (autogui_core/src/controller/adb.rs:185-187) only boxes the value as a trait object. The `Controller` trait itself is modelled by the methods of `Client.Adb`.
- The commented-out `recv_data` and `request` (autogui_core/src/controller/adb.rs:95-131) are not live code. Only their reading of the length prefix is modelled, as `Framing.DecodeLengthPrefix`.
- Net.TcpStream.Write: `write` may accept only part of the buffer. The model takes each write as all-or-error, because a partial write depends on the operating system.
- Timeouts are stored but never expire. Reads and writes fail only as the server's script says, because time is not modelled. A `Duration` is a number of nanoseconds.
- `peer_addr`, `read_timeout` and `write_timeout` (autogui_core/src/controller/adb.rs:111-113) cannot fail in the model, because every modelled stream is connected. Address parsing and name resolution are left to the dial script.
- Client.Adb.Reset: lines 112-115 read the old stream's timeouts and set the same values on the same old stream. That changes nothing, so the model omits the calls. The new stream starts with no timeouts, so a client built with an explicit target, and any client after its first successful command, has no timeouts (`Client.AdbBuilder.Build` states the first case).
- Framing.LengthPrefix: a payload longer than 65535 bytes is announced with its length modulo 65536, as the `as u16` cast does. Nothing rejects such a payload (`Framing.ParseFrameTruncated`).
- Client.AdbBuilder.Build: a second `set_write_timeout` failure cannot happen once the same duration was accepted for reads, so its error branch is merged into the first.
- Process spawning is only logged. Whether the server then really listens is the dial script's next outcome, because the child process is not modelled.
- Image decoding (`image::load_from_memory` and `to_rgba8`) is the parameter `decode` of `Client.Adb.Screenshot`, because it is a foreign library.
- `Vec::with_capacity(200)` only reserves memory and has no visible effect.
- Everything under `autogui_js` (script bindings, image matching, sleeping) is not part of this model.
