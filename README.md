# v4l2-rtl-tcp command handler, modelled in Dafny

`v4l2_rtl_tcp.py` (Python 2 code) bridges a V4L2 software-defined-radio device (`/dev/swradio0`)
to the `rtl_tcp` network protocol. Its function `handle_command` opens the
device and selects 8-bit unsigned SDR samples. It then accepts one TCP client
at a time and greets each client with a fixed 12-byte banner. Next it reads
command blocks from the client and turns `SET_FREQ` and `SET_SAMPLE_RATE` into
`VIDIOC_S_FREQUENCY` device requests. After the first sample rate it starts a
streaming thread. When the client disconnects, it stops that thread and goes
back to accept, unless an exception ends it first (below).

The model has four modules:

- `Wire` (`wire.dfy`): the banner and the 5-byte command frame. Bytes are
  `bv8`. The value is decoded into a `bv32` with the same shifts and ors as
  the source. Lemmas give the banner's layout and the big-endian round trips.
- `Device` (`device.dfy`): the V4L2 constants. It has the request records:
  the `(tuner, type, frequency)` data of `VIDIOC_S_FREQUENCY` and the
  `(type, pixelformat)` data of `VIDIOC_S_FMT`. It also maps a command to the
  request it causes.
- `Session` (`session.dfy`): the handler's state as a value. This is the two
  flags `sampling_rate_set` and `thread_running`, the phase, the number of
  `start()` calls on the current connection's thread object, and the log of
  device requests. It has the pure transition functions (`Receive`, `Feed`
  for one connection, `Serve` for the accept loop) and the lemmas: the
  invariant, the effect of each code, and when streaming starts.
- `Server` (`server.dfy`): class `Bridge`. It holds the same state in fields
  and updates them in place. Its methods follow the source's branches and its
  two loops, and each is proved against the `Session` functions.

The handler catches no exception. The model keeps two of the exceptions that
end it as the phase `Halted`:

- The handler decodes the first five bytes of whatever one `recv(1024)`
  returns and drops the rest of that block. A block of 1 to 4 bytes raises
  `IndexError` at line 170. The model has that as `Halted(Truncated(n))`.
- When the client disconnects, the handler calls `thread.join()` on the
  connection's thread object at line 198, even when `start()` was never
  called. Python rejects that with `RuntimeError`, so a client that
  disconnects before sending `SET_SAMPLE_RATE` stops the server. The model has
  that as `Halted(JoinUnstarted)`.

The device is opened once, before the accept loop, so the request log in the
model spans all connections.

## Model

| member | source | states |
|---|---|---|
| `Wire.HandshakeLayout` | v4l2_rtl_tcp.py:155-156 | The banner is 12 bytes: "RTL0" in ASCII, then tuner type 1 and gain count 255, each as four big-endian bytes. |
| `Wire.BigEndian` | v4l2_rtl_tcp.py:170 | Encoding the decoded value gives back the four bytes it came from, so the decode is a bijection between 4 bytes and 32-bit values. |
| `Wire.BigEndianIsPositional` | v4l2_rtl_tcp.py:170 | The shift-and-or of bytes 1 to 4, read as an unbounded integer, is the positional base-256 value, most significant byte first, so nothing wraps around. |
| `Wire.DecodeEncodeU32` | v4l2_rtl_tcp.py:170 | Decoding the big-endian encoding of any 32-bit value gives that value back. |
| `Wire.EncodeU32Example` | v4l2_rtl_tcp.py:170 | 100000000 travels as 05 F5 E1 00. |
| `Wire.DecodeFrame` | v4l2_rtl_tcp.py:163-170 | A block decodes exactly when it has at least 5 bytes, with the code taken from byte 0 and the value from bytes 1 to 4, which are exactly its big-endian encoding. A shorter block is an error that carries its length. |
| `Wire.FrameRoundTrip` | v4l2_rtl_tcp.py:169-170 | A client's encoding of any command, followed by any bytes, decodes to that command. |
| `Wire.DecodeReadsFirstFrame` | v4l2_rtl_tcp.py:163-170 | Only the first five bytes of a block are decoded. They are exactly the encoding of the decoded command, so a block yields one command. |
| `Device.RequestFor` | v4l2_rtl_tcp.py:171-189 | Only SET_FREQ and SET_SAMPLE_RATE reach the device. SET_FREQ asks for tuner 1, type RF (5), at the value. SET_SAMPLE_RATE asks for tuner 0, type ADC (4), at the value. |
| `Device.RequestIdentifiesCommand` | v4l2_rtl_tcp.py:171-178 | A device request determines the command that caused it: the code and the value. |
| `Session.React` | v4l2_rtl_tcp.py:171-193 | After a command, the sample rate flag is up iff it was up before or the code is SET_SAMPLE_RATE. Streaming runs iff it ran before or the rate is set. A start is exactly a change from not running to running. The request is the command's. |
| `Session.Accept` | v4l2_rtl_tcp.py:152-159 | A new client puts the handler in a connection with an unstarted thread object, and keeps the flags and the request log. |
| `Session.Disconnect` | v4l2_rtl_tcp.py:195-198 | A disconnect drops both flags and keeps the request log and the start count. The handler returns to accept iff the thread was started, and otherwise halts on the join. |
| `Session.Receive` | v4l2_rtl_tcp.py:161-198 | The connection stays open iff the block has at least 5 bytes. The request log only grows at its end. |
| `Session.Feed` | v4l2_rtl_tcp.py:161-198 | The `while conn` loop over a connection's blocks: outside a connection it changes nothing, and the request log only grows at its end. `Session.FeedStops`, `Session.FeedKeepsConsistent` and `Session.FeedFullFrames` characterise it further. |
| `Session.Serve` | v4l2_rtl_tcp.py:151-198 | The `while True` accept loop over clients: unless the handler is listening it changes nothing, and the request log only grows at its end. `Session.ServeStops` and `Session.ServeKeepsConsistent` characterise it further. |
| `Session.AcceptKeepsConsistent` | v4l2_rtl_tcp.py:152-159 | A new client starts with both flags down and an unstarted thread, and the invariant holds. |
| `Session.ReceiveKeepsConsistent` | v4l2_rtl_tcp.py:161-198 | Every block keeps the invariant. No thread object is started twice. During a connection, streaming runs iff a sample rate has been set. |
| `Session.ReceiveIgnoresTail` | v4l2_rtl_tcp.py:163-170 | Bytes after the fifth in a block change nothing. |
| `Session.ReceiveSetFreq` | v4l2_rtl_tcp.py:171-174 | SET_FREQ appends exactly one request (tuner 1, RF, the decoded value) and changes nothing else, flags included. |
| `Session.ReceiveSetSampleRate` | v4l2_rtl_tcp.py:175-193 | SET_SAMPLE_RATE appends exactly one request (tuner 0, ADC, the decoded value). It leaves the rate set and streaming running with one start. It starts streaming now iff no rate was set before. |
| `Session.ReceiveOtherCode` | v4l2_rtl_tcp.py:180-193 | The five logged codes and every unknown code leave the whole state unchanged: no request, no flag change, no start. |
| `Session.ReceiveShortBlock` | v4l2_rtl_tcp.py:169-170 | A block of 1 to 4 bytes halts the handler with its length and changes nothing else. |
| `Session.ReceiveDisconnect` | v4l2_rtl_tcp.py:164-198 | An empty block drops both flags. The handler returns to accept iff streaming was running, and otherwise halts on the join. |
| `Session.FeedKeepsConsistent` | v4l2_rtl_tcp.py:161-198 | Any run of blocks keeps the invariant. |
| `Session.FeedStops` | v4l2_rtl_tcp.py:161-165 | Once a connection has ended, later blocks are never read. |
| `Session.ServeStops` | v4l2_rtl_tcp.py:151-152 | Once the handler halts or stays in a connection, no later client is accepted. |
| `Session.FeedFullFrames` | v4l2_rtl_tcp.py:161-193 | On whole frames a connection stays open. The rate flag is up iff some SET_SAMPLE_RATE arrived. The requests are those of the commands, in order, whatever the flags. |
| `Session.StreamingStartsOnce` | v4l2_rtl_tcp.py:191-193 | Per connection, streaming is started once if the client sent a SET_SAMPLE_RATE and never otherwise. |
| `Session.StreamingStartsAtFirstSampleRate` | v4l2_rtl_tcp.py:175-193 | A block starts streaming iff it is a SET_SAMPLE_RATE and no earlier block was. Each block adds at most one start. |
| `Session.ConnectionEnds` | v4l2_rtl_tcp.py:195-198 | After whole frames and a disconnect, both flags are down and the requests are those of the commands. The handler is back in accept iff a sample rate was set, and otherwise halts on the join. |
| `Session.ServeKeepsConsistent` | v4l2_rtl_tcp.py:151-198 | Over any sequence of clients the invariant holds, so both flags are down whenever a client is accepted. |
| `Server.Bridge.constructor` | v4l2_rtl_tcp.py:129-149 | After start-up both flags are down, no request has been made, the SDR_U8 format (type 11) has been selected, and the handler is listening. |
| `Server.Bridge.Accept` | v4l2_rtl_tcp.py:152-159 | Accepting returns the banner and moves to the new connection with an unstarted thread. |
| `Server.Bridge.Receive` | v4l2_rtl_tcp.py:163-198 | One pass of the command loop changes the fields exactly as `Session.Receive` says and keeps the invariant. |
| `Server.Bridge.ServeConnection` | v4l2_rtl_tcp.py:152-198 | Greeting a client and running its command loop leaves the fields as `Session.Feed` says. |
| `Server.Bridge.Serve` | v4l2_rtl_tcp.py:151-198 | The accept loop leaves the fields as `Session.Serve` says and keeps the invariant. |

## Left out

- The `fcntl.ioctl` calls and the ctypes structure layouts (v4l2_rtl_tcp.py:63-108, 143, 174, 178) are foreign kernel calls. A request is recorded as the logical record it carries, and the ioctl's own errors are not modelled.
- The streaming thread's work (v4l2_rtl_tcp.py:113-127) is not modelled. That is reading 262144-byte chunks from the device, sending them, and stopping on a socket error. It is concurrent, blocking I/O. The model keeps only the `start()` calls and the `thread_running` flag that the thread reads.
- A streaming thread that stops on its own after a send error leaves `thread_running` set. The model does not track that, and it does not change when the gate fires.
- When the handler halts on an exception while streaming, the process in fact waits for the non-daemon streaming thread. The model only records the halt.
- The socket plumbing (bind, listen, accept, send, recv, port 1234) is left out. The bytes each `recv` returns are method arguments and the banner is a return value. A connection that never disconnects leaves the handler in `Connected`, where the source would block in `recv`.
- Opening the device (`os.open`, which raises on failure) is left out. The `fd < 0` branch (v4l2_rtl_tcp.py:135-137) cannot be reached, and neither can `conn.close()` and `os.close(fd)` after the endless accept loop (v4l2_rtl_tcp.py:200-201).
- `main`, the argument parsing, the device path and the `print` logging (v4l2_rtl_tcp.py:111, 203-213) are left out, and so are the V4L2 constants the handler does not use (v4l2_rtl_tcp.py:13-18, 21, 22, 25-33, 36, 41-47, 51). The ioctl numbers at lines 23 and 24 name the calls above, which are not modelled.
- `Session.Receive`: a `recv` or banner `send` that raises `socket.error` (v4l2_rtl_tcp.py:156, 163), for instance when a client resets the connection, also ends the handler; the model sees only the blocks `recv` returns and does not have that outcome. Running the code under Python 3 is not modelled either: there the `str` banner at line 156 raises `TypeError`, and the model follows Python 2, where `recv` returns a byte string and `ord` reads one byte.
