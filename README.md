# Orientation reading relay: a Dafny model

The orientation sensor emulation runs a small TCP server on a background
thread (`orient_readings_server`). The sensor pipeline is the producer. Each
time it has an orientation estimate, and only while the `connected` flag is
set, it writes a `struct poll_data` sample (azimuth, pitch, roll, status) into a pipe.
The server thread accepts one client at a time. For each connection it loops:

1. Wait on the pipe and read a sample.
2. Render the sample as `"%f|%f|%f|%d"` into a 101-byte buffer.
3. Write the buffer to the client only if its text differs from the previous
   record (`last_reading`).

A write returning -1 ends the connection, and the thread goes back to
`accept`. This holds only when the hosting process blocks or ignores
`SIGPIPE`: the file never does so itself, and with the signal's default action
a write to a client that has closed ends the whole process instead.

The model has four modules:

- `Wire` (wire.dfy): the sample, the `%d` text of the status, the record left
  in `send_buf` by `snprintf` (at most 99 characters), the 101-byte frame
  handed to `write`, and how a client reads a record back (as a C string, then
  split at `|`).
- `ReadingPump` (pump.dfy): the inner loop as pure functions.
  - `Cycle` is one wake-up.
  - `Session` is a connection's run over a sequence of wake-ups, stopping at
    the first failed write.
  - `Renders` is the reference for what a connection formats: the records
    of the samples its pipe events leave retained.
  - `Dedup` is the reference for what it writes: the formatted records with
    consecutive repeats removed.
- `Supervisor` (supervisor.dfy): the outer accept loop in summary form, as a
  sequence of connection sessions.
- `Relay` (relay.dfy): the same behaviour in step form, as a class,
  `OrientationServer`. Each `Serve` is tied to `Cycle`, and its invariant ties
  the records written on the current connection to `Dedup` of those
  formatted. No lemma says that a run of `Serve` calls from `FinishAccept`
  to a `Break` writes what `Session` of the same wake-ups writes.
  - Its fields are the global `connected` flag, the pipe's contents and the
    server thread's variables (`connfd`, `last_reading`, the retained sample).
  - Its step methods are `BeginAccept`, `FinishAccept`, `Serve` and the
    producer's `Publish`.
  - Producer and server run concurrently. An interleaving of their steps is a
    sequence of method calls.

How inputs the model cannot compute are represented:

- The C library's `%f` rendering is an uninterpreted parameter
  `fmt: Float32 -> FieldText`. Floats are their 32-bit patterns. The output is
  any text without a NUL or a `|`.
- The results of `poll`, `read`, `write` and `accept` are inputs:
  - `PipeEvent` and `Wake` carry the poll/read outcome and the value `write`
    would return.
  - `FinishAccept(ok)` takes whether `accept` succeeded.
  - An `Attempt` is one `accept` outcome, for the outer loop.

Behaviour the model takes from the code, where a reader might expect otherwise:

- A fresh connection's sample has status -1, not 0. Its text is therefore
  `fmt(0)|fmt(0)|fmt(0)|-1`.
- Only a `write` returning -1 ends a connection. A short write that returns
  another value continues the loop, as does a write returning 0.
- The producer-to-server channel is a pipe, so it is a FIFO queue, not a
  one-slot overwrite. Samples published between two wake-ups are all read in
  turn. Samples still in the pipe when a connection fails are read by the next
  connection. The model keeps the pipe as the queue `pipe: seq<Sample>`, and a
  full read takes the oldest sample.
- A zero-byte read keeps the previous sample, and the cycle still formats and
  dedups. On a Linux pipe whose write end stays open (`pipefd[1]` is never
  closed) `poll` reports `POLLIN` only when data is queued, so this case
  cannot follow the `POLLIN` check in practice: a fresh connection waits in
  `poll` for its first sample rather than sending the record of
  (0, 0, 0, -1). A read error, a poll error or an unexpected poll event `continue`s
  before formatting, so nothing changes.
- `last_reading` is copied from the formatted record after every cycle that
  does not break, whether the record was sent or suppressed. A breaking write
  exits before the copy.
- `snprintf` is given size 100, so its text is at most 99 characters. Every
  write is handed 101 bytes: the text, then the zero bytes the buffer was
  initialised with. A short write sends fewer of them, and the rest of that
  frame is never sent: the record is still copied into `last_reading`, and a
  client reading 101-byte frames is out of step from then on.
- The records sent on a connection are compared as C strings (`strcmp`). This
  is modelled as inequality of NUL-free texts: no `%f` or `%d` output contains
  a NUL.

## Model

| member | source | states |
|---|---|---|
| Wire.Digits | SensorEmulation/frameworks/native/service/sensorservice_dev/ForOrientationSensor.cpp:252 | the `%d` digits of a natural number are at least one decimal digit, with no leading zero unless the number is 0 |
| Wire.StatusText | SensorEmulation/frameworks/native/service/sensorservice_dev/ForOrientationSensor.cpp:252 | the `%d` text of an `int8_t` status is 1 to 4 characters, holds no NUL or `|`, and starts with `-` exactly when the status is negative |
| Wire.StatusRoundTrip | SensorEmulation/frameworks/native/service/sensorservice_dev/ForOrientationSensor.cpp:252 | parsing the status text back gives the status |
| Wire.DigitsRoundTrip | SensorEmulation/frameworks/native/service/sensorservice_dev/ForOrientationSensor.cpp:252 | the decimal digits of a natural number denote that number |
| Wire.Conversions | SensorEmulation/frameworks/native/service/sensorservice_dev/ForOrientationSensor.cpp:252 | the four conversions of `"%f|%f|%f|%d"` in order, none holding a NUL or a `|` |
| Wire.Render | SensorEmulation/frameworks/native/service/sensorservice_dev/ForOrientationSensor.cpp:252 | the full rendering splits back at `|` into exactly the four conversions, holds no NUL and has at least the three separators |
| Wire.Record | SensorEmulation/frameworks/native/service/sensorservice_dev/ForOrientationSensor.cpp:251-252 | the record `snprintf` leaves in `send_buf` is non-empty, at most 99 characters long and NUL-free |
| Wire.RecordIsBoundedRendering | SensorEmulation/frameworks/native/service/sensorservice_dev/ForOrientationSensor.cpp:251-252 | the record is a prefix of the full `%f|%f|%f|%d` rendering: all of it when it fits in 99 characters, its first 99 otherwise |
| Wire.FieldsOfJoin | SensorEmulation/frameworks/native/service/sensorservice_dev/ForOrientationSensor.cpp:252 | splitting at `|` undoes joining with `|` when no field holds a `|` |
| Wire.RenderRoundTrip | SensorEmulation/frameworks/native/service/sensorservice_dev/ForOrientationSensor.cpp:252 | splitting a rendering at `|` gives back the four conversions, and the last field parses back to the status |
| Wire.Frame | SensorEmulation/frameworks/native/service/sensorservice_dev/ForOrientationSensor.cpp:251-269 | every write hands over exactly 101 bytes: the record followed by zero bytes |
| Wire.FrameRoundTrip | SensorEmulation/frameworks/native/service/sensorservice_dev/ForOrientationSensor.cpp:251-269 | a client reading the 101-byte frame as a C string gets exactly the record |
| Wire.WireRoundTrip | SensorEmulation/frameworks/native/service/sensorservice_dev/ForOrientationSensor.cpp:251-269 | when the rendering fits in 99 characters, a client reading the frame handed to `write` as a C string and splitting it at `|` gets back the four conversions |
| ReadingPump.Cycle | SensorEmulation/frameworks/native/service/sensorservice_dev/ForOrientationSensor.cpp:214-281 | one wake-up: a skipped cycle leaves the state unchanged; any other formats the record of the sample it retains, 1 to 99 characters long; it breaks only when `write` returned -1, leaving `last_reading` as it was |
| ReadingPump.CycleFacts | SensorEmulation/frameworks/native/service/sensorservice_dev/ForOrientationSensor.cpp:214-281 | one wake-up: poll errors, unexpected events and read errors skip the cycle and change nothing; a zero read keeps the sample and still formats; a full read replaces it; the record is written iff it differs from `last_reading`; the cycle breaks iff that write returns -1, and then `last_reading` is unchanged; otherwise `last_reading` becomes the record, sent or suppressed |
| ReadingPump.Session | SensorEmulation/frameworks/native/service/sensorservice_dev/ForOrientationSensor.cpp:214-284 | a connection's loop consumes no more wake-ups than it is given, and all of them unless a write failed |
| ReadingPump.SessionFormatted | SensorEmulation/frameworks/native/service/sensorservice_dev/ForOrientationSensor.cpp:214-281 | the records a connection formats are the renderings of the pipe events of the wake-ups it used (`Renders`): errors format nothing, a zero read renders the retained sample again, a full read renders and retains the new sample |
| ReadingPump.RendersWithoutFullRead | SensorEmulation/frameworks/native/service/sensorservice_dev/ForOrientationSensor.cpp:232-252 | until a full read, every record rendered is the retained sample's |
| ReadingPump.FreshSessionFormatsInitialSample | SensorEmulation/frameworks/native/service/sensorservice_dev/ForOrientationSensor.cpp:205-252 | a fresh connection that has read no sample formats only the record of (0, 0, 0, -1); only a zero-byte read reaches the formatting without a sample |
| ReadingPump.SessionWritesDedup | SensorEmulation/frameworks/native/service/sensorservice_dev/ForOrientationSensor.cpp:267-281 | the records written on a connection are the records formatted, with consecutive repeats removed, `last_reading` standing before the first |
| ReadingPump.SessionNoRepeatedWrites | SensorEmulation/frameworks/native/service/sensorservice_dev/ForOrientationSensor.cpp:267-279 | no two consecutive written records are equal |
| ReadingPump.SessionFirstRecordWritten | SensorEmulation/frameworks/native/service/sensorservice_dev/ForOrientationSensor.cpp:205-267 | on a fresh connection the first record formatted is always written |
| ReadingPump.FormattedNonEmpty | SensorEmulation/frameworks/native/service/sensorservice_dev/ForOrientationSensor.cpp:251-252 | every record a connection formats has 1 to 99 characters |
| ReadingPump.SessionLastReading | SensorEmulation/frameworks/native/service/sensorservice_dev/ForOrientationSensor.cpp:281 | while the connection lives, `last_reading` is the last record formatted (or its initial value if none was) |
| ReadingPump.SessionEndsOnFailedWrite | SensorEmulation/frameworks/native/service/sensorservice_dev/ForOrientationSensor.cpp:272-275 | a connection that ended did so on a wake-up whose write returned -1, after writing a record; with no -1 write it never ends |
| ReadingPump.SessionIgnoresLaterWakes | SensorEmulation/frameworks/native/service/sensorservice_dev/ForOrientationSensor.cpp:274 | once a write fails the loop is left: later wake-ups do not change the connection's trace |
| ReadingPump.RepeatedSampleSentOnce | SensorEmulation/frameworks/native/service/sensorservice_dev/ForOrientationSensor.cpp:267-281 | samples a, a, b on a fresh connection produce exactly the two records of a and b |
| ReadingPump.DedupNoRepeats | SensorEmulation/frameworks/native/service/sensorservice_dev/ForOrientationSensor.cpp:267 | the reference removes every consecutive repeat and never starts with the previous record |
| ReadingPump.DedupSnoc | SensorEmulation/frameworks/native/service/sensorservice_dev/ForOrientationSensor.cpp:267-281 | one more formatted record is kept exactly when it differs from the last one seen |
| ReadingPump.DedupLast | SensorEmulation/frameworks/native/service/sensorservice_dev/ForOrientationSensor.cpp:267-281 | the last record handed to `write` is the last record formatted; on a connection that broke it is the record whose write failed, and after a short write the client holds only part of it |
| ReadingPump.DedupFixpoint | SensorEmulation/frameworks/native/service/sensorservice_dev/ForOrientationSensor.cpp:267 | a sequence with no repeats loses nothing |
| ReadingPump.DedupIdempotent | SensorEmulation/frameworks/native/service/sensorservice_dev/ForOrientationSensor.cpp:267 | removing repeats twice removes nothing more |
| Supervisor.Supervise | SensorEmulation/frameworks/native/service/sensorservice_dev/ForOrientationSensor.cpp:183-210 | each connection in the run is a session of its own wake-ups from the fresh state, whatever came before; every connection but the last ended on a failed write; the run stops at a failed accept or at a connection that has not failed |
| Supervisor.EveryConnectionStartsFresh | SensorEmulation/frameworks/native/service/sensorservice_dev/ForOrientationSensor.cpp:203-210 | on every connection the written records are the formatted records without repeats from an empty `last_reading`, and the first formatted record is written |
| Supervisor.NextClientGetsRepeatedRecord | SensorEmulation/frameworks/native/service/sensorservice_dev/ForOrientationSensor.cpp:205 | dedup is per connection: the connection before ended on a failed write after writing a record, and whatever it wrote, the next client is written the first record it formats |
| Relay.OrientationServer.constructor | SensorEmulation/frameworks/native/service/sensorservice_dev/ForOrientationSensor.cpp:128-177 | the thread starts with `connected` false, no client and an empty pipe; it is stopped if socket set-up failed |
| Relay.OrientationServer.BeginAccept | SensorEmulation/frameworks/native/service/sensorservice_dev/ForOrientationSensor.cpp:183-192 | the top of the accept loop clears `connected` and closes the previous connection, nothing else changes |
| Relay.OrientationServer.FinishAccept | SensorEmulation/frameworks/native/service/sensorservice_dev/ForOrientationSensor.cpp:194-210 | a failed accept stops the thread; a successful one sets `connected`, and the new connection has an empty `last_reading` and sample (0, 0, 0, -1) |
| Relay.OrientationServer.Serve | SensorEmulation/frameworks/native/service/sensorservice_dev/ForOrientationSensor.cpp:214-284 | one wake-up moves the state as `Cycle` says, takes the read sample off the pipe, hands `write` the 101-byte frame of the record when it writes, leaves `connected` set and the connection open even after a failed write, and keeps the invariant that the written records are the formatted ones without repeats |
| Relay.OrientationServer.Publish | SensorEmulation/frameworks/native/service/sensorservice_dev/ForOrientationSensor.cpp:348-357 | a sample with status `SENSOR_STATUS_ACCURACY_HIGH` is appended to the pipe iff `connected`; nothing is enqueued while the server waits in accept or has stopped |
| Relay.FirstClientFails | SensorEmulation/frameworks/native/service/sensorservice_dev/ForOrientationSensor.cpp:214-284 | with `a` and `b` published on a fresh connection, client A is handed the records of `a` and `b`, and the failed write of `b` leaves the loop with the pipe empty, with `connected` still set and the connection still open, so the producer still enqueues until the accept loop runs |
| Relay.ClientBReceivesRepeatedSample | SensorEmulation/frameworks/native/service/sensorservice_dev/ForOrientationSensor.cpp:183-281 | client A receives a sample, a later write fails, a publish during accept is dropped, and client B receives the sample A already had |

## Left out

- Socket creation, `setsockopt`, `bind` and `listen` (lines 136-177) are
  operating-system I/O. Their combined success is the constructor's
  `listening` flag.
- `accept`, `close` and `cleanup` (lines 109-126, 186-200) are I/O as well.
  Accept success or failure is an input. Closing is the `clientOpen` flag.
- `poll`, `read` and `write` are system calls. Their outcomes are inputs.
  - `SIGPIPE` is not modelled. The model assumes the hosting process blocks
    or ignores it, so a write to a closed client returns -1 (`EPIPE`). Under
    the default action that write ends the process, and then nothing after
    the `break` at line 274 runs: no later `accept` and no next connection.
  - A `read` returning part of a `struct poll_data` is not modelled: a full
    read always yields a whole sample. The byte layout of the struct is left
    out too.
- Relay.OrientationServer.Publish: the pipe made by `pipe()` (line 326) is
  blocking and bounded (64 KiB by default on Linux, about 4096 samples of 16
  bytes), so the producer's `write` at line 350 blocks while the pipe is full,
  as when the server thread is stuck writing to a slow client. The model's
  `pipe` is an unbounded sequence, and `Publish` always appends and returns.
- Real concurrency is not modelled: the race between the producer and the
  server thread on `connected` and on the pipe. It becomes interleaved method
  calls, each of which is atomic.
- `pthread_create` in `initialize_orient_readings_server` and the pipe set-up
  (lines 292-339) only start the thread.
- Floating-point values and their `%f` rendering are an uninterpreted
  parameter, known only to produce text without NUL or `|`.
  - The model therefore does not say when two different samples render to the
    same text and are deduplicated. This happens routinely: `%f` rounds to six
    decimals, so `0.0f` and `1e-7f` both give `0.000000`, `1.0f` and the next
    float above it give the same text, and every NaN gives `nan` or `-nan`.
    Very large values can also push the rendering past 99 characters, where
    it is cut.
- `nanosleep` pacing (lines 179, 283, 286) is timing only.
- The logging macros and log files (lines 42-92, and `LOG_READING` at line
  270) are diagnostics only.
- `terminate_orient_readings_server` (lines 307-318) does nothing and returns
  true.
- Wire bytes are modelled as `char`, not as a byte type. Every character
  involved is ASCII or NUL.
