/** The orientation server's mutable state as one object: the `connected` flag
    and the pipe shared by the producer and the server thread, and the server
    thread's own variables (`connfd`, `last_reading`, the retained sample).
    Each method is one step of a thread; an interleaving of producer and
    server steps is a sequence of calls. */
module Relay {
  import opened Wire
  import opened ReadingPump

  /** Where the server thread is in its loops. */
  datatype Phase =
    | Idle      // at the top of the accept loop (at start, or after a write failed)
    | Accepting // `connected` cleared, the old connection closed, blocked in `accept`
    | Serving   // in the inner read/format/dedup/send loop
    | Stopped   // the thread returned: socket set-up or `accept` failed

  class OrientationServer {
    /** The `%f` rendering the C library performs. */
    const fmt: FloatRenderer

    var phase: Phase
    /** The global `connected` flag the producer consults. */
    var connected: bool
    /** Samples written into the pipe and not yet read, oldest first. */
    var pipe: seq<Sample>
    /** `connfd != -1`: a client connection is held open. */
    var clientOpen: bool
    /** The retained sample and `last_reading` of the current connection. */
    var pump: PumpState

    /** Records formatted on the current connection, in order. */
    ghost var formatted: seq<string>
    /** Records handed to `write` on the current connection, in order. */
    ghost var transmitted: seq<string>

    ghost predicate Valid()
      reads this
    {
      && (phase == Serving ==> connected && clientOpen)
      && (phase == Accepting || phase == Stopped ==> !connected && !clientOpen)
      && (phase == Serving ==>
            && transmitted == Dedup("", formatted)
            && pump.lastReading == LastOr("", formatted))
    }

    /** The server thread at its start; `listening` says whether `socket`,
        `setsockopt`, `bind` and `listen` all succeeded. */
    constructor (fmt: FloatRenderer, listening: bool)
      ensures Valid()
      ensures this.fmt == fmt
      ensures phase == (if listening then Idle else Stopped)
      ensures !connected && !clientOpen && pipe == []
    {
      this.fmt := fmt;
      phase := if listening then Idle else Stopped;
      connected := false;
      pipe := [];
      clientOpen := false;
      pump := Fresh;
      formatted := [];
      transmitted := [];
    }

    /** Top of the accept loop: clear `connected` and close the previous connection. */
    method BeginAccept()
      requires Valid() && phase == Idle
      modifies this
      ensures Valid()
      ensures phase == Accepting && !connected && !clientOpen
      ensures pipe == old(pipe) && pump == old(pump)
      ensures formatted == old(formatted) && transmitted == old(transmitted)
    {
      connected := false;
      clientOpen := false;
      phase := Accepting;
    }

    /** `accept` returned: on failure the thread ends; on success the new
        connection starts from an empty `last_reading` and the initial sample,
        whatever the previous connection saw, and `connected` is set. */
    method FinishAccept(ok: bool)
      requires Valid() && phase == Accepting
      modifies this
      ensures Valid()
      ensures pipe == old(pipe)
      ensures !ok ==> phase == Stopped && !connected && !clientOpen && pump == old(pump)
                      && formatted == old(formatted) && transmitted == old(transmitted)
      ensures ok ==> phase == Serving && connected && clientOpen && pump == Fresh
                     && pump.lastReading == "" && pump.sample == Sample(0, 0, 0, -1)
                     && formatted == [] && transmitted == []
    {
      if !ok {
        phase := Stopped;
        return;
      }
      clientOpen := true;
      connected := true;
      pump := Fresh;
      formatted := [];
      transmitted := [];
      phase := Serving;
    }

    /** One wake-up of the inner loop. `ev` is what `poll` and `read` gave
        (a full read takes the oldest sample off the pipe); `written` is what
        `write` returns if it is called. `frame` is the bytes handed to `write`,
        empty when nothing was written. */
    method Serve(ev: PipeEvent, written: int) returns (step: Step, frame: seq<char>)
      requires Valid() && phase == Serving
      requires ev.Full? ==> pipe != [] && pipe[0] == ev.sample
      modifies this
      ensures Valid()
      ensures (pump, step) == Cycle(fmt, old(pump), Wake(ev, written))
      ensures pipe == if ev.Full? then old(pipe)[1..] else old(pipe)
      ensures phase == (if step.Break? then Idle else Serving)
      ensures connected && clientOpen
      ensures formatted == old(formatted) + FormattedBy(step)
      ensures transmitted == old(transmitted) + WrittenBy(step)
      ensures frame == if step.Send? || step.Break? then Frame(step.record) else []
    {
      if ev.PollError? || ev.PollUnexpected? || ev.ReadError? {
        return Skip, [];
      }
      if ev.Full? {
        pump := pump.(sample := ev.sample);
        pipe := pipe[1..];
      }
      var sendBuf := Record(fmt, pump.sample);
      DedupSnoc("", formatted, sendBuf);
      formatted := formatted + [sendBuf];
      frame := [];
      if sendBuf != pump.lastReading {
        frame := Frame(sendBuf);
        transmitted := transmitted + [sendBuf];
        if written == -1 {
          phase := Idle;
          return Break(sendBuf), frame;
        }
        step := Send(sendBuf, written);
      } else {
        step := Suppress(sendBuf);
      }
      pump := pump.(lastReading := sendBuf);
    }

    /** The producer's guard: a sample with status `SENSOR_STATUS_ACCURACY_HIGH`
        goes into the pipe only while `connected` is set. */
    method Publish(x: Float32, y: Float32, z: Float32) returns (pushed: bool)
      requires Valid()
      modifies this`pipe
      ensures Valid()
      ensures pushed == connected
      ensures pipe == if connected then old(pipe) + [Sample(x, y, z, SENSOR_STATUS_ACCURACY_HIGH)] else old(pipe)
      ensures phase == Accepting || phase == Stopped ==> pipe == old(pipe)
    {
      pushed := connected;
      if connected {
        pipe := pipe + [Sample(x, y, z, SENSOR_STATUS_ACCURACY_HIGH)];
      }
    }
  }

  /** Client A's connection: `a` and `b` are published, `a` is written, and
      the write of `b` fails, which sends the thread back to `accept`. Until
      the accept loop clears it, `connected` is still set, so the producer
      keeps enqueueing. */
  method FirstClientFails(server: OrientationServer, a: Sample, b: Sample) returns (toA: Step)
    requires server.Valid() && server.phase == Serving && server.pump == Fresh && server.pipe == []
    requires a.status == SENSOR_STATUS_ACCURACY_HIGH && b.status == SENSOR_STATUS_ACCURACY_HIGH
    requires Record(server.fmt, a) != Record(server.fmt, b)
    modifies server
    ensures server.Valid() && server.phase == Idle && server.pipe == []
    ensures server.connected && server.clientOpen
    ensures server.transmitted == old(server.transmitted) + [Record(server.fmt, a), Record(server.fmt, b)]
    ensures toA == Send(Record(server.fmt, a), FRAME_SIZE as int)
  {
    var pushed := server.Publish(a.azimuth, a.pitch, a.roll);
    pushed := server.Publish(b.azimuth, b.pitch, b.roll);
    assert server.pipe == [a, b];
    var frame;
    assert Cycle(server.fmt, Fresh, Wake(Full(a), FRAME_SIZE as int))
      == (PumpState(a, Record(server.fmt, a)), Send(Record(server.fmt, a), FRAME_SIZE as int));
    toA, frame := server.Serve(Full(a), FRAME_SIZE as int);
    assert server.pipe == [b] && server.pump == PumpState(a, Record(server.fmt, a));
    assert Cycle(server.fmt, server.pump, Wake(Full(b), -1))
      == (PumpState(b, Record(server.fmt, a)), Break(Record(server.fmt, b)));
    var failed;
    failed, frame := server.Serve(Full(b), -1);
  }

  /** Client A receives a sample and its next write fails; a sample published
      while the server waits in `accept` is not enqueued; client B, once
      accepted, receives the sample A already had. */
  method ClientBReceivesRepeatedSample(fmt: FloatRenderer, a: Sample, b: Sample) returns (toA: Step, pushedWhileAccepting: bool, toB: Step)
    requires a.status == SENSOR_STATUS_ACCURACY_HIGH && b.status == SENSOR_STATUS_ACCURACY_HIGH
    requires Record(fmt, a) != Record(fmt, b)
    ensures toA == Send(Record(fmt, a), FRAME_SIZE as int)
    ensures !pushedWhileAccepting
    ensures toB == Send(Record(fmt, a), FRAME_SIZE as int)
  {
    var server := new OrientationServer(fmt, true);
    server.BeginAccept();
    server.FinishAccept(true);
    toA := FirstClientFails(server, a, b);
    server.BeginAccept();
    pushedWhileAccepting := server.Publish(a.azimuth, a.pitch, a.roll);
    server.FinishAccept(true);
    var pushed := server.Publish(a.azimuth, a.pitch, a.roll);
    assert server.pipe == [a];
    assert Cycle(fmt, Fresh, Wake(Full(a), FRAME_SIZE as int))
      == (PumpState(a, Record(fmt, a)), Send(Record(fmt, a), FRAME_SIZE as int));
    var frame;
    toB, frame := server.Serve(Full(a), FRAME_SIZE as int);
  }
}
