/** The per-connection relay loop of the orientation server, as pure functions:
    one wake-up (`Cycle`), a whole connection (`Session`) and the reference it
    is proved against (`Dedup`, the formatted records with consecutive repeats
    removed). */
module ReadingPump {
  import opened Wire

  /** What one wake-up learns from `poll` and `read` on the pipe. */
  datatype PipeEvent =
    | PollError            // poll returned -1
    | PollUnexpected       // revents was not exactly POLLIN
    | ReadError            // read returned -1
    | ReadZero             // read returned 0
    | Full(sample: Sample) // read returned the bytes of a sample

  /** One wake-up of the loop: the pipe event and the value `write` returns
      should the record be written. */
  datatype Wake = Wake(pipe: PipeEvent, written: int)

  /** The loop's local state: the retained sample (`azimuth`, `pitch`, `roll`,
      `status`) and `last_reading`. */
  datatype PumpState = PumpState(sample: Sample, lastReading: string)

  /** What one wake-up did. */
  datatype Step =
    | Skip                              // an error: `continue` before formatting
    | Suppress(record: string)          // the record equals `last_reading`
    | Send(record: string, written: int) // written; `write` did not return -1
    | Break(record: string)             // written; `write` returned -1

  /** State of a freshly accepted connection. */
  const Fresh := PumpState(InitialSample, "")

  /** The events that make the loop `continue` before it formats anything. */
  predicate Skips(e: PipeEvent) {
    e.PollError? || e.PollUnexpected? || e.ReadError?
  }

  /** One pass of the inner `while (1)`: the state it leaves and what it did.
      An error changes nothing; any other pass formats the retained sample,
      and it breaks only on a write returning -1, leaving `last_reading`. */
  function Cycle(fmt: FloatRenderer, st: PumpState, w: Wake): (r: (PumpState, Step))
    ensures r.1.Skip? ==> r.0 == st
    ensures !r.1.Skip? ==> r.1.record == Record(fmt, r.0.sample) && 0 < |r.1.record| <= MAX_TEXT
    ensures r.1.Break? ==> w.written == -1 && r.0.lastReading == st.lastReading
  {
    if Skips(w.pipe) then (st, Skip)
    else
      var sample := if w.pipe.Full? then w.pipe.sample else st.sample;
      var rec := Record(fmt, sample);
      if rec != st.lastReading then
        if w.written == -1 then (PumpState(sample, st.lastReading), Break(rec))
        else (PumpState(sample, rec), Send(rec, w.written))
      else (PumpState(sample, rec), Suppress(rec))
  }

  /** The record a step formatted, if it formatted one. */
  function FormattedBy(step: Step): seq<string> {
    if step.Skip? then [] else [step.record]
  }

  /** The record a step handed to `write`, if it wrote one. */
  function WrittenBy(step: Step): seq<string> {
    if step.Send? || step.Break? then [step.record] else []
  }

  /** Per-wake-up facts the loop promises. */
  lemma CycleFacts(fmt: FloatRenderer, st: PumpState, w: Wake)
    ensures var (next, step) := Cycle(fmt, st, w);
      // errors: the cycle is skipped and nothing changes
      && (Skips(w.pipe) <==> step.Skip?)
      && (Skips(w.pipe) ==> next == st)
      // a zero-byte read keeps the sample; a full read replaces it
      && (w.pipe.ReadZero? ==> next.sample == st.sample && !step.Skip?)
      && (w.pipe.Full? ==> next.sample == w.pipe.sample)
      // the formatted record is written exactly when it differs from last_reading
      && (!step.Skip? ==> step.record == Record(fmt, next.sample))
      && (!step.Skip? ==> ((step.Send? || step.Break?) <==> step.record != st.lastReading))
      // only a write returning -1 breaks, and it leaves last_reading alone
      && (step.Break? <==> (!step.Skip? && step.record != st.lastReading && w.written == -1))
      && (step.Break? ==> next.lastReading == st.lastReading)
      // otherwise last_reading is the record just formatted, sent or not
      && (!step.Skip? && !step.Break? ==> next.lastReading == step.record)
  {
  }

  /** What a connection's loop did over a run of wake-ups. */
  datatype Trace = Trace(
    final: PumpState,         // the loop's state afterwards
    formatted: seq<string>,   // every record formatted, in order
    written: seq<string>,     // every record handed to `write`, in order
    broken: bool,             // the loop ended on a write returning -1
    used: nat)                // how many wake-ups it consumed

  /** Run the loop from `st` over `wakes`, stopping at the first `Break`. */
  function Session(fmt: FloatRenderer, st: PumpState, wakes: seq<Wake>): (t: Trace)
    ensures t.used <= |wakes|
    ensures !t.broken ==> t.used == |wakes|
    decreases |wakes|
  {
    if wakes == [] then Trace(st, [], [], false, 0)
    else
      var (next, step) := Cycle(fmt, st, wakes[0]);
      if step.Break? then Trace(next, [step.record], [step.record], true, 1)
      else
        var rest := Session(fmt, next, wakes[1..]);
        Trace(rest.final, FormattedBy(step) + rest.formatted, WrittenBy(step) + rest.written,
              rest.broken, rest.used + 1)
  }

  /** The pipe events of a run of wake-ups. */
  function Events(wakes: seq<Wake>): (r: seq<PipeEvent>)
    ensures |r| == |wakes|
    ensures forall i :: 0 <= i < |wakes| ==> r[i] == wakes[i].pipe
  {
    seq(|wakes|, i requires 0 <= i < |wakes| => wakes[i].pipe)
  }

  /** The records the loop formats from a run of pipe events, starting from the
      retained sample `s`, whatever `write` returns: an error formats nothing, a
      zero-byte read renders the retained sample again, and a full read renders
      the new sample and retains it. */
  function Renders(fmt: FloatRenderer, s: Sample, events: seq<PipeEvent>): (r: seq<string>)
    ensures |r| <= |events|
    decreases |events|
  {
    if events == [] then []
    else if Skips(events[0]) then Renders(fmt, s, events[1..])
    else
      var x := if events[0].Full? then events[0].sample else s;
      [Record(fmt, x)] + Renders(fmt, x, events[1..])
  }

  /** Until a full read, every record rendered is the retained sample's: a
      fresh connection that has read no sample formats `InitialSample`. */
  lemma {:induction false} RendersWithoutFullRead(fmt: FloatRenderer, s: Sample, events: seq<PipeEvent>)
    requires forall i :: 0 <= i < |events| ==> !events[i].Full?
    ensures forall i :: 0 <= i < |Renders(fmt, s, events)| ==> Renders(fmt, s, events)[i] == Record(fmt, s)
    decreases |events|
  {
    if events != [] {
      RendersWithoutFullRead(fmt, s, events[1..]);
    }
  }

  /** `xs` with every element equal to its predecessor removed; `prev` stands
      before the first. */
  function Dedup(prev: string, xs: seq<string>): seq<string>
    decreases |xs|
  {
    if xs == [] then []
    else if xs[0] == prev then Dedup(prev, xs[1..])
    else [xs[0]] + Dedup(xs[0], xs[1..])
  }

  /** The last element of `xs`, or `prev` when there is none. */
  function LastOr(prev: string, xs: seq<string>): string {
    if xs == [] then prev else xs[|xs| - 1]
  }

  predicate NoAdjacentRepeats(xs: seq<string>) {
    forall i :: 0 < i < |xs| ==> xs[i - 1] != xs[i]
  }

  /** Dedup removes exactly the repeats: nothing it keeps follows an equal
      element, and its first element differs from `prev`. */
  lemma {:induction false} DedupNoRepeats(prev: string, xs: seq<string>)
    ensures NoAdjacentRepeats(Dedup(prev, xs))
    ensures Dedup(prev, xs) != [] ==> Dedup(prev, xs)[0] != prev
    decreases |xs|
  {
    if xs != [] {
      if xs[0] == prev {
        DedupNoRepeats(prev, xs[1..]);
      } else {
        DedupNoRepeats(xs[0], xs[1..]);
      }
    }
  }

  /** Appending one element keeps or drops it according to the last element kept. */
  lemma {:induction false} DedupSnoc(prev: string, xs: seq<string>, x: string)
    ensures Dedup(prev, xs + [x]) == Dedup(prev, xs) + (if x == LastOr(prev, xs) then [] else [x])
    decreases |xs|
  {
    if xs == [] {
      assert Dedup(x, []) == [];
    } else {
      assert (xs + [x])[1..] == xs[1..] + [x];
      if xs[0] == prev {
        DedupSnoc(prev, xs[1..], x);
      } else {
        DedupSnoc(xs[0], xs[1..], x);
      }
    }
  }

  /** The element most recently kept is the element most recently seen: the
      last record handed to `write` is the last record formatted. */
  lemma {:induction false} DedupLast(prev: string, xs: seq<string>)
    ensures LastOr(prev, Dedup(prev, xs)) == LastOr(prev, xs)
    decreases |xs|
  {
    if xs != [] {
      if xs[0] == prev {
        DedupLast(prev, xs[1..]);
      } else {
        DedupLast(xs[0], xs[1..]);
      }
    }
  }

  /** A sequence without repeats, not starting with `prev`, loses nothing. */
  lemma {:induction false} DedupFixpoint(prev: string, xs: seq<string>)
    requires NoAdjacentRepeats(xs)
    requires xs != [] ==> xs[0] != prev
    ensures Dedup(prev, xs) == xs
    decreases |xs|
  {
    if xs != [] {
      DedupFixpoint(xs[0], xs[1..]);
      assert [xs[0]] + xs[1..] == xs;
    }
  }

  /** Removing repeats twice removes nothing more. */
  lemma DedupIdempotent(prev: string, xs: seq<string>)
    ensures Dedup(prev, Dedup(prev, xs)) == Dedup(prev, xs)
  {
    DedupNoRepeats(prev, xs);
    DedupFixpoint(prev, Dedup(prev, xs));
  }

  /** The records a connection writes are the records it formats with
      consecutive repeats removed, `last_reading` standing before the first. */
  lemma {:induction false} SessionWritesDedup(fmt: FloatRenderer, st: PumpState, wakes: seq<Wake>)
    ensures Session(fmt, st, wakes).written == Dedup(st.lastReading, Session(fmt, st, wakes).formatted)
    decreases |wakes|
  {
    if wakes != [] {
      var (next, step) := Cycle(fmt, st, wakes[0]);
      CycleFacts(fmt, st, wakes[0]);
      if !step.Break? {
        SessionWritesDedup(fmt, next, wakes[1..]);
        var rest := Session(fmt, next, wakes[1..]);
        if step.Send? || step.Suppress? {
          assert next.lastReading == step.record;
          assert (FormattedBy(step) + rest.formatted)[1..] == rest.formatted;
        } else {
          assert FormattedBy(step) + rest.formatted == rest.formatted;
        }
      }
    }
  }

  /** The records a connection formats are the renderings of the pipe events of
      the wake-ups it used, from the sample it started with. */
  lemma {:induction false} SessionFormatted(fmt: FloatRenderer, st: PumpState, wakes: seq<Wake>)
    ensures var t := Session(fmt, st, wakes);
      t.formatted == Renders(fmt, st.sample, Events(wakes[..t.used]))
    decreases |wakes|
  {
    if wakes != [] {
      var c := Cycle(fmt, st, wakes[0]);
      CycleFacts(fmt, st, wakes[0]);
      var t := Session(fmt, st, wakes);
      var es := Events(wakes[..t.used]);
      assert es[0] == wakes[0].pipe;
      if c.1.Break? {
        assert es[1..] == [];
      } else {
        SessionFormatted(fmt, c.0, wakes[1..]);
        var rest := Session(fmt, c.0, wakes[1..]);
        assert es[1..] == Events(wakes[1..][..rest.used]);
      }
    }
  }

  /** A fresh connection that has read no sample yet formats only the
      rendering of `InitialSample`. */
  lemma FreshSessionFormatsInitialSample(fmt: FloatRenderer, wakes: seq<Wake>)
    requires forall i :: 0 <= i < |wakes| ==> !wakes[i].pipe.Full?
    ensures var t := Session(fmt, Fresh, wakes);
      forall i :: 0 <= i < |t.formatted| ==> t.formatted[i] == Record(fmt, InitialSample)
  {
    var t := Session(fmt, Fresh, wakes);
    SessionFormatted(fmt, Fresh, wakes);
    RendersWithoutFullRead(fmt, InitialSample, Events(wakes[..t.used]));
  }

  /** No connection ever writes the same record twice in a row. */
  lemma SessionNoRepeatedWrites(fmt: FloatRenderer, st: PumpState, wakes: seq<Wake>)
    ensures NoAdjacentRepeats(Session(fmt, st, wakes).written)
  {
    SessionWritesDedup(fmt, st, wakes);
    DedupNoRepeats(st.lastReading, Session(fmt, st, wakes).formatted);
  }

  /** On a fresh connection the first record formatted is always written:
      `last_reading` starts empty and no record is empty. */
  lemma {:induction false} SessionFirstRecordWritten(fmt: FloatRenderer, wakes: seq<Wake>)
    ensures var t := Session(fmt, Fresh, wakes);
      t.formatted != [] ==> t.written != [] && t.written[0] == t.formatted[0]
  {
    var t := Session(fmt, Fresh, wakes);
    SessionWritesDedup(fmt, Fresh, wakes);
    FormattedNonEmpty(fmt, Fresh, wakes);
    if t.formatted != [] {
      assert t.formatted[0] != "";
    }
  }

  /** Every formatted record is a bounded, non-empty record of some sample. */
  lemma {:induction false} FormattedNonEmpty(fmt: FloatRenderer, st: PumpState, wakes: seq<Wake>)
    ensures forall i :: 0 <= i < |Session(fmt, st, wakes).formatted| ==>
      0 < |Session(fmt, st, wakes).formatted[i]| <= MAX_TEXT
    decreases |wakes|
  {
    if wakes != [] {
      var (next, step) := Cycle(fmt, st, wakes[0]);
      CycleFacts(fmt, st, wakes[0]);
      if !step.Break? {
        FormattedNonEmpty(fmt, next, wakes[1..]);
      }
    }
  }

  /** While the connection lives, `last_reading` is the record last formatted
      (or what it was, if nothing was formatted). */
  lemma {:induction false} SessionLastReading(fmt: FloatRenderer, st: PumpState, wakes: seq<Wake>)
    ensures var t := Session(fmt, st, wakes);
      !t.broken ==> t.final.lastReading == LastOr(st.lastReading, t.formatted)
    decreases |wakes|
  {
    if wakes != [] {
      var (next, step) := Cycle(fmt, st, wakes[0]);
      CycleFacts(fmt, st, wakes[0]);
      if !step.Break? {
        SessionLastReading(fmt, next, wakes[1..]);
      }
    }
  }

  /** A connection ends only on a write returning -1: when it ended, the last
      wake-up it used got -1 from `write` and a record was written; with no
      such wake-up it does not end. */
  lemma {:induction false} SessionEndsOnFailedWrite(fmt: FloatRenderer, st: PumpState, wakes: seq<Wake>)
    ensures var t := Session(fmt, st, wakes);
      t.broken ==> 1 <= t.used && wakes[t.used - 1].written == -1 && t.written != []
    ensures (forall j :: 0 <= j < |wakes| ==> wakes[j].written != -1) ==> !Session(fmt, st, wakes).broken
    decreases |wakes|
  {
    if wakes != [] {
      var c := Cycle(fmt, st, wakes[0]);
      CycleFacts(fmt, st, wakes[0]);
      if !c.1.Break? {
        SessionEndsOnFailedWrite(fmt, c.0, wakes[1..]);
        var t := Session(fmt, st, wakes);
        var rest := Session(fmt, c.0, wakes[1..]);
        assert t.broken == rest.broken && t.used == rest.used + 1;
        if rest.broken {
          assert wakes[t.used - 1] == wakes[1..][rest.used - 1];
        }
      }
    }
  }

  /** A session's trace does not depend on wake-ups after the one that ended it. */
  lemma {:induction false} SessionIgnoresLaterWakes(fmt: FloatRenderer, st: PumpState, wakes: seq<Wake>, more: seq<Wake>)
    requires Session(fmt, st, wakes).broken
    ensures Session(fmt, st, wakes + more) == Session(fmt, st, wakes)
    decreases |wakes|
  {
    var c := Cycle(fmt, st, wakes[0]);
    assert (wakes + more)[0] == wakes[0];
    if !c.1.Break? {
      assert (wakes + more)[1..] == wakes[1..] + more;
      SessionIgnoresLaterWakes(fmt, c.0, wakes[1..], more);
    }
  }

  /** Two identical samples followed by a different one, on a fresh connection:
      the client receives two records. */
  lemma RepeatedSampleSentOnce(fmt: FloatRenderer, a: Sample, b: Sample, written: int)
    requires written != -1
    requires Record(fmt, a) != Record(fmt, b)
    ensures Session(fmt, Fresh, [Wake(Full(a), written), Wake(Full(a), written), Wake(Full(b), written)]).written
      == [Record(fmt, a), Record(fmt, b)]
  {
    var ra, rb := Record(fmt, a), Record(fmt, b);
    var wa, wb := Wake(Full(a), written), Wake(Full(b), written);
    var s1 := PumpState(a, ra);
    var s3 := PumpState(b, rb);
    assert Cycle(fmt, s1, wb) == (s3, Send(rb, written));
    assert Session(fmt, s1, [wb]) == Trace(s3, [rb], [rb], false, 1) by {
      assert [wb][1..] == [];
    }
    assert Cycle(fmt, s1, wa) == (s1, Suppress(ra));
    assert Session(fmt, s1, [wa, wb]) == Trace(s3, [ra, rb], [rb], false, 2) by {
      assert [wa, wb][1..] == [wb];
    }
    assert Cycle(fmt, Fresh, wa) == (s1, Send(ra, written));
    assert [wa, wa, wb][1..] == [wa, wb];
  }
}
