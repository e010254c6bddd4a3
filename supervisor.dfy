/** The outer accept loop of the orientation server: a run of connections, each
    served by the reading pump from a fresh state until a write fails. */
module Supervisor {
  import opened Wire
  import opened ReadingPump

  /** The result of one `accept`: it failed, or a client connected and the
      connection then saw these wake-ups. */
  datatype Attempt = Refused | Client(wakes: seq<Wake>)

  /** The connection traces the server produces over a run of accepts. An
      accept failure ends the server thread; a connection that has not failed
      a write keeps the loop, so no later accept happens. */
  function Supervise(fmt: FloatRenderer, attempts: seq<Attempt>): (r: seq<Trace>)
    ensures |r| <= |attempts|
    ensures forall k :: 0 <= k < |r| ==> attempts[k].Client? && r[k] == Session(fmt, Fresh, attempts[k].wakes)
    ensures forall k :: 0 <= k < |r| - 1 ==> r[k].broken
    ensures |r| < |attempts| ==> attempts[|r|].Refused? || (|r| > 0 && !r[|r| - 1].broken)
    decreases |attempts|
  {
    if attempts == [] then []
    else match attempts[0]
      case Refused => []
      case Client(wakes) =>
        var t := Session(fmt, Fresh, wakes);
        if t.broken then [t] + Supervise(fmt, attempts[1..]) else [t]
  }

  /** Every connection, whatever the ones before it wrote, gets the first record
      it formats, and as a whole the records its formatted records without
      repeats, starting from an empty `last_reading`. */
  lemma EveryConnectionStartsFresh(fmt: FloatRenderer, attempts: seq<Attempt>, k: nat)
    requires k < |Supervise(fmt, attempts)|
    ensures var t := Supervise(fmt, attempts)[k];
      && t.written == Dedup("", t.formatted)
      && (t.formatted != [] ==> t.written != [] && t.written[0] == t.formatted[0])
  {
    var t := Supervise(fmt, attempts)[k];
    SessionWritesDedup(fmt, Fresh, attempts[k].wakes);
    SessionFirstRecordWritten(fmt, attempts[k].wakes);
  }

  /** Deduplication does not carry across connections: the connection before
      ended on a failed write after writing a record, and whatever it wrote,
      the next connection writes the first record it formats. */
  lemma NextClientGetsRepeatedRecord(fmt: FloatRenderer, attempts: seq<Attempt>, k: nat)
    requires k + 1 < |Supervise(fmt, attempts)|
    requires Supervise(fmt, attempts)[k + 1].formatted != []
    ensures var r := Supervise(fmt, attempts);
      && r[k].broken && r[k].written != []
      && r[k + 1].written != [] && r[k + 1].written[0] == r[k + 1].formatted[0]
  {
    var r := Supervise(fmt, attempts);
    assert r[k] == Session(fmt, Fresh, attempts[k].wakes);
    assert r[k + 1] == Session(fmt, Fresh, attempts[k + 1].wakes);
    SessionEndsOnFailedWrite(fmt, Fresh, attempts[k].wakes);
    SessionFirstRecordWritten(fmt, attempts[k + 1].wakes);
  }
}
