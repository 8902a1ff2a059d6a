/** MeasuredResponseWriter.go: a response writer that records the status
    code it forwarded (once), the body volume and the elapsed time. */
module Measured {
  import opened Wrappers
  import opened Text
  import opened Http

  /** Five milliseconds in nanoseconds (`time.Millisecond * 5`). */
  const FiveMilliseconds := 5_000_000

  /** The writer's own fields together with the state of the wrapped writer. */
  datatype Meter = Meter(statusCode: int, volume: int, hasWrittenHeaders: bool, wire: Wire)

  /** `NewMeasuredResponseWriter(w)`: nothing recorded yet. */
  function Fresh(wire: Wire): (m: Meter)
    ensures m.statusCode == 0 && m.volume == 0 && !m.hasWrittenHeaders && m.wire == wire
  {
    Meter(0, 0, false, wire)
  }

  /** `Header().Set(name, value)`: passes straight through. */
  function MeterSetHeader(m: Meter, name: string, value: string): (r: Meter)
    ensures r.wire == WireSetHeader(m.wire, name, value)
    ensures r.(wire := m.wire) == m
  {
    m.(wire := WireSetHeader(m.wire, name, value))
  }

  /** `Write(b)`: forwards the bytes and adds the count the wrapped writer
      reports, and nothing else, to the volume. */
  function MeterWrite(m: Meter, b: seq<byte>): (r: (Meter, nat))
    ensures (r.0.wire, r.1) == WireWrite(m.wire, b)
    ensures r.0.volume == m.volume + r.1
    ensures r.0.statusCode == m.statusCode && r.0.hasWrittenHeaders == m.hasWrittenHeaders
  {
    var (wire, n) := WireWrite(m.wire, b);
    (m.(volume := m.volume + n, wire := wire), n)
  }

  /** `WriteHeader(code)`: the first call records the code and forwards it;
      every later call changes nothing at all. */
  function MeterWriteHeader(m: Meter, code: int): (r: Meter)
    ensures m.hasWrittenHeaders ==> r == m
    ensures !m.hasWrittenHeaders ==>
      && r.hasWrittenHeaders && r.statusCode == code && r.volume == m.volume
      && r.wire == WireWriteHeader(m.wire, code)
  {
    if m.hasWrittenHeaders then m
    else m.(statusCode := code, hasWrittenHeaders := true, wire := WireWriteHeader(m.wire, code))
  }

  /** `StatusCode()`: the recorded code, or 200 when none was recorded, so
      a status read from the writer is never 0. */
  function ReportedStatus(statusCode: int): (c: int)
    ensures c != 0
    ensures statusCode != 0 ==> c == statusCode
    ensures statusCode == 0 ==> c == StatusOK
  {
    if statusCode == 0 then StatusOK else statusCode
  }

  /** `Duration()` for a given elapsed time in nanoseconds: under 5 ms it is
      reported as zero, otherwise unchanged. */
  function FloorDuration(elapsed: int): (d: int)
    ensures d == 0 || d >= FiveMilliseconds
    ensures elapsed >= FiveMilliseconds ==> d == elapsed
    ensures elapsed < FiveMilliseconds ==> d == 0
  {
    if elapsed < FiveMilliseconds then 0 else elapsed
  }

  /** Flooring keeps durations in order: a later reading never reports a
      shorter duration. */
  lemma FloorDurationMonotone(e1: int, e2: int)
    requires e1 <= e2
    ensures FloorDuration(e1) <= FloorDuration(e2)
  {
  }

  // ---------------------------------------------------------------------------
  // The writer as the source has it: a class whose methods update its fields
  // ---------------------------------------------------------------------------

  class MeasuredResponseWriter {
    const w: ResponseSink
    const startTime: int
    var statusCode: int
    var volume: int
    var hasWrittenHeaders: bool

    function State(): Meter
      reads this, w
    {
      Meter(statusCode, volume, hasWrittenHeaders, w.State())
    }

    /** `NewMeasuredResponseWriter(w)`, started at clock reading `now`. */
    constructor (w: ResponseSink, now: int)
      ensures this.w == w && startTime == now
      ensures State() == Fresh(w.State())
    {
      this.w := w;
      startTime := now;
      statusCode, volume, hasWrittenHeaders := 0, 0, false;
    }

    /** `Header().Set(name, value)`. */
    method SetHeader(name: string, value: string)
      modifies w
      ensures State() == MeterSetHeader(old(State()), name, value)
    {
      w.SetHeader(name, value);
    }

    method Write(b: seq<byte>) returns (n: nat)
      modifies this, w
      ensures (State(), n) == MeterWrite(old(State()), b)
    {
      n := w.Write(b);
      volume := volume + n;
    }

    method WriteHeader(code: int)
      modifies this, w
      ensures State() == MeterWriteHeader(old(State()), code)
    {
      if hasWrittenHeaders {
        return;
      }
      statusCode := code;
      w.WriteHeader(code);
      hasWrittenHeaders := true;
    }

    function StatusCode(): (c: int)
      reads this
      ensures c == ReportedStatus(statusCode)
      ensures c != 0 && (statusCode != 0 ==> c == statusCode) && (statusCode == 0 ==> c == StatusOK)
    {
      ReportedStatus(statusCode)
    }

    function HasWrittenHeaders(): bool
      reads this
    {
      hasWrittenHeaders
    }

    /** `Duration()` read at clock value `now`. */
    function Duration(now: int): (d: int)
      reads this
      ensures d == FloorDuration(now - startTime)
      ensures d == 0 <==> now - startTime < FiveMilliseconds
      ensures d != 0 ==> d == now - startTime
    {
      FloorDuration(now - startTime)
    }

    function Volume(): int
      reads this
    {
      volume
    }
  }

  // ---------------------------------------------------------------------------
  // Any sequence of calls on a fresh writer
  // ---------------------------------------------------------------------------

  /** One call a user of the writer can make. */
  datatype Call = SetHeaderCall(name: string, value: string) | WriteHeaderCall(code: int) | WriteCall(bytes: seq<byte>)

  function Apply(m: Meter, c: Call): Meter {
    match c
    case SetHeaderCall(name, value) => MeterSetHeader(m, name, value)
    case WriteHeaderCall(code) => MeterWriteHeader(m, code)
    case WriteCall(bytes) => MeterWrite(m, bytes).0
  }

  function Replay(m: Meter, calls: seq<Call>): Meter
    decreases |calls|
  {
    if calls == [] then m else Replay(Apply(m, calls[0]), calls[1..])
  }

  /** The code of the first `WriteHeader` call, if there is one. */
  function FirstHeaderCode(calls: seq<Call>): Option<int>
    decreases |calls|
  {
    if calls == [] then None
    else if calls[0].WriteHeaderCall? then Some(calls[0].code)
    else FirstHeaderCode(calls[1..])
  }

  /** The invariant the writer keeps with the writer it wraps (`base` is the
      wrapped writer's state when the measured writer was created): it
      forwarded exactly the code it recorded, once, and only if it says so,
      and its volume is exactly the number of body bytes added since. */
  ghost predicate Tracks(m: Meter, base: Wire) {
    && m.volume >= 0
    && |m.wire.body| == |base.body| + m.volume
    && m.wire.body[..|base.body|] == base.body
    && m.wire.headerWrites == base.headerWrites + (if m.hasWrittenHeaders then [m.statusCode] else [])
    && (!m.hasWrittenHeaders ==> m.statusCode == 0)
  }

  lemma TracksFresh(base: Wire)
    ensures Tracks(Fresh(base), base)
  {
  }

  /** Every call keeps the invariant. */
  lemma TracksApply(m: Meter, base: Wire, c: Call)
    requires Tracks(m, base)
    ensures Tracks(Apply(m, c), base)
  {
    match c
    case WriteCall(bytes) =>
      var r := Apply(m, c);
      assert r.wire.body == m.wire.body + bytes[..MeterWrite(m, bytes).1];
      assert r.wire.body[..|base.body|] == m.wire.body[..|base.body|];
    case _ =>
  }

  /** What a sequence of calls leaves behind: headers are marked written
      exactly when some `WriteHeader` call was made, the recorded code is that
      of the first such call, and the volume counts every accepted byte. */
  lemma {:induction false} ReplayRecordsFirstCode(m: Meter, calls: seq<Call>)
    ensures var r := Replay(m, calls);
      && r.hasWrittenHeaders == (m.hasWrittenHeaders || FirstHeaderCode(calls).Some?)
      && (m.hasWrittenHeaders ==> r.statusCode == m.statusCode)
      && (!m.hasWrittenHeaders && FirstHeaderCode(calls).Some? ==> r.statusCode == FirstHeaderCode(calls).value)
      && (!m.hasWrittenHeaders && FirstHeaderCode(calls).None? ==> r.statusCode == m.statusCode)
      && r.volume == m.volume + (|r.wire.body| - |m.wire.body|)
    decreases |calls|
  {
    if calls != [] {
      var m1 := Apply(m, calls[0]);
      ReplayRecordsFirstCode(m1, calls[1..]);
      match calls[0]
      case WriteCall(bytes) =>
        assert |m1.wire.body| == |m.wire.body| + MeterWrite(m, bytes).1;
      case _ =>
    }
  }

  /** From a fresh writer: `HasWrittenHeaders` holds iff `WriteHeader` was
      called; `StatusCode` is the first code passed to it, or 200 when it was
      never called; the wrapped writer saw exactly one `WriteHeader` call iff
      headers were written, and none otherwise. */
  lemma {:induction false} FreshWriterAfterCalls(base: Wire, calls: seq<Call>)
    ensures var r := Replay(Fresh(base), calls);
      && (r.hasWrittenHeaders <==> FirstHeaderCode(calls).Some?)
      && ReportedStatus(r.statusCode) == (if FirstHeaderCode(calls).Some? then ReportedStatus(FirstHeaderCode(calls).value) else StatusOK)
      && |r.wire.headerWrites| == |base.headerWrites| + (if r.hasWrittenHeaders then 1 else 0)
      && r.volume == |r.wire.body| - |base.body|
  {
    ReplayRecordsFirstCode(Fresh(base), calls);
    ReplayTracks(Fresh(base), base, calls);
  }

  lemma {:induction false} ReplayTracks(m: Meter, base: Wire, calls: seq<Call>)
    requires Tracks(m, base)
    ensures Tracks(Replay(m, calls), base)
    decreases |calls|
  {
    if calls != [] {
      TracksApply(m, base, calls[0]);
      ReplayTracks(Apply(m, calls[0]), base, calls[1..]);
    }
  }
}
