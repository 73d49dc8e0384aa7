// The waveform monitor: it replays every rising clock edge with its own shadow queue and
// reports each disagreement with the FIFO contract.
module FifoMonitor {
  import opened Outcomes
  import opened Numerals
  import opened Sequences

  const MAX_DEBUG_EDGES := 10_000

  // The values sampled around one rising edge: "before" is the last value strictly before the
  // timestamp, "after" the value at it.
  datatype Edge = Edge(
    t: nat, rstN: bool,
    wrValid: bool, wrReady: bool, writeInternal: bool, wrData: nat,
    rdValid: bool, rdReady: bool, readInternal: bool, rdData: nat,
    levelBefore: nat, levelAfter: nat,
    fullBefore: bool, fullAfter: bool, emptyBefore: bool, emptyAfter: bool,
    writePointerBefore: nat, writePointerAfter: nat,
    readPointerBefore: nat, readPointerAfter: nat)
  {
    // Acceptance as the interface handshake defines it.
    predicate Write() { wrValid && wrReady }
    predicate Read() { rdValid && rdReady }
  }

  // An edge at which some signal has no known binary value stops the analysis.
  datatype Sampled = Unknown(at: nat, signal: string) | Known(edge: Edge)
  {
    function Time(): nat { if Unknown? then at else edge.t }
  }

  datatype Kind =
    | WriteHandshake | ReadHandshake | Backpressure | ReadValid | Level | Full | Empty
    | WritePointer | ReadPointer | Underflow | Ordering

  function KindName(k: Kind): string {
    match k
    case WriteHandshake => "write-handshake"
    case ReadHandshake => "read-handshake"
    case Backpressure => "backpressure"
    case ReadValid => "read-valid"
    case Level => "level"
    case Full => "full"
    case Empty => "empty"
    case WritePointer => "write-pointer"
    case ReadPointer => "read-pointer"
    case Underflow => "underflow"
    case Ordering => "ordering"
  }

  // The signals a finding of each kind points at.
  function KindSignals(k: Kind): seq<string> {
    match k
    case WriteHandshake => ["clk", "wr_valid", "wr_ready", "write_accepted"]
    case ReadHandshake => ["clk", "rd_valid", "rd_ready", "read_accepted"]
    case Backpressure => ["full", "rd_valid", "rd_ready", "wr_ready"]
    case ReadValid => ["empty", "level", "rd_valid"]
    case Level => ["write_accepted", "read_accepted", "level"]
    case Full => ["level", "full"]
    case Empty => ["level", "empty"]
    case WritePointer => ["write_accepted", "write_pointer"]
    case ReadPointer => ["read_accepted", "read_pointer"]
    case Underflow => ["empty", "rd_valid", "read_accepted"]
    case Ordering => ["rd_data", "read_pointer", "write_pointer"]
  }

  datatype Violation = Violation(kind: Kind, requirement: string, expected: string, observed: string)

  // The shadow queue, once the monitor knows what it must hold.
  datatype Monitor = Monitor(queue: seq<nat>, known: bool)

  const UNSYNCED := Monitor([], false)

  function Flag(wrong: bool, v: Violation): seq<Violation> {
    if wrong then [v] else []
  }

  // ---- What one edge is checked for, in report order ----------------------------------

  function HandshakeViolations(e: Edge): seq<Violation> {
    Flag(e.writeInternal != e.Write(),
         Violation(WriteHandshake, "fifo.write", Bit(e.Write()), Bit(e.writeInternal)))
    + Flag(e.readInternal != e.Read(),
           Violation(ReadHandshake, "fifo.read", Bit(e.Read()), Bit(e.readInternal)))
  }

  function ReadinessViolations(e: Edge): seq<Violation> {
    var ready := !e.fullBefore || e.Read();
    Flag(e.wrReady != ready,
         Violation(Backpressure, "fifo.backpressure", Bit(ready), Bit(e.wrReady)))
    + Flag(e.rdValid != !e.emptyBefore,
           Violation(ReadValid, "fifo.status", Bit(!e.emptyBefore), Bit(e.rdValid)))
  }

  function PortViolations(e: Edge): seq<Violation> {
    HandshakeViolations(e) + ReadinessViolations(e)
  }

  function ExpectedLevel(e: Edge): int {
    if !e.rstN then 0
    else e.levelBefore + (if e.Write() then 1 else 0) - (if e.Read() then 1 else 0)
  }

  function ExpectedPointer(depth: nat, rstN: bool, before: nat, moves: bool): nat
    requires depth >= 2
  {
    if !rstN then 0 else if moves then (before + 1) % depth else before
  }

  function LevelRequirement(e: Edge): string {
    if e.Write() && e.Read() then "fifo.simultaneous"
    else if e.Write() then "fifo.write"
    else if e.Read() then "fifo.read"
    else "fifo.status"
  }

  function LevelViolations(e: Edge): seq<Violation> {
    Flag(e.levelAfter != ExpectedLevel(e),
         Violation(Level, LevelRequirement(e), Decimal(ExpectedLevel(e)), Decimal(e.levelAfter)))
  }

  function StatusViolations(depth: nat, e: Edge): seq<Violation> {
    Flag(e.fullAfter != (e.levelAfter == depth),
         Violation(Full, "fifo.status", Bit(e.levelAfter == depth), Bit(e.fullAfter)))
    + Flag(e.emptyAfter != (e.levelAfter == 0),
           Violation(Empty, "fifo.status", Bit(e.levelAfter == 0), Bit(e.emptyAfter)))
  }

  function WritePointerViolations(depth: nat, e: Edge): seq<Violation>
    requires depth >= 2
  {
    var pointer := ExpectedPointer(depth, e.rstN, e.writePointerBefore, e.Write());
    Flag(e.writePointerAfter != pointer,
         Violation(WritePointer, if e.Write() then "fifo.wrap"
                   else "fifo.write", Decimal(pointer), Decimal(e.writePointerAfter)))
  }

  function ReadPointerViolations(depth: nat, e: Edge): seq<Violation>
    requires depth >= 2
  {
    var pointer := ExpectedPointer(depth, e.rstN, e.readPointerBefore, e.Read());
    Flag(e.readPointerAfter != pointer,
         Violation(ReadPointer, if e.Read() then "fifo.wrap"
                   else "fifo.read", Decimal(pointer), Decimal(e.readPointerAfter)))
  }

  function PointerViolations(depth: nat, e: Edge): seq<Violation>
    requires depth >= 2
  {
    WritePointerViolations(depth, e) + ReadPointerViolations(depth, e)
  }

  // An empty level before the edge tells the monitor what the queue holds.
  function Synced(m: Monitor, e: Edge): Monitor {
    if !m.known && e.levelBefore == 0 then Monitor([], true) else m
  }

  function DataViolations(m: Monitor, e: Edge): seq<Violation> {
    if !(e.rstN && e.Read() && m.known) then []
    else if m.queue == [] then
      [Violation(Underflow, "fifo.read", "retained word available", "modeled queue empty")]
    else
      Flag(e.rdData != m.queue[0], Violation(Ordering, "fifo.order", Hex(m.queue[0]), Hex(e.rdData)))
  }

  function EdgeViolations(depth: nat, m: Monitor, e: Edge): seq<Violation>
    requires depth >= 2
  {
    PortViolations(e) + LevelViolations(e) + StatusViolations(depth, e) + PointerViolations(depth, e)
    + DataViolations(Synced(m, e), e)
  }

  function Next(m: Monitor, e: Edge): Monitor {
    if !e.rstN then Monitor([], true) else
    var synced := Synced(m, e);
    if !synced.known then (if e.levelAfter == 0 then Monitor([], true) else synced) else
    var kept := if e.Read() && synced.queue != [] then synced.queue[1..] else synced.queue;
    Monitor(if e.Write() then kept + [e.wrData] else kept, true)
  }

  // The monitor after a whole prefix of edges.
  function After(edges: seq<Edge>): Monitor {
    if edges == [] then UNSYNCED
    else Next(After(edges[..|edges| - 1]), edges[|edges| - 1])
  }

  function ViolationsAt(depth: nat, edges: seq<Edge>, k: nat): seq<Violation>
    requires depth >= 2 && k < |edges|
  {
    EdgeViolations(depth, After(edges[..k]), edges[k])
  }

  // ---- The report ---------------------------------------------------------------------

  // A time scale: at least one femtosecond.
  type Scale = n: nat | 1 <= n witness 1

  datatype Window = Window(session: string, hierarchy: string, startFs: nat, endFs: nat, timescaleFs: Scale)

  datatype Anchor = Anchor(startFs: int, endFs: int, signals: seq<string>, markers: seq<nat>)

  // The kind decides the summary and the next action of a finding.
  datatype Finding = Finding(id: string, kind: Kind, requirement: string, expected: string, observed: string,
                             anchor: Anchor)

  datatype Observation = Observation(id: string, t: nat, event: string, requirements: seq<string>, edge: Edge)

  datatype Report = Report(
    window: Window, depth: nat, markers: seq<nat>,
    observations: seq<Observation>, findings: seq<Finding>)

  function Qualified(hierarchy: string, names: seq<string>): seq<string> {
    seq(|names|, k requires 0 <= k < |names| => hierarchy + "." + names[k])
  }

  function Max(a: int, b: int): int { if a >= b then a else b }
  function Min(a: int, b: int): int { if a <= b then a else b }

  function FindingId(session: string, kind: Kind, t: nat): string {
    session + "." + KindName(kind) + "." + Decimal(t)
  }

  // The interval around a finding, with the fallback for an interval that came out empty.
  function AnchorAt(w: Window, kind: Kind, t: nat): Anchor {
    var start := Max(w.startFs, t - w.timescaleFs);
    var end := Min(w.endFs, t + w.timescaleFs);
    if end <= start
    then Anchor(Max(w.startFs, t - w.timescaleFs), t, Qualified(w.hierarchy, KindSignals(kind)), [t])
    else Anchor(start, end, Qualified(w.hierarchy, KindSignals(kind)), [t])
  }

  function FindingOf(w: Window, t: nat, v: Violation): Finding {
    Finding(FindingId(w.session, v.kind, t), v.kind, v.requirement, v.expected, v.observed, AnchorAt(w, v.kind, t))
  }

  // Findings before the window are computed and dropped.
  function Located(w: Window, t: nat, vs: seq<Violation>): seq<Finding> {
    if t < w.startFs then [] else seq(|vs|, k requires 0 <= k < |vs| => FindingOf(w, t, vs[k]))
  }

  function Findings(w: Window, depth: nat, edges: seq<Edge>): seq<Finding>
    requires depth >= 2
  {
    if edges == [] then [] else
    var last := |edges| - 1;
    Findings(w, depth, edges[..last]) + Located(w, edges[last].t, ViolationsAt(depth, edges, last))
  }

  function EventOf(e: Edge): (string, seq<string>) {
    if !e.rstN then ("reset-edge", ["fifo.reset"])
    else if e.Write() && e.Read() then ("simultaneous-transfer", ["fifo.simultaneous", "fifo.order"])
    else if e.Write() then ("write-transfer", ["fifo.write"])
    else if e.Read() then ("read-transfer", ["fifo.read", "fifo.order"])
    else if e.wrValid && !e.wrReady then ("write-blocked", ["fifo.backpressure"])
    else if e.rdReady && !e.rdValid then ("read-blocked", ["fifo.backpressure"])
    else ("idle-edge", ["fifo.status"])
  }

  function ObservationOf(w: Window, e: Edge): Observation {
    Observation(w.session + ".edge." + Decimal(e.t), e.t, EventOf(e).0, EventOf(e).1, e)
  }

  function Observations(w: Window, edges: seq<Edge>): seq<Observation> {
    if edges == [] then [] else
    var last := edges[|edges| - 1];
    Observations(w, edges[..|edges| - 1]) + (if last.t < w.startFs then [] else [ObservationOf(w, last)])
  }

  // ---- The whole analysis -------------------------------------------------------------

  // The transitions of a signal up to a time; the index keeps them in time order.
  function UpTo(trace: seq<Sampled>, endFs: nat): (kept: seq<Sampled>)
    ensures kept <= trace
  {
    if trace == [] then []
    else if trace[|trace| - 1].Time() <= endFs then trace
    else var kept := UpTo(trace[..|trace| - 1], endFs);
         assert trace[..|trace| - 1] <= trace;
         kept
  }

  function TimesFrom(trace: seq<Sampled>, startFs: nat): seq<nat> {
    if trace == [] then [] else
    var last := trace[|trace| - 1].Time();
    TimesFrom(trace[..|trace| - 1], startFs) + (if startFs <= last then [last] else [])
  }

  // An index holds the transitions of a signal in time order.
  ghost predicate InTimeOrder(trace: seq<Sampled>) {
    forall i, j :: 0 <= i < j < |trace| ==> trace[i].Time() <= trace[j].Time()
  }

  // In time order, the kept prefix is exactly the edges up to the end.
  lemma {:induction false} UpToKeepsThrough(trace: seq<Sampled>, endFs: nat)
    requires InTimeOrder(trace)
    ensures forall k :: 0 <= k < |trace| ==> (k < |UpTo(trace, endFs)| <==> trace[k].Time() <= endFs)
  {
    if trace != [] && trace[|trace| - 1].Time() > endFs {
      UpToKeepsThrough(trace[..|trace| - 1], endFs);
    }
  }

  function FirstUnknown(trace: seq<Sampled>): Option<string> {
    if trace == [] then None
    else if trace[0].Unknown? then Some(trace[0].signal)
    else FirstUnknown(trace[1..])
  }

  ghost predicate AllKnown(trace: seq<Sampled>) {
    forall k :: 0 <= k < |trace| ==> trace[k].Known?
  }

  function Decode(trace: seq<Sampled>): (edges: seq<Edge>)
    requires AllKnown(trace)
    ensures |edges| == |trace| && forall k :: 0 <= k < |edges| ==> edges[k] == trace[k].edge
  {
    seq(|trace|, k requires 0 <= k < |trace| => trace[k].edge)
  }

  lemma {:induction false} FirstUnknownFinds(trace: seq<Sampled>)
    ensures FirstUnknown(trace).None? <==> AllKnown(trace)
    ensures forall k :: 0 <= k < |trace| && trace[k].Unknown? && AllKnown(trace[..k])
              ==> FirstUnknown(trace) == Some(trace[k].signal)
  {
    if trace != [] {
      FirstUnknownFinds(trace[1..]);
      if trace[0].Known? {
        assert AllKnown(trace[1..]) ==> AllKnown(trace) by {
          assert forall k :: 0 < k < |trace| ==> trace[k] == trace[1..][k - 1];
        }
        forall k | 0 <= k < |trace| && trace[k].Unknown? && AllKnown(trace[..k])
          ensures FirstUnknown(trace) == Some(trace[k].signal)
        {
          assert trace[1..][..k - 1] == trace[..k][1..];
          assert trace[1..][k - 1] == trace[k];
        }
      } else {
        forall k | 0 < k < |trace|
          ensures !AllKnown(trace[..k])
        {
          assert trace[..k][0] == trace[0];
        }
      }
    }
  }

  // The caller's request: the window, an optional depth, and what the trace itself records.
  datatype Request = Request(
    session: string, hierarchy: string, startFs: int, endFs: Option<int>,
    traceEndFs: nat, timescaleFs: Scale, suppliedDepth: Option<int>, recordedDepth: Option<nat>)
  {
    function End(): int { if endFs.Some? then endFs.value else traceEndFs }

    predicate IntervalValid() { 0 <= startFs <= End() <= traceEndFs }

    function Depth(): (d: Result<int>)
      ensures d.Ok? ==> d.value >= 2
    {
      if suppliedDepth.Some? then
        if suppliedDepth.value < 2 then Err("FIFO depth must be at least two") else Ok(suppliedDepth.value)
      else if recordedDepth.None? then Err("FIFO debug signal is unknown at a sampled edge: DEPTH")
      else if recordedDepth.value < 2 then Err("FIFO depth must be at least two")
      else Ok(recordedDepth.value)
    }

    function Selected(): Window
      requires IntervalValid()
    {
      Window(session, hierarchy, startFs, End(), timescaleFs)
    }
  }

  // The first reason, in the order of the checks, for which no report exists.
  function Refusal(q: Request, trace: seq<Sampled>): Option<string> {
    if !q.IntervalValid() then Some("waveform inspection interval is invalid")
    else if q.End() <= q.startFs then Some("FIFO debug interval must contain time")
    else if q.Depth().Err? then Some(q.Depth().code)
    else
      var rising := UpTo(trace, q.End());
      var markers := TimesFrom(rising, q.startFs);
      if |rising| > MAX_DEBUG_EDGES then Some("FIFO debug edge count exceeds its bound")
      else if markers == [] then Some("FIFO debug interval contains no rising clock edge")
      else if FirstUnknown(rising).Some? then
        Some("FIFO debug signal is unknown at a sampled edge: " + FirstUnknown(rising).value)
      else if !Distinct(markers) then Some("markers must be unique and inside the waveform interval")
      else None
  }

  ghost function ReportOf(q: Request, trace: seq<Sampled>): Report
    requires Refusal(q, trace).None?
  {
    var rising := UpTo(trace, q.End());
    FirstUnknownFinds(rising);
    var edges := Decode(rising);
    var w := q.Selected();
    Report(w, q.Depth().value, TimesFrom(rising, q.startFs),
           Observations(w, edges), Findings(w, q.Depth().value, edges))
  }

  // ---- The replay as the source runs it -----------------------------------------------

  method CheckHandshakes(e: Edge) returns (raised: seq<Violation>)
    ensures raised == HandshakeViolations(e)
  {
    raised := [];
    var writeAccepted := e.wrValid && e.wrReady;
    var readAccepted := e.rdValid && e.rdReady;
    if e.writeInternal != writeAccepted {
      raised := raised + [Violation(WriteHandshake, "fifo.write", Bit(writeAccepted), Bit(e.writeInternal))];
    }
    if e.readInternal != readAccepted {
      raised := raised + [Violation(ReadHandshake, "fifo.read", Bit(readAccepted), Bit(e.readInternal))];
    }
  }

  method CheckReadiness(e: Edge) returns (raised: seq<Violation>)
    ensures raised == ReadinessViolations(e)
  {
    raised := [];
    var expectedReady := !e.fullBefore || (e.rdValid && e.rdReady);
    if e.wrReady != expectedReady {
      raised := raised + [Violation(Backpressure, "fifo.backpressure", Bit(expectedReady), Bit(e.wrReady))];
    }
    if e.rdValid != !e.emptyBefore {
      raised := raised + [Violation(ReadValid, "fifo.status", Bit(!e.emptyBefore), Bit(e.rdValid))];
    }
  }

  method CheckLevel(e: Edge) returns (raised: seq<Violation>)
    ensures raised == LevelViolations(e)
  {
    raised := [];
    var expected := 0;
    if e.rstN {
      expected := e.levelBefore + (if e.wrValid && e.wrReady then 1 else 0) - (if e.rdValid && e.rdReady then 1 else 0);
    }
    if e.levelAfter != expected {
      raised := raised + [Violation(Level, LevelRequirement(e), Decimal(expected), Decimal(e.levelAfter))];
    }
  }

  method CheckStatus(depth: nat, e: Edge) returns (raised: seq<Violation>)
    ensures raised == StatusViolations(depth, e)
  {
    raised := [];
    if e.fullAfter != (e.levelAfter == depth) {
      raised := raised + [Violation(Full, "fifo.status", Bit(e.levelAfter == depth), Bit(e.fullAfter))];
    }
    if e.emptyAfter != (e.levelAfter == 0) {
      raised := raised + [Violation(Empty, "fifo.status", Bit(e.levelAfter == 0), Bit(e.emptyAfter))];
    }
  }

  method CheckPointers(depth: nat, e: Edge) returns (raised: seq<Violation>)
    requires depth >= 2
    ensures raised == PointerViolations(depth, e)
  {
    raised := [];
    var writeAccepted := e.wrValid && e.wrReady;
    var readAccepted := e.rdValid && e.rdReady;
    var writePointer, readPointer := 0, 0;
    if e.rstN {
      writePointer := if writeAccepted then (e.writePointerBefore + 1) % depth else e.writePointerBefore;
      readPointer := if readAccepted then (e.readPointerBefore + 1) % depth else e.readPointerBefore;
    }
    assert writePointer == ExpectedPointer(depth, e.rstN, e.writePointerBefore, e.Write());
    assert readPointer == ExpectedPointer(depth, e.rstN, e.readPointerBefore, e.Read());
    if e.writePointerAfter != writePointer {
      raised := [Violation(WritePointer, if writeAccepted then "fifo.wrap" else "fifo.write",
                                    Decimal(writePointer), Decimal(e.writePointerAfter))];
    }
    assert raised == WritePointerViolations(depth, e);
    if e.readPointerAfter != readPointer {
      raised := raised + [Violation(ReadPointer, if readAccepted then "fifo.wrap" else "fifo.read",
                                    Decimal(readPointer), Decimal(e.readPointerAfter))];
    }
  }

  // The shadow queue pops and appends in place; it also notices that an empty FIFO is known.
  method ShadowTransfer(e: Edge, queuedWords: seq<nat>, queueKnown: bool)
    returns (raised: seq<Violation>, words: seq<nat>, known: bool)
    ensures raised == DataViolations(Synced(Monitor(queuedWords, queueKnown), e), e)
    ensures Monitor(words, known) == Next(Monitor(queuedWords, queueKnown), e)
  {
    raised, words, known := [], queuedWords, queueKnown;
    var writeAccepted := e.wrValid && e.wrReady;
    var readAccepted := e.rdValid && e.rdReady;
    if !known && e.levelBefore == 0 {
      words, known := [], true;
    }
    if !e.rstN {
      words, known := [], true;
    }
    if e.rstN && readAccepted && known {
      if words == [] {
        raised := [Violation(Underflow, "fifo.read", "retained word available", "modeled queue empty")];
      } else {
        var expectedData := words[0];
        words := words[1..];
        if e.rdData != expectedData {
          raised := [Violation(Ordering, "fifo.order", Hex(expectedData), Hex(e.rdData))];
        }
      }
    }
    if e.rstN && writeAccepted && known {
      words := words + [e.wrData];
    }
    if !known && e.levelAfter == 0 {
      words, known := [], true;
    }
  }

  method CheckEdge(depth: nat, e: Edge, queuedWords: seq<nat>, queueKnown: bool)
    returns (raised: seq<Violation>, words: seq<nat>, known: bool)
    requires depth >= 2
    ensures raised == EdgeViolations(depth, Monitor(queuedWords, queueKnown), e)
    ensures Monitor(words, known) == Next(Monitor(queuedWords, queueKnown), e)
  {
    var handshakes := CheckHandshakes(e);
    var readiness := CheckReadiness(e);
    var level := CheckLevel(e);
    var status := CheckStatus(depth, e);
    var pointers := CheckPointers(depth, e);
    var data;
    data, words, known := ShadowTransfer(e, queuedWords, queueKnown);
    raised := handshakes + readiness + level + status + pointers + data;
  }

  lemma OneMoreEdge(w: Window, depth: nat, edges: seq<Edge>, e: Edge)
    requires depth >= 2
    ensures After(edges + [e]) == Next(After(edges), e)
    ensures Findings(w, depth, edges + [e])
         == Findings(w, depth, edges) + Located(w, e.t, EdgeViolations(depth, After(edges), e))
    ensures Observations(w, edges + [e])
         == Observations(w, edges) + (if e.t < w.startFs then [] else [ObservationOf(w, e)])
  {
    assert (edges + [e])[..|edges|] == edges;
  }

  lemma DecodeGrows(trace: seq<Sampled>, k: nat)
    requires k < |trace| && AllKnown(trace[..k]) && trace[k].Known?
    ensures AllKnown(trace[..k + 1])
    ensures Decode(trace[..k + 1]) == Decode(trace[..k]) + [trace[k].edge]
  {
    assert trace[..k + 1] == trace[..k] + [trace[k]];
  }

  // Every rising edge is replayed, also those before the window; only the reporting is windowed.
  method Replay(w: Window, depth: nat, rising: seq<Sampled>)
    returns (r: Result<(seq<Observation>, seq<Finding>)>)
    requires depth >= 2
    ensures r.Ok? <==> AllKnown(rising)
    ensures r.Ok? ==> r.value == (Observations(w, Decode(rising)), Findings(w, depth, Decode(rising)))
    ensures r.Err? ==> FirstUnknown(rising).Some?
                       && r.code == "FIFO debug signal is unknown at a sampled edge: " + FirstUnknown(rising).value
  {
    var observations: seq<Observation> := [];
    var findings: seq<Finding> := [];
    var queuedWords: seq<nat>, queueKnown := [], false;
    for k := 0 to |rising|
      invariant AllKnown(rising[..k])
      invariant Monitor(queuedWords, queueKnown) == After(Decode(rising[..k]))
      invariant findings == Findings(w, depth, Decode(rising[..k]))
      invariant observations == Observations(w, Decode(rising[..k]))
    {
      if rising[k].Unknown? {
        FirstUnknownFinds(rising);
        return Err("FIFO debug signal is unknown at a sampled edge: " + rising[k].signal);
      }
      var e := rising[k].edge;
      DecodeGrows(rising, k);
      OneMoreEdge(w, depth, Decode(rising[..k]), e);
      var raised;
      raised, queuedWords, queueKnown := CheckEdge(depth, e, queuedWords, queueKnown);
      findings := findings + Located(w, e.t, raised);
      if e.t >= w.startFs {
        observations := observations + [ObservationOf(w, e)];
      }
    }
    assert rising[..|rising|] == rising;
    return Ok((observations, findings));
  }

  // The analysis: it either names the first failed check or returns exactly the report.
  method Analyze(q: Request, trace: seq<Sampled>) returns (r: Result<Report>)
    ensures r.Err? <==> Refusal(q, trace).Some?
    ensures r.Err? ==> r.code == Refusal(q, trace).value
    ensures r.Ok? ==> r.value == ReportOf(q, trace)
  {
    if !q.IntervalValid() {
      return Err("waveform inspection interval is invalid");
    }
    if q.End() <= q.startFs {
      return Err("FIFO debug interval must contain time");
    }
    if q.Depth().Err? {
      return Err(q.Depth().code);
    }
    var depth := q.Depth().value;
    var w := q.Selected();
    var rising := UpTo(trace, w.endFs);
    if |rising| > MAX_DEBUG_EDGES {
      return Err("FIFO debug edge count exceeds its bound");
    }
    var markers := TimesFrom(rising, w.startFs);
    if markers == [] {
      return Err("FIFO debug interval contains no rising clock edge");
    }
    FirstUnknownFinds(rising);
    var replayed := Replay(w, depth, rising);
    if replayed.Err? {
      return Err(replayed.code);
    }
    if !Distinct(markers) {
      return Err("markers must be unique and inside the waveform interval");
    }
    return Ok(Report(w, depth, markers, replayed.value.0, replayed.value.1));
  }
}
