// The monitor never accuses the ring buffer: every run of the register-level FIFO, for every
// depth and every input sequence, samples into a silent trace.
module MonitorRtl {
  import opened Outcomes
  import opened Numerals
  import opened Sequences
  import opened FifoMonitor
  import opened MonitorReference
  import Fifo = SyncFifo
  import Rtl = SyncFifoRtl

  // What the waveform shows around one clock edge at time t.
  function Sample(width: nat, depth: nat, t: nat, r: Rtl.Registers, i: Fifo.Inputs): Edge
    requires Rtl.Sized(depth, r)
  {
    var p, n := Rtl.Outputs(depth, r, i), Rtl.Next(width, depth, r, i);
    Edge(t, i.rstN,
         i.wrValid, p.wrReady, p.writeAccepted, Fifo.Masked(width, i.wrData),
         p.rdValid, i.rdReady, p.readAccepted, p.rdData,
         p.level, n.count, p.full, n.count == depth, p.empty, n.count == 0,
         r.writePointer, n.writePointer, r.readPointer, n.readPointer)
  }

  // Inputs with the time of their edge.
  function Samples(width: nat, depth: nat, r: Rtl.Registers, inputs: seq<(nat, Fifo.Inputs)>): (edges: seq<Edge>)
    requires Rtl.Sized(depth, r)
    ensures |edges| == |inputs|
    decreases |inputs|
  {
    if inputs == [] then [] else
    [Sample(width, depth, inputs[0].0, r, inputs[0].1)]
    + Samples(width, depth, Rtl.Next(width, depth, r, inputs[0].1), inputs[1..])
  }

  // What the monitor knows of the queue, it knows right.
  ghost predicate Agrees(depth: nat, m: Monitor, r: Rtl.Registers)
    requires |r.memory| == depth && r.readPointer < depth && r.count <= depth
  {
    m.known ==> m.queue == Rtl.Contents(depth, r)
  }

  lemma WiresAreConsistent(width: nat, depth: nat, t: nat, r: Rtl.Registers, i: Fifo.Inputs)
    requires Rtl.WellFormed(width, depth, r) && i.rstN
    ensures WiresAgree(depth, Sample(width, depth, t, r, i))
  {
    Rtl.BumpIsModular(depth, r.writePointer);
    Rtl.BumpIsModular(depth, r.readPointer);
  }

  lemma TransferIsSilent(width: nat, depth: nat, t: nat, m: Monitor, r: Rtl.Registers, i: Fifo.Inputs)
    requires Rtl.WellFormed(width, depth, r) && Agrees(depth, m, r) && i.rstN
    ensures var e, n := Sample(width, depth, t, r, i), Rtl.Next(width, depth, r, i);
            Silent(depth, m, e) && Rtl.WellFormed(width, depth, n) && Agrees(depth, Next(m, e), n)
  {
    var e, n := Sample(width, depth, t, r, i), Rtl.Next(width, depth, r, i);
    var queue := Rtl.Contents(depth, r);
    Rtl.RingRefinesQueue(width, depth, r, i);
    WiresAreConsistent(width, depth, t, r, i);
    assert |queue| == r.count && |Rtl.Contents(depth, n)| == n.count;
    assert Synced(m, e).known ==> Synced(m, e).queue == queue;
  }

  lemma ResetIsSilent(width: nat, depth: nat, t: nat, m: Monitor, r: Rtl.Registers, i: Fifo.Inputs)
    requires Rtl.Sized(depth, r) && !i.rstN
    requires forall k :: 0 <= k < depth ==> r.memory[k] < Pow2(width)
    ensures var e, n := Sample(width, depth, t, r, i), Rtl.Next(width, depth, r, i);
            Silent(depth, m, e) && Rtl.WellFormed(width, depth, n) && Agrees(depth, Next(m, e), n)
  {
    Rtl.ResetEmpties(width, depth, r, i);
  }

  // The monitor continued over further edges stays silent.
  ghost predicate SilentFrom(depth: nat, m: Monitor, edges: seq<Edge>)
    requires depth >= 2
    decreases |edges|
  {
    edges == [] || (Silent(depth, m, edges[0]) && SilentFrom(depth, Next(m, edges[0]), edges[1..]))
  }

  lemma {:induction false} RunStaysSilent(width: nat, depth: nat, m: Monitor, r: Rtl.Registers,
                                          inputs: seq<(nat, Fifo.Inputs)>)
    requires Rtl.WellFormed(width, depth, r) && Agrees(depth, m, r)
    ensures SilentFrom(depth, m, Samples(width, depth, r, inputs))
    decreases |inputs|
  {
    if inputs != [] {
      var (t, i) := inputs[0];
      if i.rstN {
        TransferIsSilent(width, depth, t, m, r, i);
      } else {
        ResetIsSilent(width, depth, t, m, r, i);
      }
      RunStaysSilent(width, depth, Next(m, Sample(width, depth, t, r, i)), Rtl.Next(width, depth, r, i), inputs[1..]);
    }
  }

  lemma {:induction false} SilentFromIsQuiet(depth: nat, edges: seq<Edge>, k: nat, n: nat)
    requires depth >= 2 && k <= n <= |edges|
    requires SilentFrom(depth, MonitorAt(edges, k), edges[k..]) && Quiet(depth, edges, k)
    ensures Quiet(depth, edges, n)
    decreases n - k
  {
    if k < n {
      assert edges[k..][1..] == edges[k + 1..];
      QuietGrows(depth, edges, k);
      SilentFromIsQuiet(depth, edges, k + 1, n);
    }
  }

  // Completeness: from any well-formed registers, or from any power-up values when the first
  // edge resets, every run of the ring is silent to the end.
  lemma NoFalseFindings(width: nat, depth: nat, r: Rtl.Registers, inputs: seq<(nat, Fifo.Inputs)>)
    requires Rtl.Sized(depth, r) && forall k :: 0 <= k < depth ==> r.memory[k] < Pow2(width)
    requires Rtl.WellFormed(width, depth, r) || (inputs != [] && !inputs[0].1.rstN)
    ensures Quiet(depth, Samples(width, depth, r, inputs), |inputs|)
  {
    var edges := Samples(width, depth, r, inputs);
    if Rtl.WellFormed(width, depth, r) {
      RunStaysSilent(width, depth, UNSYNCED, r, inputs);
    } else {
      var (t, i) := inputs[0];
      ResetIsSilent(width, depth, t, UNSYNCED, r, i);
      RunStaysSilent(width, depth, Next(UNSYNCED, edges[0]), Rtl.Next(width, depth, r, i), inputs[1..]);
    }
    assert edges[0..] == edges;
    SilentFromIsQuiet(depth, edges, 0, |edges|);
  }

  // ---- The report over the ring -------------------------------------------------------

  lemma SilentAddsNothing(w: Window, depth: nat, edges: seq<Edge>, e: Edge)
    requires depth >= 2 && |Findings(w, depth, edges)| == 0 && Silent(depth, After(edges), e)
    ensures |Findings(w, depth, edges + [e])| == 0
  {
    OneMoreEdge(w, depth, edges, e);
    SilentIffNoViolation(depth, After(edges), e);
    assert |Located(w, e.t, EdgeViolations(depth, After(edges), e))| == 0;
  }

  lemma NextAddsNothing(w: Window, depth: nat, edges: seq<Edge>, n: nat)
    requires depth >= 2 && n < |edges| && Silent(depth, MonitorAt(edges, n), edges[n])
             && |Findings(w, depth, edges[..n])| == 0
    ensures |Findings(w, depth, edges[..n + 1])| == 0
  {
    PrefixGrows(edges, n);
    MonitorAfterPrefix(edges, n);
    SilentAddsNothing(w, depth, edges[..n], edges[n]);
  }

  // Silent edges give no findings, whatever the window.
  lemma QuietHasNoFindings(w: Window, depth: nat, edges: seq<Edge>, n: nat)
    requires depth >= 2 && n <= |edges| && Quiet(depth, edges, n)
    ensures |Findings(w, depth, edges[..n])| == 0
  {
    var none := (k: int) => 0 <= k <= |edges| && |Findings(w, depth, edges[..k])| == 0;
    assert |edges[..0]| == 0;
    forall k | 0 <= k < n && none(k)
      ensures none(k + 1)
    {
      assert Silent(depth, MonitorAt(edges, k), edges[k]);
      NextAddsNothing(w, depth, edges, k);
    }
    HoldsUpTo(none, n);
  }

  function Recorded(edges: seq<Edge>): seq<Sampled> {
    seq(|edges|, k requires 0 <= k < |edges| => Known(edges[k]))
  }

  lemma RecordedDecodes(edges: seq<Edge>, endFs: nat)
    ensures var rising := UpTo(Recorded(edges), endFs);
            |rising| <= |edges| && AllKnown(rising) && Decode(rising) == edges[..|rising|]
  {
    var rising := UpTo(Recorded(edges), endFs);
    assert rising <= Recorded(edges);
  }

  // What the analysis of a recorded run of the ring returns, for every window it accepts, is a
  // report without findings.
  lemma RingIsNeverReported(width: nat, depth: nat, r: Rtl.Registers, inputs: seq<(nat, Fifo.Inputs)>, q: Request)
    requires Rtl.Sized(depth, r) && forall k :: 0 <= k < depth ==> r.memory[k] < Pow2(width)
    requires Rtl.WellFormed(width, depth, r) || (inputs != [] && !inputs[0].1.rstN)
    requires q.Depth() == Ok(depth) && Refusal(q, Recorded(Samples(width, depth, r, inputs))).None?
    ensures |ReportOf(q, Recorded(Samples(width, depth, r, inputs))).findings| == 0
  {
    var edges := Samples(width, depth, r, inputs);
    var n := |UpTo(Recorded(edges), q.End())|;
    RecordedDecodes(edges, q.End());
    NoFalseFindings(width, depth, r, inputs);
    assert Quiet(depth, edges, n);
    QuietHasNoFindings(q.Selected(), depth, edges, n);
  }
}
