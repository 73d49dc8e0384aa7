// The monitor against the reference model: a finding-free trace is exactly a run of the model.
module MonitorReference {
  import opened Numerals
  import opened Sequences
  import opened FifoMonitor
  import Fifo = SyncFifo

  function InputsOf(e: Edge): Fifo.Inputs {
    Fifo.Inputs(e.rstN, e.wrValid, e.wrData, e.rdReady)
  }

  // The monitor before edge k.
  function MonitorAt(edges: seq<Edge>, k: nat): Monitor
    requires k <= |edges|
  {
    if k == 0 then UNSYNCED else Next(MonitorAt(edges, k - 1), edges[k - 1])
  }

  function ModelNext(width: nat, depth: nat, queue: seq<nat>, e: Edge): seq<nat> {
    Fifo.Step(width, depth, queue, InputsOf(e)).0
  }

  // The model's queue before edge k, when it is started empty before edge `from`.
  function ModelAt(width: nat, depth: nat, edges: seq<Edge>, from: nat, k: nat): seq<nat>
    requires from <= k <= |edges|
    decreases k
  {
    if k == from then [] else ModelNext(width, depth, ModelAt(width, depth, edges, from, k - 1), edges[k - 1])
  }

  // The edge shows what the model does from this queue. Under reset the model reports nothing
  // about the handshakes, so only the state after the edge is compared.
  ghost predicate StepOfModel(width: nat, depth: nat, queue: seq<nat>, e: Edge) {
    var (next, r) := Fifo.Step(width, depth, queue, InputsOf(e));
    && e.levelAfter == r.level && e.fullAfter == r.full && e.emptyAfter == r.empty
    && (e.rstN ==>
          && e.wrReady == r.wrReady && e.rdValid == r.rdValid
          && e.Write() == r.writeAccepted && e.Read() == r.readAccepted
          && (r.readAccepted ==> e.rdData == r.rdData))
  }

  // What the monitor sees beyond the model's interface: the internal acceptance bits, the
  // combinational ready and valid (also under reset), and the two pointers.
  ghost predicate WiresAgree(depth: nat, e: Edge)
    requires depth >= 2
  {
    && e.writeInternal == e.Write() && e.readInternal == e.Read()
    && e.wrReady == (!e.fullBefore || e.Read()) && e.rdValid == !e.emptyBefore
    && e.writePointerAfter == ExpectedPointer(depth, e.rstN, e.writePointerBefore, e.Write())
    && e.readPointerAfter == ExpectedPointer(depth, e.rstN, e.readPointerBefore, e.Read())
  }

  // Level and flags keep their values from one edge to the next.
  ghost predicate Held(edges: seq<Edge>) {
    forall k :: 0 <= k && k + 1 < |edges| ==>
      && edges[k + 1].levelBefore == edges[k].levelAfter
      && edges[k + 1].fullBefore == edges[k].fullAfter
      && edges[k + 1].emptyBefore == edges[k].emptyAfter
  }

  ghost predicate WordsFit(width: nat, edges: seq<Edge>) {
    forall k :: 0 <= k < |edges| ==> edges[k].wrData < Pow2(width)
  }

  // The read, if the monitor can judge it, takes a retained word and shows the oldest one.
  ghost predicate DataAgrees(m: Monitor, e: Edge) {
    e.rstN && e.Read() && m.known ==> m.queue != [] && e.rdData == m.queue[0]
  }

  // An edge that raises nothing.
  ghost predicate Silent(depth: nat, m: Monitor, e: Edge)
    requires depth >= 2
  {
    && WiresAgree(depth, e)
    && e.levelAfter == ExpectedLevel(e)
    && e.fullAfter == (e.levelAfter == depth) && e.emptyAfter == (e.levelAfter == 0)
    && DataAgrees(Synced(m, e), e)
  }

  // The first n edges raise nothing.
  ghost predicate Quiet(depth: nat, edges: seq<Edge>, n: nat)
    requires depth >= 2 && n <= |edges|
  {
    forall k {:trigger Silent(depth, MonitorAt(edges, k), edges[k])} ::
      0 <= k < n ==> Silent(depth, MonitorAt(edges, k), edges[k])
  }

  ghost predicate Accepted(width: nat, depth: nat, queue: seq<nat>, e: Edge)
    requires depth >= 2
  {
    StepOfModel(width, depth, queue, e) && WiresAgree(depth, e)
  }

  // Every edge of from..n is accepted by the model started empty before `from`.
  ghost predicate ModelRun(width: nat, depth: nat, edges: seq<Edge>, from: nat, n: nat)
    requires depth >= 2 && from <= n <= |edges|
  {
    forall k {:trigger Accepted(width, depth, ModelAt(width, depth, edges, from, k), edges[k])} ::
      from <= k < n ==> Accepted(width, depth, ModelAt(width, depth, edges, from, k), edges[k])
  }

  // The registered level and flags before the edge describe this queue.
  ghost predicate Describes(depth: nat, queue: seq<nat>, level: nat, full: bool, empty: bool) {
    level == |queue| && full == (|queue| == depth) && empty == (|queue| == 0)
  }

  lemma NoPortViolation(e: Edge)
    ensures PortViolations(e) == [] <==>
            && e.writeInternal == e.Write() && e.readInternal == e.Read()
            && e.wrReady == (!e.fullBefore || e.Read()) && e.rdValid == !e.emptyBefore
  {
  }

  lemma NoPointerViolation(depth: nat, e: Edge)
    requires depth >= 2
    ensures PointerViolations(depth, e) == [] <==>
            && e.writePointerAfter == ExpectedPointer(depth, e.rstN, e.writePointerBefore, e.Write())
            && e.readPointerAfter == ExpectedPointer(depth, e.rstN, e.readPointerBefore, e.Read())
  {
  }

  lemma AllEmpty<T>(a: seq<T>, b: seq<T>, c: seq<T>, d: seq<T>, e: seq<T>)
    ensures a + b + c + d + e == [] <==> a == [] && b == [] && c == [] && d == [] && e == []
  {
    assert |a + b + c + d + e| == |a| + |b| + |c| + |d| + |e|;
  }

  lemma SilentIffNoViolation(depth: nat, m: Monitor, e: Edge)
    requires depth >= 2
    ensures Silent(depth, m, e) <==> EdgeViolations(depth, m, e) == []
  {
    NoPortViolation(e);
    NoPointerViolation(depth, e);
    AllEmpty(PortViolations(e), LevelViolations(e), StatusViolations(depth, e), PointerViolations(depth, e),
             DataViolations(Synced(m, e), e));
    assert LevelViolations(e) == [] <==> e.levelAfter == ExpectedLevel(e);
    assert StatusViolations(depth, e) == [] <==>
           e.fullAfter == (e.levelAfter == depth) && e.emptyAfter == (e.levelAfter == 0);
    assert DataViolations(Synced(m, e), e) == [] <==> DataAgrees(Synced(m, e), e);
  }

  // One edge out of reset, with the monitor holding the model's queue.
  lemma TransferEdge(width: nat, depth: nat, queue: seq<nat>, e: Edge)
    requires depth >= 2 && Fifo.Fits(width, depth, queue) && e.wrData < Pow2(width) && e.rstN
    requires Describes(depth, queue, e.levelBefore, e.fullBefore, e.emptyBefore)
    ensures Silent(depth, Monitor(queue, true), e) <==>
            StepOfModel(width, depth, queue, e) && WiresAgree(depth, e)
    ensures StepOfModel(width, depth, queue, e) && WiresAgree(depth, e) ==>
            Next(Monitor(queue, true), e) == Monitor(Fifo.Step(width, depth, queue, InputsOf(e)).0, true)
  {
    Fifo.MaskedIsIdentity(width, e.wrData);
  }

  // A reset edge needs no knowledge of the queue.
  lemma ResetEdge(width: nat, depth: nat, m: Monitor, queue: seq<nat>, e: Edge)
    requires depth >= 2 && !e.rstN
    ensures Silent(depth, m, e) <==> StepOfModel(width, depth, queue, e) && WiresAgree(depth, e)
    ensures Next(m, e) == Monitor([], true) && Fifo.Step(width, depth, queue, InputsOf(e)).0 == []
  {
  }

  // What a silent edge leaves behind describes the model's queue again.
  lemma StepDescribes(width: nat, depth: nat, queue: seq<nat>, e: Edge)
    requires Fifo.Fits(width, depth, queue) && StepOfModel(width, depth, queue, e) && depth >= 2
    ensures var next := Fifo.Step(width, depth, queue, InputsOf(e)).0;
            Fifo.Fits(width, depth, next) && Describes(depth, next, e.levelAfter, e.fullAfter, e.emptyAfter)
  {
    Fifo.StepFits(width, depth, queue, InputsOf(e));
  }

  // The shadow queue is the model's queue and the wires after the edge describe it.
  ghost predicate Tracks(width: nat, depth: nat, m: Monitor, queue: seq<nat>, e: Edge) {
    && m == Monitor(queue, true)
    && Fifo.Fits(width, depth, queue)
    && Describes(depth, queue, e.levelAfter, e.fullAfter, e.emptyAfter)
  }

  // One edge of any kind; out of reset the monitor must already hold the model's queue.
  lemma OneEdge(width: nat, depth: nat, m: Monitor, queue: seq<nat>, e: Edge)
    requires depth >= 2 && e.wrData < Pow2(width)
    requires e.rstN ==>
      && m == Monitor(queue, true) && Fifo.Fits(width, depth, queue)
      && Describes(depth, queue, e.levelBefore, e.fullBefore, e.emptyBefore)
    ensures Silent(depth, m, e) <==> Accepted(width, depth, queue, e)
    ensures Silent(depth, m, e) ==> Tracks(width, depth, Next(m, e), ModelNext(width, depth, queue, e), e)
  {
    if e.rstN {
      TransferEdge(width, depth, queue, e);
      if Silent(depth, m, e) {
        StepDescribes(width, depth, queue, e);
      }
    } else {
      ResetEdge(width, depth, m, queue, e);
    }
  }

  lemma QuietGrows(depth: nat, edges: seq<Edge>, n: nat)
    requires depth >= 2 && n < |edges|
    ensures Quiet(depth, edges, n + 1) <==> Quiet(depth, edges, n) && Silent(depth, MonitorAt(edges, n), edges[n])
  {
  }

  lemma ModelRunGrows(width: nat, depth: nat, edges: seq<Edge>, from: nat, n: nat)
    requires depth >= 2 && from <= n < |edges|
    ensures ModelRun(width, depth, edges, from, n + 1) <==>
            ModelRun(width, depth, edges, from, n)
              && Accepted(width, depth, ModelAt(width, depth, edges, from, n), edges[n])
  {
  }

  // Sound and complete in one statement: for a trace that starts in reset and holds level and
  // flags between edges, the monitor is silent on its first n edges exactly when each is the
  // model's step with consistent wires; and then the shadow queue is the model's queue.
  lemma {:induction false} SilentIffModelRun(width: nat, depth: nat, edges: seq<Edge>, n: nat)
    requires depth >= 2 && n <= |edges| && Held(edges) && WordsFit(width, edges)
    requires edges != [] && !edges[0].rstN
    ensures Quiet(depth, edges, n) <==> ModelRun(width, depth, edges, 0, n)
    ensures 0 < n && Quiet(depth, edges, n) ==>
            Tracks(width, depth, MonitorAt(edges, n), ModelAt(width, depth, edges, 0, n), edges[n - 1])
  {
    if n > 0 {
      SilentIffModelRun(width, depth, edges, n - 1);
      QuietGrows(depth, edges, n - 1);
      ModelRunGrows(width, depth, edges, 0, n - 1);
      if Quiet(depth, edges, n - 1) {
        assert n > 1 ==> edges[n - 2 + 1].levelBefore == edges[n - 2].levelAfter;
        OneEdge(width, depth, MonitorAt(edges, n - 1), ModelAt(width, depth, edges, 0, n - 1), edges[n - 1]);
      }
    }
  }

  lemma {:induction false} MonitorAfterPrefix(edges: seq<Edge>, k: nat)
    requires k <= |edges|
    ensures After(edges[..k]) == MonitorAt(edges, k)
  {
    if k > 0 {
      MonitorAfterPrefix(edges, k - 1);
      assert edges[..k][..k - 1] == edges[..k - 1];
    }
  }

  lemma OneMoreSilence(w: Window, depth: nat, edges: seq<Edge>, e: Edge)
    requires depth >= 2 && w.startFs == 0
    ensures |Findings(w, depth, edges + [e])| == 0 <==>
            |Findings(w, depth, edges)| == 0 && Silent(depth, After(edges), e)
  {
    OneMoreEdge(w, depth, edges, e);
    SilentIffNoViolation(depth, After(edges), e);
    var raised := EdgeViolations(depth, After(edges), e);
    assert |Located(w, e.t, raised)| == |raised|;
  }

  lemma OneMorePrefix(w: Window, depth: nat, edges: seq<Edge>, n: nat)
    requires depth >= 2 && w.startFs == 0 && n < |edges|
    ensures |Findings(w, depth, edges[..n + 1])| == 0 <==>
            |Findings(w, depth, edges[..n])| == 0 && Silent(depth, MonitorAt(edges, n), edges[n])
  {
    PrefixGrows(edges, n);
    MonitorAfterPrefix(edges, n);
    OneMoreSilence(w, depth, edges[..n], edges[n]);
  }

  // The report of a whole-trace window is empty exactly when no edge raised anything.
  lemma NoFindingsIffQuiet(w: Window, depth: nat, edges: seq<Edge>, n: nat)
    requires depth >= 2 && w.startFs == 0 && n <= |edges|
    ensures |Findings(w, depth, edges[..n])| == 0 <==> Quiet(depth, edges, n)
  {
    var none := (k: int) => 0 <= k <= |edges| && |Findings(w, depth, edges[..k])| == 0;
    var silent := (k: int) => 0 <= k < |edges| && Silent(depth, MonitorAt(edges, k), edges[k]);
    FindingsStep(w, depth, edges, n, none, silent);
    StepsUpTo(none, silent, n);
    QuietPointwise(depth, edges, n, silent);
  }

  lemma FindingsStep(w: Window, depth: nat, edges: seq<Edge>, n: nat, none: int -> bool, silent: int -> bool)
    requires depth >= 2 && w.startFs == 0 && n <= |edges|
    requires forall k :: 0 <= k <= n ==> (none(k) <==> |Findings(w, depth, edges[..k])| == 0)
    requires forall k :: 0 <= k < n ==> (silent(k) <==> Silent(depth, MonitorAt(edges, k), edges[k]))
    ensures none(0) && forall k :: 0 <= k < n ==> (none(k + 1) <==> none(k) && silent(k))
  {
    assert none(0) by {
      assert |edges[..0]| == 0;
    }
    forall k | 0 <= k < n
      ensures none(k + 1) <==> none(k) && silent(k)
    {
      OneMorePrefix(w, depth, edges, k);
    }
  }

  lemma QuietPointwise(depth: nat, edges: seq<Edge>, n: nat, silent: int -> bool)
    requires depth >= 2 && n <= |edges|
    requires forall k :: 0 <= k < n ==> (silent(k) <==> Silent(depth, MonitorAt(edges, k), edges[k]))
    ensures Quiet(depth, edges, n) <==> forall k :: 0 <= k < n ==> silent(k)
  {
    if Quiet(depth, edges, n) {
      forall k | 0 <= k < n
        ensures silent(k)
      {
        assert Silent(depth, MonitorAt(edges, k), edges[k]);
      }
    }
    if forall k :: 0 <= k < n ==> silent(k) {
      forall k | 0 <= k < n
        ensures Silent(depth, MonitorAt(edges, k), edges[k])
      {
        assert silent(k);
      }
    }
  }

  // The analysis itself: over a whole trace that starts in reset and holds its level and flags,
  // the report has no finding exactly when every edge is a step of the reference model.
  lemma ReportIffModelRun(width: nat, q: Request, trace: seq<Sampled>, edges: seq<Edge>)
    requires Refusal(q, trace).None? && q.startFs == 0
    requires AllKnown(UpTo(trace, q.End())) && edges == Decode(UpTo(trace, q.End()))
    requires edges != [] && !edges[0].rstN && Held(edges) && WordsFit(width, edges)
    ensures ReportOf(q, trace).findings == [] <==> ModelRun(width, q.Depth().value, edges, 0, |edges|)
  {
    assert edges[..|edges|] == edges;
    NoFindingsIffQuiet(q.Selected(), q.Depth().value, edges, |edges|);
    SilentIffModelRun(width, q.Depth().value, edges, |edges|);
  }

  // ---- Traces that do not start in reset ----------------------------------------------

  // Once the queue is known its length is the level, as long as nothing was reported; a reset
  // or drained FIFO is always known.
  lemma {:induction false} KnownLength(depth: nat, edges: seq<Edge>, n: nat)
    requires depth >= 2 && 0 < n <= |edges| && Held(edges) && Quiet(depth, edges, |edges|)
    ensures MonitorAt(edges, n).known ==> |MonitorAt(edges, n).queue| == edges[n - 1].levelAfter
    ensures !edges[n - 1].rstN || edges[n - 1].levelAfter == 0 ==> MonitorAt(edges, n) == Monitor([], true)
  {
    var e, m := edges[n - 1], MonitorAt(edges, n - 1);
    if n > 1 {
      KnownLength(depth, edges, n - 1);
      assert edges[n - 2 + 1].levelBefore == edges[n - 2].levelAfter;
    }
    assert Silent(depth, m, e);
    if e.rstN && Synced(m, e).known {
      assert |Synced(m, e).queue| == e.levelBefore;
      assert e.Read() ==> Synced(m, e).queue != [];
    }
  }

  // Resynchronisation: in any silent trace, from every edge that resets or drains the FIFO on,
  // the rest of the trace is a run of the model started empty, wherever the trace began.
  lemma {:induction false} SoundAfterDrain(width: nat, depth: nat, edges: seq<Edge>, from: nat, n: nat)
    requires depth >= 2 && from < n <= |edges| && Held(edges) && WordsFit(width, edges) && Quiet(depth, edges, |edges|)
    requires !edges[from].rstN || edges[from].levelAfter == 0
    ensures Tracks(width, depth, MonitorAt(edges, n), ModelAt(width, depth, edges, from + 1, n), edges[n - 1])
    ensures ModelRun(width, depth, edges, from + 1, n)
  {
    if n == from + 1 {
      KnownLength(depth, edges, from + 1);
      assert Silent(depth, MonitorAt(edges, from), edges[from]);
    } else {
      SoundAfterDrain(width, depth, edges, from, n - 1);
      OneMoreSound(width, depth, edges, from, n - 1);
    }
  }

  lemma OneMoreSound(width: nat, depth: nat, edges: seq<Edge>, from: nat, k: nat)
    requires depth >= 2 && from < k < |edges| && Held(edges) && WordsFit(width, edges) && Quiet(depth, edges, |edges|)
    requires Tracks(width, depth, MonitorAt(edges, k), ModelAt(width, depth, edges, from + 1, k), edges[k - 1])
    requires ModelRun(width, depth, edges, from + 1, k)
    ensures Tracks(width, depth, MonitorAt(edges, k + 1), ModelAt(width, depth, edges, from + 1, k + 1), edges[k])
    ensures ModelRun(width, depth, edges, from + 1, k + 1)
  {
    assert edges[k - 1 + 1].levelBefore == edges[k - 1].levelAfter;
    assert Silent(depth, MonitorAt(edges, k), edges[k]);
    OneEdge(width, depth, MonitorAt(edges, k), ModelAt(width, depth, edges, from + 1, k), edges[k]);
    ModelRunGrows(width, depth, edges, from + 1, k);
  }

  // What the observations narrate is true of a silent edge: the named transfer changes the level
  // as described.
  lemma NarrationIsTrue(depth: nat, m: Monitor, e: Edge)
    requires depth >= 2 && Silent(depth, m, e)
    ensures EventOf(e).0 == "reset-edge" ==> e.levelAfter == 0
    ensures EventOf(e).0 == "write-transfer" ==> e.levelAfter == e.levelBefore + 1
    ensures EventOf(e).0 == "read-transfer" ==> e.levelAfter + 1 == e.levelBefore
    ensures EventOf(e).0 in {"simultaneous-transfer", "write-blocked", "read-blocked", "idle-edge"} ==>
            e.levelAfter == e.levelBefore
    ensures EventOf(e).0 == "write-blocked" ==> e.fullBefore
    ensures EventOf(e).0 == "read-blocked" ==> e.emptyBefore
  {
  }
}
