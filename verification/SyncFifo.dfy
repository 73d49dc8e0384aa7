// The bit-accurate reference model of the synchronous FIFO.
module SyncFifo {
  import opened Outcomes
  import opened Numerals

  datatype Inputs = Inputs(rstN: bool, wrValid: bool, wrData: int, rdReady: bool)

  datatype CycleResult = CycleResult(
    wrReady: bool, rdValid: bool, rdData: nat,
    writeAccepted: bool, readAccepted: bool,
    full: bool, empty: bool, level: nat)

  // The words of the queue fit the configured width and the queue fits the depth.
  ghost predicate Fits(width: nat, depth: nat, queue: seq<nat>) {
    |queue| <= depth && forall w :: w in queue ==> w < Pow2(width)
  }

  // Masking with 2^width - 1 keeps the residue, for negative Python integers as well.
  function Masked(width: nat, data: int): (w: nat)
    ensures w < Pow2(width)
  {
    data % Pow2(width)
  }

  lemma MaskedIsIdentity(width: nat, w: nat)
    requires w < Pow2(width)
    ensures Masked(width, w) == w
  {
    Residue(w, Pow2(width));
  }

  // One clock edge: the queue after it and everything the model reports about it.
  function Step(width: nat, depth: nat, queue: seq<nat>, i: Inputs): (seq<nat>, CycleResult) {
    if !i.rstN then ([], CycleResult(false, false, 0, false, false, false, true, 0)) else
    var rdValid := queue != [];
    var readAccepted := rdValid && i.rdReady;
    var wrReady := |queue| < depth || readAccepted;
    var writeAccepted := i.wrValid && wrReady;
    var kept := if readAccepted then queue[1..] else queue;
    var next := if writeAccepted then kept + [Masked(width, i.wrData)] else kept;
    (next, CycleResult(wrReady, rdValid, if rdValid then queue[0] else 0, writeAccepted, readAccepted,
                       |next| == depth, |next| == 0, |next|))
  }

  // Every edge keeps the bounds.
  lemma StepFits(width: nat, depth: nat, queue: seq<nat>, i: Inputs)
    requires Fits(width, depth, queue)
    ensures Fits(width, depth, Step(width, depth, queue, i).0)
  {
  }

  class SyncFifoModel {
    const width: nat
    const depth: nat
    var queue: seq<nat>

    ghost predicate Valid()
      reads this
    {
      width >= 1 && depth >= 2 && Fits(width, depth, queue)
    }

    static method Create(width: int, depth: int) returns (r: Result<SyncFifoModel>)
      ensures r.Err? <==> width < 1 || depth < 2
      ensures r.Ok? ==> fresh(r.value) && r.value.Valid() && r.value.queue == []
                        && r.value.width == width && r.value.depth == depth
    {
      if width < 1 || depth < 2 {
        return Err("FIFO width and depth are out of range");
      }
      var model := new SyncFifoModel(width, depth);
      return Ok(model);
    }

    constructor (width: nat, depth: nat)
      requires width >= 1 && depth >= 2
      ensures Valid() && queue == [] && this.width == width && this.depth == depth
    {
      this.width, this.depth, queue := width, depth, [];
    }

    // The queue changes in place; Step says what one edge is worth.
    method Cycle(i: Inputs) returns (r: CycleResult)
      requires Valid()
      modifies this`queue
      ensures Valid()
      ensures (queue, r) == Step(width, depth, old(queue), i)
    {
      if !i.rstN {
        queue := [];
        return CycleResult(false, false, 0, false, false, false, true, 0);
      }
      var rdValid := queue != [];
      var rdData := if rdValid then queue[0] else 0;
      var readAccepted := rdValid && i.rdReady;
      var wrReady := |queue| < depth || readAccepted;
      var writeAccepted := i.wrValid && wrReady;
      if readAccepted {
        queue := queue[1..];
      }
      if writeAccepted {
        queue := queue + [Masked(width, i.wrData)];
      }
      StepFits(width, depth, old(queue), i);
      r := CycleResult(wrReady, rdValid, rdData, writeAccepted, readAccepted,
                       |queue| == depth, |queue| == 0, |queue|);
    }
  }

  // ---- Whole runs ---------------------------------------------------------------------

  // What crossed the two ports since the last reset.
  datatype Log = Log(accepted: seq<nat>, delivered: seq<nat>)

  function Advance(width: nat, depth: nat, queue: seq<nat>, log: Log, i: Inputs): (seq<nat>, Log) {
    var (next, r) := Step(width, depth, queue, i);
    (next,
     if !i.rstN then Log([], []) else
     Log(if r.writeAccepted then log.accepted + [Masked(width, i.wrData)] else log.accepted,
         if r.readAccepted then log.delivered + [r.rdData] else log.delivered))
  }

  function Run(width: nat, depth: nat, inputs: seq<Inputs>): (seq<nat>, Log) {
    if inputs == [] then ([], Log([], [])) else
    var (queue, log) := Run(width, depth, inputs[..|inputs| - 1]);
    Advance(width, depth, queue, log, inputs[|inputs| - 1])
  }

  // First in, first out over every run: what was accepted is what was delivered followed by
  // what is still queued, and the queue never outgrows the depth.
  lemma {:induction false} FirstInFirstOut(width: nat, depth: nat, inputs: seq<Inputs>)
    ensures var (queue, log) := Run(width, depth, inputs);
            log.accepted == log.delivered + queue && Fits(width, depth, queue)
  {
    if inputs != [] {
      FirstInFirstOut(width, depth, inputs[..|inputs| - 1]);
    }
  }
}
