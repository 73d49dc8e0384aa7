// The cycle-accurate reference model of the one-entry skid buffer.
module SkidBuffer {
  import opened Outcomes
  import opened Numerals

  datatype Skid = Skid(occupied: bool, retained: nat)

  const EMPTY := Skid(false, 0)

  datatype Inputs = Inputs(rstN: bool, sValid: bool, sData: nat, mReady: bool)

  datatype SkidCycle = SkidCycle(
    sReady: bool, mValid: bool, mData: nat,
    inputAccepted: bool, outputAccepted: bool, occupiedAfter: bool)

  function Step(skid: Skid, i: Inputs): (Skid, SkidCycle) {
    var sReady := !skid.occupied || i.mReady;
    var mValid := skid.occupied || i.sValid;
    var mData := if skid.occupied then skid.retained else i.sData;
    var inputAccepted := i.sValid && sReady;
    var outputAccepted := mValid && i.mReady;
    var next :=
      if !i.rstN then EMPTY
      else if inputAccepted && !outputAccepted then Skid(true, i.sData)
      else if outputAccepted && !inputAccepted then Skid(false, skid.retained)
      else if inputAccepted && outputAccepted && skid.occupied then Skid(true, i.sData)
      else skid;
    (next, SkidCycle(sReady, mValid, mData, inputAccepted, outputAccepted, next.occupied))
  }

  function Word(skid: Skid): seq<nat> {
    if skid.occupied then [skid.retained] else []
  }

  class SkidBufferModel {
    const width: nat
    var occupied: bool
    var retained: nat

    function State(): Skid
      reads this
    {
      Skid(occupied, retained)
    }

    static method Create(width: int) returns (r: Result<SkidBufferModel>)
      ensures r.Err? <==> width < 1
      ensures r.Ok? ==> fresh(r.value) && r.value.width == width && r.value.State() == EMPTY
    {
      if width < 1 {
        return Err("width must be positive");
      }
      var model := new SkidBufferModel(width);
      return Ok(model);
    }

    constructor (width: nat)
      ensures this.width == width && State() == EMPTY
    {
      this.width, occupied, retained := width, false, 0;
    }

    // A word outside the configured width is refused before any state changes.
    method Cycle(rstN: bool, sValid: bool, sData: int, mReady: bool) returns (r: Result<SkidCycle>)
      modifies this
      ensures r.Err? <==> sData < 0 || sData >= Pow2(width)
      ensures r.Err? ==> State() == old(State())
      ensures r.Ok? ==> (State(), r.value) == Step(old(State()), Inputs(rstN, sValid, sData, mReady))
    {
      if sData < 0 || sData > Pow2(width) - 1 {
        return Err("s_data is outside the configured width");
      }
      var sReady := !occupied || mReady;
      var mValid := occupied || sValid;
      var mData := if occupied then retained else sData;
      var inputAccepted := sValid && sReady;
      var outputAccepted := mValid && mReady;
      if !rstN {
        occupied, retained := false, 0;
      } else if inputAccepted && !outputAccepted {
        occupied, retained := true, sData;
      } else if outputAccepted && !inputAccepted {
        occupied := false;
      } else if inputAccepted && outputAccepted && occupied {
        occupied, retained := true, sData;
      }
      return Ok(SkidCycle(sReady, mValid, mData, inputAccepted, outputAccepted, occupied));
    }
  }

  // ---- Whole runs ---------------------------------------------------------------------

  datatype Log = Log(accepted: seq<nat>, delivered: seq<nat>)

  function Advance(skid: Skid, log: Log, i: Inputs): (Skid, Log) {
    var (next, c) := Step(skid, i);
    (next,
     if !i.rstN then Log([], []) else
     Log(if c.inputAccepted then log.accepted + [i.sData] else log.accepted,
         if c.outputAccepted then log.delivered + [c.mData] else log.delivered))
  }

  function Run(inputs: seq<Inputs>): (Skid, Log) {
    if inputs == [] then (EMPTY, Log([], [])) else
    var (skid, log) := Run(inputs[..|inputs| - 1]);
    Advance(skid, log, inputs[|inputs| - 1])
  }

  // Nothing is lost, duplicated or reordered: accepted words are the delivered ones followed
  // by the retained word, if there is one.
  lemma {:induction false} StreamLaw(inputs: seq<Inputs>)
    ensures var (skid, log) := Run(inputs); log.accepted == log.delivered + Word(skid)
  {
    if inputs != [] {
      StreamLaw(inputs[..|inputs| - 1]);
    }
  }

  // A stalled output keeps its valid and data until it is taken, whatever the producer does.
  lemma StalledOutputHolds(skid: Skid, i: Inputs, j: Inputs)
    requires i.rstN && Step(skid, i).1.mValid && !i.mReady
    ensures var (next, c) := Step(skid, i);
            Step(next, j).1.mValid && Step(next, j).1.mData == c.mData
  {
  }

  // The words a producer offers, in order.
  function Offered(inputs: seq<Inputs>): seq<nat> {
    if inputs == [] then [] else
    var last := inputs[|inputs| - 1];
    Offered(inputs[..|inputs| - 1]) + (if last.sValid then [last.sData] else [])
  }

  // With the consumer always ready the buffer is transparent: every offered word is accepted
  // and leaves on the same edge, so nothing is ever retained.
  lemma {:induction false} TransparentAtFullRate(inputs: seq<Inputs>)
    requires forall k :: 0 <= k < |inputs| ==> inputs[k].rstN && inputs[k].mReady
    ensures Run(inputs) == (EMPTY, Log(Offered(inputs), Offered(inputs)))
  {
    if inputs != [] {
      var prefix := inputs[..|inputs| - 1];
      TransparentAtFullRate(prefix);
      assert Run(inputs) == Advance(EMPTY, Run(prefix).1, inputs[|inputs| - 1]);
      assert Offered(prefix) + [] == Offered(prefix);
    }
  }

  // What the buffer shows on an edge: the oldest of the retained and the offered word, ready unless a
  // stalled word is in the way, and whether a word stays.
  lemma ShowsOldestWord(skid: Skid, i: Inputs)
    ensures var (next, c) := Step(skid, i); var words := Word(skid) + (if i.sValid then [i.sData] else []);
            && (c.mValid <==> |words| > 0) && (c.mValid ==> c.mData == words[0])
            && (c.sReady <==> |Word(skid)| == 0 || i.mReady)
            && (c.inputAccepted <==> i.sValid && c.sReady) && (c.outputAccepted <==> c.mValid && i.mReady)
            && (c.occupiedAfter <==> |Word(next)| > 0) && (!i.rstN ==> |Word(next)| == 0)
  {
  }
}
