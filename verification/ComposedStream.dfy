// The FIFO feeding the skid buffer: the FIFO's read side drives the skid's input and the
// skid's ready drives the FIFO's read-ready.
module ComposedStream {
  import opened Outcomes
  import opened Numerals
  import Fifo = SyncFifo
  import Skid = SkidBuffer

  datatype Stream = Stream(queue: seq<nat>, skid: Skid.Skid)

  datatype Inputs = Inputs(rstN: bool, sValid: bool, sData: int, mReady: bool)

  datatype Outputs = Outputs(sReady: bool, accepted: bool, mValid: bool, mData: nat, delivered: bool)

  const START := Stream([], Skid.EMPTY)

  function Occupancy(s: Stream): nat {
    |s.queue| + |Skid.Word(s.skid)|
  }

  // The retained words, oldest first.
  function Held(s: Stream): seq<nat> {
    Skid.Word(s.skid) + s.queue
  }

  // The skid's ready depends only on its state and on the consumer, so the FIFO may be clocked first.
  function LinkReady(s: Stream, i: Inputs): bool {
    !s.skid.occupied || i.mReady
  }

  function Step(width: nat, depth: nat, s: Stream, i: Inputs): (Stream, Outputs) {
    var (queue, f) := Fifo.Step(width, depth, s.queue, Fifo.Inputs(i.rstN, i.sValid, i.sData, LinkReady(s, i)));
    var (skid, c) := Skid.Step(s.skid, Skid.Inputs(i.rstN, f.rdValid, f.rdData, i.mReady));
    (Stream(queue, skid),
     Outputs(f.wrReady, f.writeAccepted, c.mValid, c.mData, i.rstN && c.outputAccepted))
  }

  // Driving the two model objects through the same wires computes Step.
  method Clock(fifo: Fifo.SyncFifoModel, skid: Skid.SkidBufferModel, i: Inputs) returns (o: Outputs)
    requires fifo.Valid() && skid.width == fifo.width
    modifies fifo`queue, skid
    ensures fifo.Valid()
    ensures (Stream(fifo.queue, skid.State()), o)
         == Step(fifo.width, fifo.depth, old(Stream(fifo.queue, skid.State())), i)
  {
    ghost var before := Stream(fifo.queue, skid.State());
    var linkReady := !skid.occupied || i.mReady;
    var f := fifo.Cycle(Fifo.Inputs(i.rstN, i.sValid, i.sData, linkReady));
    assert linkReady == LinkReady(before, i);
    var c := skid.Cycle(i.rstN, f.rdValid, f.rdData, i.mReady);
    assert f.rdValid ==> f.rdData in before.queue;
    o := Outputs(f.wrReady, f.writeAccepted, c.value.mValid, c.value.mData,
                 i.rstN && c.value.outputAccepted);
  }

  // ---- Whole runs ---------------------------------------------------------------------

  datatype Log = Log(accepted: seq<nat>, delivered: seq<nat>)

  function Advance(width: nat, depth: nat, s: Stream, log: Log, i: Inputs): (Stream, Log) {
    var (next, o) := Step(width, depth, s, i);
    (next,
     if !i.rstN then Log([], []) else
     Log(if o.accepted then log.accepted + [Fifo.Masked(width, i.sData)] else log.accepted,
         if o.delivered then log.delivered + [o.mData] else log.delivered))
  }

  function Run(width: nat, depth: nat, inputs: seq<Inputs>): (Stream, Log) {
    if inputs == [] then (START, Log([], [])) else
    var (s, log) := Run(width, depth, inputs[..|inputs| - 1]);
    Advance(width, depth, s, log, inputs[|inputs| - 1])
  }

  ghost predicate Fits(width: nat, depth: nat, s: Stream) {
    Fifo.Fits(width, depth, s.queue)
  }

  ghost predicate Conserved(width: nat, depth: nat, s: Stream, log: Log) {
    && Fits(width, depth, s)
    && log.accepted == log.delivered + Held(s)
  }

  // What the FIFO keeps of its words after the link took one, if it did.
  function Kept(s: Stream, i: Inputs): seq<nat> {
    if |s.queue| > 0 && LinkReady(s, i) then s.queue[1..] else s.queue
  }

  function Entered(width: nat, o: Outputs, i: Inputs): seq<nat> {
    if o.accepted then [Fifo.Masked(width, i.sData)] else []
  }

  lemma FifoMoves(width: nat, depth: nat, s: Stream, i: Inputs)
    requires i.rstN
    ensures var (next, o) := Step(width, depth, s, i); next.queue == Kept(s, i) + Entered(width, o, i)
  {
  }

  lemma SkidMoves(width: nat, depth: nat, s: Stream, i: Inputs)
    requires i.rstN
    ensures var (next, o) := Step(width, depth, s, i);
            && (o.delivered ==> |Held(s)| > 0 && o.mData == Held(s)[0])
            && Skid.Word(next.skid) + Kept(s, i) == if o.delivered then Held(s)[1..] else Held(s)
  {
  }

  // What one edge does to the retained words: the oldest may leave, the newest may enter.
  lemma StepMovesWords(width: nat, depth: nat, s: Stream, i: Inputs)
    requires depth >= 2 && Fits(width, depth, s) && i.rstN
    ensures var (next, o) := Step(width, depth, s, i);
            && Fits(width, depth, next)
            && (o.delivered ==> Held(s) != [] && o.mData == Held(s)[0])
            && Held(next) == (if o.delivered then Held(s)[1..] else Held(s))
                             + (if o.accepted then [Fifo.Masked(width, i.sData)] else [])
  {
    Fifo.StepFits(width, depth, s.queue, Fifo.Inputs(i.rstN, i.sValid, i.sData, LinkReady(s, i)));
    FifoMoves(width, depth, s, i);
    SkidMoves(width, depth, s, i);
    var (next, o) := Step(width, depth, s, i);
    assert Held(next) == (Skid.Word(next.skid) + Kept(s, i)) + Entered(width, o, i);
  }

  lemma AdvanceConserves(width: nat, depth: nat, s: Stream, log: Log, i: Inputs)
    requires depth >= 2 && Conserved(width, depth, s, log)
    ensures var (next, after) := Advance(width, depth, s, log, i); Conserved(width, depth, next, after)
  {
    if i.rstN {
      StepMovesWords(width, depth, s, i);
      var (next, o) := Step(width, depth, s, i);
      if o.delivered {
        assert log.delivered + Held(s) == (log.delivered + [o.mData]) + Held(s)[1..];
      }
    }
  }

  // Composed stream safety, over every run since reset: the accepted words are the delivered
  // words, then the skid's word, then the FIFO's contents; so the occupancy is what was accepted
  // and not yet delivered, and it never exceeds depth + 1.
  lemma {:induction false} StreamSafety(width: nat, depth: nat, inputs: seq<Inputs>)
    requires depth >= 2
    ensures var (s, log) := Run(width, depth, inputs);
            && Conserved(width, depth, s, log)
            && log.accepted == log.delivered + Skid.Word(s.skid) + s.queue
            && Occupancy(s) == |log.accepted| - |log.delivered|
            && Occupancy(s) <= depth + 1
  {
    if inputs != [] {
      var prefix := inputs[..|inputs| - 1];
      StreamSafety(width, depth, prefix);
      var (s, log) := Run(width, depth, prefix);
      AdvanceConserves(width, depth, s, log, inputs[|inputs| - 1]);
    }
    var (s, log) := Run(width, depth, inputs);
    assert log.delivered + Skid.Word(s.skid) + s.queue == log.delivered + Held(s);
  }

  // A word on a stalled output stays on it: valid and data survive until taken or reset.
  lemma StalledOutputHolds(width: nat, depth: nat, s: Stream, i: Inputs, j: Inputs)
    requires i.rstN && j.rstN && !i.mReady && Step(width, depth, s, i).1.mValid
    ensures var (next, o) := Step(width, depth, s, i);
            Step(width, depth, next, j).1.mValid && Step(width, depth, next, j).1.mData == o.mData
  {
  }

  // ---- Exact capacity -----------------------------------------------------------------

  function Offers(words: seq<nat>): seq<Inputs> {
    seq(|words|, k requires 0 <= k < |words| => Inputs(true, true, words[k], false))
  }

  function Accepted(depth: nat, words: seq<nat>): seq<nat> {
    if |words| <= depth + 1 then words else words[..depth + 1]
  }

  // Where the accepted words sit after that many stalled edges.
  function Filled(depth: nat, words: seq<nat>): Stream {
    if |words| <= 1 then Stream(words, Skid.EMPTY)
    else Stream(Accepted(depth, words)[1..], Skid.Skid(true, words[0]))
  }

  lemma OneMoreOffer(width: nat, depth: nat, words: seq<nat>, w: nat)
    requires depth >= 2 && w < Pow2(width)
    ensures var (next, o) := Step(width, depth, Filled(depth, words), Inputs(true, true, w, false));
            && next == Filled(depth, words + [w])
            && !o.delivered
            && (o.accepted <==> |words| <= depth)
  {
    Fifo.MaskedIsIdentity(width, w);
    var grown := words + [w];
    if |words| == 1 {
      assert words[1..] == [];
      assert grown[1..] == [w];
    } else if 2 <= |words| <= depth {
      assert grown[1..] == words[1..] + [w];
    } else if |words| > depth {
      assert Accepted(depth, grown) == Accepted(depth, words);
    }
  }

  // From reset, with the consumer stalled and a word offered on every edge, the first
  // depth + 1 words are accepted and every later one is refused.
  lemma {:induction false} ExactCapacity(width: nat, depth: nat, words: seq<nat>)
    requires depth >= 2 && forall k :: 0 <= k < |words| ==> words[k] < Pow2(width)
    ensures var (s, log) := Run(width, depth, Offers(words));
            && s == Filled(depth, words)
            && log == Log(Accepted(depth, words), [])
            && Occupancy(s) == (if |words| <= depth + 1 then |words| else depth + 1)
  {
    if |words| > 0 {
      var prefix, last := words[..|words| - 1], words[|words| - 1];
      ExactCapacity(width, depth, prefix);
      assert prefix + [last] == words;
      OfferRun(width, depth, prefix, last);
      AcceptedGrows(depth, prefix, last);
      OneMoreOffer(width, depth, prefix, last);
      Fifo.MaskedIsIdentity(width, last);
    }
    FilledOccupancy(depth, words);
  }

  lemma OfferRun(width: nat, depth: nat, prefix: seq<nat>, last: nat)
    ensures var (s, log) := Run(width, depth, Offers(prefix));
            Run(width, depth, Offers(prefix + [last])) == Advance(width, depth, s, log, Inputs(true, true, last, false))
  {
    var words := prefix + [last];
    assert Offers(words)[..|words| - 1] == Offers(prefix);
  }

  lemma AcceptedGrows(depth: nat, prefix: seq<nat>, last: nat)
    ensures Accepted(depth, prefix + [last]) == if |prefix| <= depth then Accepted(depth, prefix) + [last]
            else Accepted(depth, prefix)
  {
    var words := prefix + [last];
    if |prefix| > depth {
      assert words[..depth + 1] == prefix[..depth + 1];
    }
  }

  lemma FilledOccupancy(depth: nat, words: seq<nat>)
    requires depth >= 2
    ensures Occupancy(Filled(depth, words)) == (if |words| <= depth + 1 then |words| else depth + 1)
  {
  }

  // ---- Exact drain --------------------------------------------------------------------

  const DRAIN := Inputs(true, false, 0, true)

  function Drained(width: nat, depth: nat, s: Stream, edges: nat): (Stream, seq<nat>) {
    if edges == 0 then (s, []) else
    var (before, out) := Drained(width, depth, s, edges - 1);
    var (next, o) := Step(width, depth, before, DRAIN);
    (next, if o.delivered then out + [o.mData] else out)
  }

  lemma DrainStep(width: nat, depth: nat, s: Stream)
    requires depth >= 2 && Fits(width, depth, s)
    ensures var (next, o) := Step(width, depth, s, DRAIN);
            && Fits(width, depth, next)
            && (o.delivered <==> Held(s) != [])
            && (o.delivered ==> o.mData == Held(s)[0] && Held(next) == Held(s)[1..])
            && (!o.delivered ==> Held(next) == [])
  {
    StepMovesWords(width, depth, s, DRAIN);
  }

  lemma TakeOne(words: seq<nat>, n: nat)
    requires n < |words|
    ensures words[..n] + [words[n]] == words[..n + 1]
    ensures words[n..] != [] && words[n..][0] == words[n] && words[n..][1..] == words[n + 1..]
  {
  }

  function AtMost(n: nat, bound: nat): nat {
    if n <= bound then n else bound
  }

  // After that many draining edges the first words are out and the others still held.
  ghost predicate Emptied(width: nat, depth: nat, words: seq<nat>, edges: nat, after: Stream, out: seq<nat>) {
    var left := AtMost(edges, |words|);
    Fits(width, depth, after) && out == words[..left] && Held(after) == words[left..]
  }

  lemma OneMoreDrained(width: nat, depth: nat, words: seq<nat>, edges: nat, before: Stream, out: seq<nat>)
    requires depth >= 2 && Emptied(width, depth, words, edges, before, out)
    ensures var (next, o) := Step(width, depth, before, DRAIN);
            Emptied(width, depth, words, edges + 1, next, if o.delivered then out + [o.mData] else out)
  {
    DrainStep(width, depth, before);
    if edges < |words| {
      TakeOne(words, edges);
    }
  }

  // From any state, with the consumer ready and no input, one word leaves per edge in order and
  // the stream is empty after exactly as many edges as it held words.
  lemma {:induction false} ExactDrain(width: nat, depth: nat, s: Stream, edges: nat)
    requires depth >= 2 && Fits(width, depth, s)
    ensures var (after, out) := Drained(width, depth, s, edges);
            && Emptied(width, depth, Held(s), edges, after, out)
            && Occupancy(after) == Occupancy(s) - AtMost(edges, Occupancy(s))
  {
    if edges > 0 {
      ExactDrain(width, depth, s, edges - 1);
      var (before, out) := Drained(width, depth, s, edges - 1);
      OneMoreDrained(width, depth, Held(s), edges - 1, before, out);
    }
    HeldLength(s);
    HeldLength(Drained(width, depth, s, edges).0);
  }

  lemma HeldLength(s: Stream)
    ensures |Held(s)| == Occupancy(s)
  {
  }

  // With the consumer always ready the stream never fills: every offered word is accepted.
  lemma {:induction false} FullRate(width: nat, depth: nat, inputs: seq<Inputs>, i: Inputs)
    requires depth >= 2 && i.rstN && i.mReady
    ensures var s := Run(width, depth, inputs).0; Step(width, depth, s, i).1.accepted <==> i.sValid
  {
    StreamSafety(width, depth, inputs);
  }
}
