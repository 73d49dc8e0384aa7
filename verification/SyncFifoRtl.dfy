// The register-level FIFO: a ring of `depth` cells with two pointers and a counter. The
// registers change together on the clock edge, so one edge is a function of the registers.
module SyncFifoRtl {
  import opened Numerals
  import Fifo = SyncFifo

  datatype Registers = Registers(memory: seq<nat>, writePointer: nat, readPointer: nat, count: nat)

  // The combinational outputs for one set of inputs.
  datatype Ports = Ports(
    empty: bool, full: bool, level: nat, rdValid: bool, rdData: nat,
    readAccepted: bool, wrReady: bool, writeAccepted: bool)

  function CeilLog2(n: nat): (k: nat)
    requires n >= 1
    ensures Pow2(k) >= n
    ensures k > 0 ==> Pow2(k - 1) < n
  {
    if n == 1 then 0 else CeilLog2((n + 1) / 2) + 1
  }

  function PointerWidth(depth: nat): nat
    requires depth >= 2
  {
    if depth <= 2 then 1 else CeilLog2(depth)
  }

  function LevelWidth(depth: nat): nat {
    CeilLog2(depth + 1)
  }

  // Counting in a register of the given width, which holds values below Pow2(width).
  function Increment(value: nat, width: nat): nat {
    if value + 1 == Pow2(width) then 0 else value + 1
  }

  function Decrement(value: nat, width: nat): nat {
    if value == 0 then Pow2(width) - 1 else value - 1
  }

  // Any register values the hardware can power up with. An access outside the ring reads zero and
  // writes nothing; from a well-formed state it never happens.
  ghost predicate Sized(depth: nat, r: Registers) {
    depth >= 2 && |r.memory| == depth
  }

  ghost predicate WellFormed(width: nat, depth: nat, r: Registers) {
    && Sized(depth, r)
    && r.writePointer < depth && r.readPointer < depth && r.count <= depth
    && r.writePointer == Wrap(depth, r.readPointer + r.count)
    && forall k :: 0 <= k < depth ==> r.memory[k] < Pow2(width)
  }

  function Outputs(depth: nat, r: Registers, i: Fifo.Inputs): Ports
    requires Sized(depth, r)
  {
    var empty := r.count == 0;
    var full := r.count == depth;
    var rdValid := !empty;
    var rdData := if rdValid && r.readPointer < depth then r.memory[r.readPointer] else 0;
    var readAccepted := rdValid && i.rdReady;
    var wrReady := !full || readAccepted;
    Ports(empty, full, r.count, rdValid, rdData, readAccepted, wrReady, i.wrValid && wrReady)
  }

  function Bump(depth: nat, pointer: nat): nat
    requires depth >= 2
  {
    if pointer == depth - 1 then 0 else Increment(pointer, PointerWidth(depth))
  }

  function Next(width: nat, depth: nat, r: Registers, i: Fifo.Inputs): Registers
    requires Sized(depth, r)
  {
    if !i.rstN then Registers(r.memory, 0, 0, 0) else
    var p := Outputs(depth, r, i);
    Registers(
      if p.writeAccepted && r.writePointer < depth
        then r.memory[r.writePointer := Fifo.Masked(width, i.wrData)] else r.memory,
      if p.writeAccepted then Bump(depth, r.writePointer) else r.writePointer,
      if p.readAccepted then Bump(depth, r.readPointer) else r.readPointer,
      if p.writeAccepted && !p.readAccepted then Increment(r.count, LevelWidth(depth))
      else if p.readAccepted && !p.writeAccepted then Decrement(r.count, LevelWidth(depth))
      else r.count)
  }

  // ---- The queue a ring represents ----------------------------------------------------

  // One turn around the ring; the same as the residue modulo the depth.
  function Wrap(depth: nat, a: nat): nat {
    if a < depth then a else a - depth
  }

  lemma WrapIsModulo(depth: nat, a: nat)
    requires a < 2 * depth
    ensures a % depth == Wrap(depth, a)
  {
    if a >= depth {
      assert a / depth == 1;
    }
  }

  ghost function Contents(depth: nat, r: Registers): seq<nat>
    requires |r.memory| == depth && r.readPointer < depth && r.count <= depth
  {
    seq(r.count, k requires 0 <= k < r.count => r.memory[Wrap(depth, r.readPointer + k)])
  }

  // Word k of the queue sits k cells after the read pointer, modulo the depth.
  lemma ContentsByModulo(depth: nat, r: Registers, k: nat)
    requires |r.memory| == depth && r.readPointer < depth && k < r.count <= depth
    ensures Contents(depth, r)[k] == r.memory[(r.readPointer + k) % depth]
  {
    WrapIsModulo(depth, r.readPointer + k);
  }

  // The pointer register is wide enough for every cell, so wrapping at the last cell is
  // stepping modulo the depth, whether or not the depth is a power of two.
  lemma BumpIsModular(depth: nat, pointer: nat)
    requires depth >= 2 && pointer < depth
    ensures Bump(depth, pointer) == Wrap(depth, pointer + 1) == (pointer + 1) % depth
  {
    WrapIsModulo(depth, pointer + 1);
    assert depth <= 2 ==> Pow2(1) == 2 * Pow2(0);
    assert Pow2(PointerWidth(depth)) >= depth;
  }

  lemma CounterNeverWraps(depth: nat, count: nat)
    requires depth >= 2 && count <= depth
    ensures count < depth ==> Increment(count, LevelWidth(depth)) == count + 1
    ensures count > 0 ==> Decrement(count, LevelWidth(depth)) == count - 1
  {
    assert Pow2(LevelWidth(depth)) >= depth + 1;
  }

  // The next registers without register widths: what the transfers do to the ring.
  function Moved(depth: nat, r: Registers, word: nat, write: bool, read: bool): Registers
    requires Sized(depth, r) && r.writePointer < depth
  {
    Registers(
      if write then r.memory[r.writePointer := word] else r.memory,
      if write then Wrap(depth, r.writePointer + 1) else r.writePointer,
      if read then Wrap(depth, r.readPointer + 1) else r.readPointer,
      if write && !read then r.count + 1 else if read && !write && r.count > 0 then r.count - 1 else r.count)
  }

  lemma NextIsMoved(width: nat, depth: nat, r: Registers, i: Fifo.Inputs)
    requires WellFormed(width, depth, r) && i.rstN
    ensures var p := Outputs(depth, r, i);
            Next(width, depth, r, i) == Moved(depth, r, Fifo.Masked(width, i.wrData), p.writeAccepted, p.readAccepted)
  {
    BumpIsModular(depth, r.writePointer);
    BumpIsModular(depth, r.readPointer);
    CounterNeverWraps(depth, r.count);
  }

  ghost function Shifted(queue: seq<nat>, word: nat, write: bool, read: bool): seq<nat>
    requires read ==> queue != []
  {
    (if read then queue[1..] else queue) + (if write then [word] else [])
  }

  lemma MovedStaysWellFormed(width: nat, depth: nat, r: Registers, word: nat, write: bool, read: bool)
    requires WellFormed(width, depth, r) && word < Pow2(width)
    requires (read ==> r.count > 0) && (write ==> r.count < depth || read)
    ensures WellFormed(width, depth, Moved(depth, r, word, write, read))
  {
  }

  // Word k after the move is the written word or an earlier word, shifted by the read.
  lemma MovedCell(width: nat, depth: nat, r: Registers, word: nat, write: bool, read: bool, k: nat)
    requires WellFormed(width, depth, r) && word < Pow2(width)
    requires (read ==> r.count > 0) && (write ==> r.count < depth || read)
    requires k < Moved(depth, r, word, write, read).count
    ensures var n, source := Moved(depth, r, word, write, read), if read then k + 1 else k;
            n.memory[Wrap(depth, n.readPointer + k)]
            == if source < r.count then r.memory[Wrap(depth, r.readPointer + source)] else word
  {
    var n, source := Moved(depth, r, word, write, read), if read then k + 1 else k;
    assert Wrap(depth, n.readPointer + k) == Wrap(depth, r.readPointer + source);
    if source >= r.count {
      assert Wrap(depth, r.readPointer + source) == r.writePointer;
    }
  }

  lemma MovedShiftsContents(width: nat, depth: nat, r: Registers, word: nat, write: bool, read: bool)
    requires WellFormed(width, depth, r) && word < Pow2(width)
    requires (read ==> r.count > 0) && (write ==> r.count < depth || read)
    ensures var n := Moved(depth, r, word, write, read);
            && WellFormed(width, depth, n)
            && Contents(depth, n) == Shifted(Contents(depth, r), word, write, read)
  {
    MovedStaysWellFormed(width, depth, r, word, write, read);
    var n := Moved(depth, r, word, write, read);
    var before, after := Contents(depth, r), Shifted(Contents(depth, r), word, write, read);
    assert |after| == n.count;
    forall k | 0 <= k < n.count
      ensures Contents(depth, n)[k] == after[k]
    {
      MovedCell(width, depth, r, word, write, read, k);
    }
    assert Contents(depth, n) == after;
  }

  // The outputs of the ring are those of the queue it represents.
  lemma RingShowsQueue(width: nat, depth: nat, r: Registers, i: Fifo.Inputs)
    requires WellFormed(width, depth, r) && i.rstN
    ensures var p := Outputs(depth, r, i);
            var (queue, c) := Fifo.Step(width, depth, Contents(depth, r), i);
            && p.wrReady == c.wrReady && p.rdValid == c.rdValid && p.rdData == c.rdData
            && p.writeAccepted == c.writeAccepted && p.readAccepted == c.readAccepted
            && p.level == |Contents(depth, r)|
            && queue == Shifted(Contents(depth, r), Fifo.Masked(width, i.wrData), p.writeAccepted, p.readAccepted)
  {
    assert |Contents(depth, r)| == r.count;
    assert Wrap(depth, r.readPointer + 0) == r.readPointer;
    assert r.count > 0 ==> Contents(depth, r)[0] == r.memory[r.readPointer];
  }

  // The ring refines the reference model: same outputs, same queue, for every depth.
  lemma RingRefinesQueue(width: nat, depth: nat, r: Registers, i: Fifo.Inputs)
    requires WellFormed(width, depth, r) && i.rstN
    ensures var p, n := Outputs(depth, r, i), Next(width, depth, r, i);
            var (queue, c) := Fifo.Step(width, depth, Contents(depth, r), i);
            && WellFormed(width, depth, n)
            && Contents(depth, n) == queue
            && p.wrReady == c.wrReady && p.rdValid == c.rdValid && p.rdData == c.rdData
            && p.writeAccepted == c.writeAccepted && p.readAccepted == c.readAccepted
            && p.level == |Contents(depth, r)|
            && n.count == c.level && (n.count == depth) == c.full && (n.count == 0) == c.empty
  {
    RingShowsQueue(width, depth, r, i);
    RingMovesQueue(width, depth, r, i);
  }

  lemma RingMovesQueue(width: nat, depth: nat, r: Registers, i: Fifo.Inputs)
    requires WellFormed(width, depth, r) && i.rstN
    ensures var p, n := Outputs(depth, r, i), Next(width, depth, r, i);
            && (p.readAccepted ==> Contents(depth, r) != [])
            && WellFormed(width, depth, n) && n.count == |Contents(depth, n)|
            && Contents(depth, n) ==
              Shifted(Contents(depth, r), Fifo.Masked(width, i.wrData), p.writeAccepted, p.readAccepted)
  {
    var p := Outputs(depth, r, i);
    NextIsMoved(width, depth, r, i);
    MovedShiftsContents(width, depth, r, Fifo.Masked(width, i.wrData), p.writeAccepted, p.readAccepted);
  }

  // Reset empties the ring from any register values at all.
  lemma ResetEmpties(width: nat, depth: nat, r: Registers, i: Fifo.Inputs)
    requires Sized(depth, r) && !i.rstN
    requires forall k :: 0 <= k < depth ==> r.memory[k] < Pow2(width)
    ensures var n := Next(width, depth, r, i);
            WellFormed(width, depth, n) && Contents(depth, n) == [] && n.count == 0
  {
  }

  // ---- Whole runs ---------------------------------------------------------------------

  function After(width: nat, depth: nat, r: Registers, inputs: seq<Fifo.Inputs>): (n: Registers)
    requires Sized(depth, r)
    ensures Sized(depth, n)
  {
    if inputs == [] then r
    else Next(width, depth, After(width, depth, r, inputs[..|inputs| - 1]), inputs[|inputs| - 1])
  }

  function QueueAfter(width: nat, depth: nat, queue: seq<nat>, inputs: seq<Fifo.Inputs>): seq<nat> {
    if inputs == [] then queue
    else Fifo.Step(width, depth, QueueAfter(width, depth, queue, inputs[..|inputs| - 1]), inputs[|inputs| - 1]).0
  }

  // Refinement over every sequence of valid, ready and reset inputs.
  lemma {:induction false} RunRefines(width: nat, depth: nat, r: Registers, inputs: seq<Fifo.Inputs>)
    requires WellFormed(width, depth, r)
    ensures var n := After(width, depth, r, inputs);
            && WellFormed(width, depth, n)
            && Contents(depth, n) == QueueAfter(width, depth, Contents(depth, r), inputs)
  {
    if inputs != [] {
      var prefix, last := inputs[..|inputs| - 1], inputs[|inputs| - 1];
      RunRefines(width, depth, r, prefix);
      var n := After(width, depth, r, prefix);
      if last.rstN {
        RingRefinesQueue(width, depth, n, last);
      } else {
        ResetEmpties(width, depth, n, last);
      }
    }
  }
}
