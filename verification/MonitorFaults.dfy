// What a finding of the monitor says: each kind names one wire, is raised exactly when that wire is
// wrong, shows the value that was sampled, and expects the value the reference model gives.
module MonitorFaults {
  import opened Outcomes
  import opened Numerals
  import opened Sequences
  import opened FifoMonitor
  import opened MonitorReference
  import opened FifoRepair
  import Fifo = SyncFifo
  import Rtl = SyncFifoRtl

  // Out of reset, one write and one read change the level by one each; in reset it is zero.
  predicate LevelIsWrong(e: Edge) {
    if !e.rstN then e.levelAfter != 0
    else if e.wrValid && e.wrReady && !(e.rdValid && e.rdReady) then e.levelAfter != e.levelBefore + 1
    else if e.rdValid && e.rdReady && !(e.wrValid && e.wrReady) then e.levelAfter + 1 != e.levelBefore
    else e.levelAfter != e.levelBefore
  }

  // A pointer is cleared by reset, moves on a transfer from its own side, and wraps at the depth.
  predicate PointerIsWrong(depth: nat, rstN: bool, moves: bool, before: nat, after: nat)
    requires depth >= 2
  {
    if !rstN then after != 0
    else if !moves then after != before
    else after != (before + 1) % depth
  }

  // A read the monitor can judge, and the queue it judges it by.
  predicate Judged(m: Monitor, e: Edge) {
    e.rstN && e.rdValid && e.rdReady && (m.known || e.levelBefore == 0)
  }

  function Retained(m: Monitor): seq<nat> {
    if m.known then m.queue else []
  }

  // The wire a kind stands for disagrees, in the values sampled at the edge.
  predicate Faulty(depth: nat, m: Monitor, e: Edge, kind: Kind)
    requires depth >= 2
  {
    match kind
    case WriteHandshake => e.writeInternal != (e.wrValid && e.wrReady)
    case ReadHandshake => e.readInternal != (e.rdValid && e.rdReady)
    case Backpressure => e.wrReady == (e.fullBefore && !(e.rdValid && e.rdReady))
    case ReadValid => e.rdValid == e.emptyBefore
    case Level => LevelIsWrong(e)
    case Full => e.fullAfter != (e.levelAfter == depth)
    case Empty => e.emptyAfter != (e.levelAfter == 0)
    case WritePointer => PointerIsWrong(depth, e.rstN, e.wrValid
                                        && e.wrReady, e.writePointerBefore, e.writePointerAfter)
    case ReadPointer => PointerIsWrong(depth, e.rstN, e.rdValid && e.rdReady, e.readPointerBefore, e.readPointerAfter)
    case Underflow => Judged(m, e) && |Retained(m)| == 0
    case Ordering => Judged(m, e) && |Retained(m)| > 0 && e.rdData != Retained(m)[0]
  }

  // The sampled value of that wire.
  function Shown(e: Edge, kind: Kind): string {
    match kind
    case WriteHandshake => Bit(e.writeInternal)
    case ReadHandshake => Bit(e.readInternal)
    case Backpressure => Bit(e.wrReady)
    case ReadValid => Bit(e.rdValid)
    case Level => Decimal(e.levelAfter)
    case Full => Bit(e.fullAfter)
    case Empty => Bit(e.emptyAfter)
    case WritePointer => Decimal(e.writePointerAfter)
    case ReadPointer => Decimal(e.readPointerAfter)
    case Underflow => "modeled queue empty"
    case Ordering => Hex(e.rdData)
  }

  // The clause of the FIFO contract the wire breaks.
  function Clause(e: Edge, kind: Kind): string {
    var put, taken := e.wrValid && e.wrReady, e.rdValid && e.rdReady;
    match kind
    case WriteHandshake => "fifo.write"
    case ReadHandshake => "fifo.read"
    case Backpressure => "fifo.backpressure"
    case ReadValid | Full | Empty => "fifo.status"
    case Level =>
      if put && taken then "fifo.simultaneous" else if put then "fifo.write"
      else if taken then "fifo.read" else "fifo.status"
    case WritePointer => if put then "fifo.wrap" else "fifo.write"
    case ReadPointer => if taken then "fifo.wrap" else "fifo.read"
    case Underflow => "fifo.read"
    case Ordering => "fifo.order"
  }

  // The signal that carries it.
  function Wire(kind: Kind): string {
    match kind
    case WriteHandshake => "write_accepted"
    case ReadHandshake => "read_accepted"
    case Backpressure => "wr_ready"
    case ReadValid => "rd_valid"
    case Level => "level"
    case Full => "full"
    case Empty => "empty"
    case WritePointer => "write_pointer"
    case ReadPointer => "read_pointer"
    case Underflow => "rd_valid"
    case Ordering => "rd_data"
  }

  ghost predicate Names(vs: seq<Violation>, kind: Kind) {
    exists k :: 0 <= k < |vs| && vs[k].kind == kind
  }

  // This part of an edge's violations names exactly the faults of its kinds, with the values sampled.
  ghost predicate Tells(depth: nat, m: Monitor, e: Edge, vs: seq<Violation>, lo: nat, hi: nat)
    requires depth >= 2
  {
    && (forall k :: 0 <= k < |vs| ==>
          lo <= Rank(vs[k].kind) < hi && vs[k].observed == Shown(e, vs[k].kind)
            && vs[k].requirement == Clause(e, vs[k].kind))
    && forall kind :: lo <= Rank(kind) < hi ==> (Names(vs, kind) <==> Faulty(depth, m, e, kind))
  }

  lemma NamesConcat(a: seq<Violation>, b: seq<Violation>, kind: Kind)
    ensures Names(a + b, kind) <==> Names(a, kind) || Names(b, kind)
  {
    if Names(a, kind) {
      var k :| 0 <= k < |a| && a[k].kind == kind;
      assert (a + b)[k].kind == kind;
    }
    if Names(b, kind) {
      var k :| 0 <= k < |b| && b[k].kind == kind;
      assert (a + b)[|a| + k].kind == kind;
    }
  }

  lemma TellsConcat(depth: nat, m: Monitor, e: Edge, a: seq<Violation>, b: seq<Violation>, lo: nat, mid: nat, hi: nat)
    requires depth >= 2 && lo <= mid <= hi && Tells(depth, m, e, a, lo, mid) && Tells(depth, m, e, b, mid, hi)
    ensures Tells(depth, m, e, a + b, lo, hi)
  {
    forall kind | lo <= Rank(kind) < hi
      ensures Names(a + b, kind) <==> Faulty(depth, m, e, kind)
    {
      NamesConcat(a, b, kind);
    }
  }

  // One check of one kind.
  lemma FlagTells(depth: nat, m: Monitor, e: Edge, wrong: bool, v: Violation)
    requires depth >= 2 && v.observed == Shown(e, v.kind) && v.requirement == Clause(e, v.kind)
    requires wrong <==> Faulty(depth, m, e, v.kind)
    ensures Tells(depth, m, e, Flag(wrong, v), Rank(v.kind), Rank(v.kind) + 1)
  {
    forall kind | Rank(kind) == Rank(v.kind)
      ensures Names(Flag(wrong, v), kind) <==> Faulty(depth, m, e, kind)
    {
      assert kind == v.kind;
      assert wrong ==> Flag(wrong, v)[0].kind == kind;
    }
  }

  lemma HandshakesTell(depth: nat, m: Monitor, e: Edge)
    requires depth >= 2
    ensures Tells(depth, m, e, HandshakeViolations(e), 0, 2)
  {
    var w := Violation(WriteHandshake, "fifo.write", Bit(e.Write()), Bit(e.writeInternal));
    var r := Violation(ReadHandshake, "fifo.read", Bit(e.Read()), Bit(e.readInternal));
    FlagTells(depth, m, e, e.writeInternal != e.Write(), w);
    FlagTells(depth, m, e, e.readInternal != e.Read(), r);
    TellsConcat(depth, m, e, Flag(e.writeInternal != e.Write(), w), Flag(e.readInternal != e.Read(), r), 0, 1, 2);
  }

  lemma ReadinessTells(depth: nat, m: Monitor, e: Edge)
    requires depth >= 2
    ensures Tells(depth, m, e, ReadinessViolations(e), 2, 4)
  {
    var ready := !e.fullBefore || e.Read();
    var b := Violation(Backpressure, "fifo.backpressure", Bit(ready), Bit(e.wrReady));
    var v := Violation(ReadValid, "fifo.status", Bit(!e.emptyBefore), Bit(e.rdValid));
    FlagTells(depth, m, e, e.wrReady != ready, b);
    FlagTells(depth, m, e, e.rdValid != !e.emptyBefore, v);
    TellsConcat(depth, m, e, Flag(e.wrReady != ready, b), Flag(e.rdValid != !e.emptyBefore, v), 2, 3, 4);
  }

  lemma LevelTells(depth: nat, m: Monitor, e: Edge)
    requires depth >= 2
    ensures Tells(depth, m, e, LevelViolations(e), 4, 5)
  {
    var v := Violation(Level, LevelRequirement(e), Decimal(ExpectedLevel(e)), Decimal(e.levelAfter));
    FlagTells(depth, m, e, e.levelAfter != ExpectedLevel(e), v);
  }

  lemma StatusTells(depth: nat, m: Monitor, e: Edge)
    requires depth >= 2
    ensures Tells(depth, m, e, StatusViolations(depth, e), 5, 7)
  {
    var full := Violation(Full, "fifo.status", Bit(e.levelAfter == depth), Bit(e.fullAfter));
    var empty := Violation(Empty, "fifo.status", Bit(e.levelAfter == 0), Bit(e.emptyAfter));
    FlagTells(depth, m, e, e.fullAfter != (e.levelAfter == depth), full);
    FlagTells(depth, m, e, e.emptyAfter != (e.levelAfter == 0), empty);
    TellsConcat(depth, m, e, Flag(e.fullAfter != (e.levelAfter == depth), full),
                Flag(e.emptyAfter != (e.levelAfter == 0), empty), 5, 6, 7);
  }

  lemma PointersTell(depth: nat, m: Monitor, e: Edge)
    requires depth >= 2
    ensures Tells(depth, m, e, PointerViolations(depth, e), 7, 9)
  {
    WritePointerTells(depth, m, e);
    ReadPointerTells(depth, m, e);
    TellsConcat(depth, m, e, WritePointerViolations(depth, e), ReadPointerViolations(depth, e), 7, 8, 9);
  }

  lemma WritePointerTells(depth: nat, m: Monitor, e: Edge)
    requires depth >= 2
    ensures Tells(depth, m, e, WritePointerViolations(depth, e), 7, 8)
  {
    var pointer := ExpectedPointer(depth, e.rstN, e.writePointerBefore, e.Write());
    FlagTells(depth, m, e, e.writePointerAfter != pointer,
              Violation(WritePointer, if e.Write() then "fifo.wrap" else "fifo.write", Decimal(pointer),
                        Decimal(e.writePointerAfter)));
  }

  lemma ReadPointerTells(depth: nat, m: Monitor, e: Edge)
    requires depth >= 2
    ensures Tells(depth, m, e, ReadPointerViolations(depth, e), 8, 9)
  {
    var pointer := ExpectedPointer(depth, e.rstN, e.readPointerBefore, e.Read());
    FlagTells(depth, m, e, e.readPointerAfter != pointer,
              Violation(ReadPointer, if e.Read() then "fifo.wrap" else "fifo.read", Decimal(pointer),
                        Decimal(e.readPointerAfter)));
  }

  lemma DataTells(depth: nat, m: Monitor, e: Edge)
    requires depth >= 2
    ensures Tells(depth, m, e, DataViolations(Synced(m, e), e), 9, 11)
  {
    var vs := DataViolations(Synced(m, e), e);
    assert Synced(m, e).known ==> Synced(m, e).queue == Retained(m);
    assert |vs| > 0 ==> vs == [vs[0]];
    forall kind | 9 <= Rank(kind) < 11
      ensures Names(vs, kind) <==> Faulty(depth, m, e, kind)
    {
      assert kind == Underflow || kind == Ordering;
      assert |vs| > 0 ==> (vs[0].kind == kind ==> Names(vs, kind));
    }
  }

  // Over every edge and every state of the shadow queue: a violation of a kind is raised if and only
  // if the wire of that kind disagrees; it shows the value that was sampled and names the clause.
  lemma FindingsNameFaults(depth: nat, m: Monitor, e: Edge)
    requires depth >= 2
    ensures Tells(depth, m, e, EdgeViolations(depth, m, e), 0, 11)
  {
    HandshakesTell(depth, m, e);
    ReadinessTells(depth, m, e);
    LevelTells(depth, m, e);
    StatusTells(depth, m, e);
    PointersTell(depth, m, e);
    DataTells(depth, m, e);
    var h, r, l, s := HandshakeViolations(e), ReadinessViolations(e), LevelViolations(e), StatusViolations(depth, e);
    var p, d := PointerViolations(depth, e), DataViolations(Synced(m, e), e);
    TellsConcat(depth, m, e, h, r, 0, 2, 4);
    TellsConcat(depth, m, e, h + r, l, 0, 4, 5);
    TellsConcat(depth, m, e, h + r + l, s, 0, 5, 7);
    TellsConcat(depth, m, e, h + r + l + s, p, 0, 7, 9);
    TellsConcat(depth, m, e, h + r + l + s + p, d, 0, 9, 11);
  }

  // ---- What the model gives for the wire ----------------------------------------------

  // The value of a wire in the model's report of one edge.
  function ModelShows(r: Fifo.CycleResult, kind: Kind): string {
    match kind
    case WriteHandshake => Bit(r.writeAccepted)
    case ReadHandshake => Bit(r.readAccepted)
    case Backpressure => Bit(r.wrReady)
    case ReadValid => Bit(r.rdValid)
    case Level => Decimal(r.level)
    case Full => Bit(r.full)
    case Empty => Bit(r.empty)
    case Ordering => Hex(r.rdData)
    case Underflow => "retained word available"
    case WritePointer => ""
    case ReadPointer => ""
  }

  // The wires a check starts from are those of the model; only then can it know the right value.
  predicate StartsRight(r: Fifo.CycleResult, e: Edge, kind: Kind) {
    match kind
    case WriteHandshake => e.wrReady == r.wrReady
    case ReadHandshake | Backpressure => e.rdValid == r.rdValid
    case Level => e.rstN ==> e.wrReady == r.wrReady && e.rdValid == r.rdValid
    case Full | Empty => e.levelAfter == r.level
    case ReadValid | Ordering | Underflow => true
    case WritePointer | ReadPointer => false
  }

  // One part of an edge's violations expects what the model shows.
  ghost predicate Expects(r: Fifo.CycleResult, e: Edge, vs: seq<Violation>) {
    forall k :: 0 <= k < |vs| && StartsRight(r, e, vs[k].kind) ==> vs[k].expected == ModelShows(r, vs[k].kind)
  }

  // A monitor that holds the model's queue, whose registered level and flags the edge shows.
  ghost predicate Follows(width: nat, depth: nat, m: Monitor, queue: seq<nat>, e: Edge) {
    && depth >= 2 && m == Monitor(queue, true) && Fifo.Fits(width, depth, queue)
    && Describes(depth, queue, e.levelBefore, e.fullBefore, e.emptyBefore)
  }

  lemma FlagExpects(r: Fifo.CycleResult, e: Edge, wrong: bool, v: Violation)
    requires StartsRight(r, e, v.kind) ==> v.expected == ModelShows(r, v.kind)
    ensures Expects(r, e, Flag(wrong, v))
  {
  }

  lemma HandshakesExpect(width: nat, depth: nat, m: Monitor, queue: seq<nat>, e: Edge)
    requires Follows(width, depth, m, queue, e) && e.rstN
    ensures Expects(Fifo.Step(width, depth, queue, InputsOf(e)).1, e, HandshakeViolations(e))
  {
    var r := Fifo.Step(width, depth, queue, InputsOf(e)).1;
    var put := Violation(WriteHandshake, "fifo.write", Bit(e.Write()), Bit(e.writeInternal));
    var taken := Violation(ReadHandshake, "fifo.read", Bit(e.Read()), Bit(e.readInternal));
    FlagExpects(r, e, e.writeInternal != e.Write(), put);
    FlagExpects(r, e, e.readInternal != e.Read(), taken);
    ExpectsConcat(r, e, Flag(e.writeInternal != e.Write(), put), Flag(e.readInternal != e.Read(), taken));
  }

  lemma ReadinessExpects(width: nat, depth: nat, m: Monitor, queue: seq<nat>, e: Edge)
    requires Follows(width, depth, m, queue, e) && e.rstN
    ensures Expects(Fifo.Step(width, depth, queue, InputsOf(e)).1, e, ReadinessViolations(e))
  {
    var r := Fifo.Step(width, depth, queue, InputsOf(e)).1;
    var ready := !e.fullBefore || e.Read();
    var b := Violation(Backpressure, "fifo.backpressure", Bit(ready), Bit(e.wrReady));
    var v := Violation(ReadValid, "fifo.status", Bit(!e.emptyBefore), Bit(e.rdValid));
    FlagExpects(r, e, e.wrReady != ready, b);
    FlagExpects(r, e, e.rdValid != !e.emptyBefore, v);
    ExpectsConcat(r, e, Flag(e.wrReady != ready, b), Flag(e.rdValid != !e.emptyBefore, v));
  }

  lemma LevelExpects(width: nat, depth: nat, m: Monitor, queue: seq<nat>, e: Edge)
    requires Follows(width, depth, m, queue, e)
    ensures Expects(Fifo.Step(width, depth, queue, InputsOf(e)).1, e, LevelViolations(e))
  {
    var r := Fifo.Step(width, depth, queue, InputsOf(e)).1;
    FlagExpects(r, e, e.levelAfter != ExpectedLevel(e),
                Violation(Level, LevelRequirement(e), Decimal(ExpectedLevel(e)), Decimal(e.levelAfter)));
  }

  lemma StatusExpects(width: nat, depth: nat, queue: seq<nat>, e: Edge)
    requires depth >= 2 && Fifo.Fits(width, depth, queue)
    ensures Expects(Fifo.Step(width, depth, queue, InputsOf(e)).1, e, StatusViolations(depth, e))
  {
    var r := Fifo.Step(width, depth, queue, InputsOf(e)).1;
    var full := Violation(Full, "fifo.status", Bit(e.levelAfter == depth), Bit(e.fullAfter));
    var empty := Violation(Empty, "fifo.status", Bit(e.levelAfter == 0), Bit(e.emptyAfter));
    FlagExpects(r, e, e.fullAfter != (e.levelAfter == depth), full);
    FlagExpects(r, e, e.emptyAfter != (e.levelAfter == 0), empty);
    ExpectsConcat(r, e, Flag(e.fullAfter != (e.levelAfter == depth), full),
                  Flag(e.emptyAfter != (e.levelAfter == 0), empty));
  }

  lemma DataExpects(width: nat, depth: nat, m: Monitor, queue: seq<nat>, e: Edge)
    requires Follows(width, depth, m, queue, e)
    ensures Expects(Fifo.Step(width, depth, queue, InputsOf(e)).1, e, DataViolations(Synced(m, e), e))
  {
  }

  lemma PointersExpect(depth: nat, r: Fifo.CycleResult, e: Edge)
    requires depth >= 2
    ensures Expects(r, e, PointerViolations(depth, e))
  {
  }

  lemma ExpectsConcat(r: Fifo.CycleResult, e: Edge, a: seq<Violation>, b: seq<Violation>)
    requires Expects(r, e, a) && Expects(r, e, b)
    ensures Expects(r, e, a + b)
  {
  }

  // As long as the monitor holds the model's queue, every finding out of reset expects the value the
  // model gives for its wire, unless a wire that check starts from is itself wrong.
  lemma ExpectedIsModels(width: nat, depth: nat, m: Monitor, queue: seq<nat>, e: Edge)
    requires Follows(width, depth, m, queue, e) && e.rstN
    ensures Expects(Fifo.Step(width, depth, queue, InputsOf(e)).1, e, EdgeViolations(depth, m, e))
  {
    var r := Fifo.Step(width, depth, queue, InputsOf(e)).1;
    HandshakesExpect(width, depth, m, queue, e);
    ReadinessExpects(width, depth, m, queue, e);
    ExpectsConcat(r, e, HandshakeViolations(e), ReadinessViolations(e));
    LevelExpects(width, depth, m, queue, e);
    StatusExpects(width, depth, queue, e);
    PointersExpect(depth, r, e);
    DataExpects(width, depth, m, queue, e);
    var p, l, s := PortViolations(e), LevelViolations(e), StatusViolations(depth, e);
    ExpectsConcat(r, e, p, l);
    ExpectsConcat(r, e, p + l, s);
    ExpectsConcat(r, e, p + l + s, PointerViolations(depth, e));
    ExpectsConcat(r, e, p + l + s + PointerViolations(depth, e), DataViolations(Synced(m, e), e));
  }

  // A reset edge expects the level and flags the model shows in reset.
  lemma ResetExpects(width: nat, depth: nat, queue: seq<nat>, e: Edge)
    requires depth >= 2 && Fifo.Fits(width, depth, queue) && !e.rstN
    ensures var r := Fifo.Step(width, depth, queue, InputsOf(e)).1;
            Expects(r, e, LevelViolations(e)) && Expects(r, e, StatusViolations(depth, e))
  {
    StatusExpects(width, depth, queue, e);
  }

  // The pointers of a ring in the state the edge starts from, if its handshakes are the ring's.
  ghost predicate StartsAt(depth: nat, r: Rtl.Registers, e: Edge) {
    && Rtl.Sized(depth, r) && r.writePointer < depth && r.readPointer < depth
    && e.writePointerBefore == r.writePointer && e.readPointerBefore == r.readPointer
    && (e.rstN ==> var p := Rtl.Outputs(depth, r, InputsOf(e));
                   (e.wrValid && e.wrReady) == p.writeAccepted && (e.rdValid && e.rdReady) == p.readAccepted)
  }

  // A pointer finding expects what the ring's registers hold after the edge.
  lemma PointersAreRings(width: nat, depth: nat, r: Rtl.Registers, e: Edge)
    requires StartsAt(depth, r, e)
    ensures var n := Rtl.Next(width, depth, r, InputsOf(e)); var vs := PointerViolations(depth, e);
            forall k :: 0 <= k < |vs| ==>
              vs[k].expected == Decimal(if vs[k].kind == WritePointer then n.writePointer else n.readPointer)
  {
    Rtl.BumpIsModular(depth, r.writePointer);
    Rtl.BumpIsModular(depth, r.readPointer);
  }

  // ---- The findings of a report -------------------------------------------------------

  // The identity of a finding about the level or a flag names the wire.
  lemma KindNamesItsWire(kind: Kind)
    requires kind.Level? || kind.Full? || kind.Empty?
    ensures KindName(kind) == Wire(kind)
  {
  }

  // A finding about one wire at one edge.
  ghost predicate IsAbout(w: Window, e: Edge, f: Finding) {
    && f.id == FindingId(w.session, f.kind, e.t) && f.anchor.markers == [e.t]
    && f.observed == Shown(e, f.kind) && f.requirement == Clause(e, f.kind)
    && w.hierarchy + "." + Wire(f.kind) in f.anchor.signals
  }

  lemma WireIsAnchored(w: Window, kind: Kind, t: nat)
    ensures w.hierarchy + "." + Wire(kind) in AnchorAt(w, kind, t).signals
  {
    var k := WirePlace(kind);
    assert Qualified(w.hierarchy, KindSignals(kind))[k] == w.hierarchy + "." + KindSignals(kind)[k];
  }

  lemma WirePlace(kind: Kind) returns (k: nat)
    ensures k < |KindSignals(kind)| && KindSignals(kind)[k] == Wire(kind)
  {
    match kind
    case WriteHandshake => k := 3;
    case ReadHandshake => k := 3;
    case Backpressure => k := 3;
    case ReadValid => k := 2;
    case Level => k := 2;
    case Full => k := 1;
    case Empty => k := 1;
    case WritePointer => k := 1;
    case ReadPointer => k := 1;
    case Underflow => k := 1;
    case Ordering => k := 0;
  }

  lemma ViolationIsAbout(w: Window, depth: nat, m: Monitor, e: Edge, k: nat)
    requires depth >= 2 && k < |EdgeViolations(depth, m, e)|
    ensures var v := EdgeViolations(depth, m, e)[k];
            IsAbout(w, e, FindingOf(w, e.t, v)) && FindingOf(w, e.t, v).kind == v.kind && Faulty(depth, m, e, v.kind)
  {
    var vs := EdgeViolations(depth, m, e);
    FindingsNameFaults(depth, m, e);
    WireIsAnchored(w, vs[k].kind, e.t);
    assert Names(vs, vs[k].kind);
    assert 0 <= Rank(vs[k].kind) < 11;
  }

  // The finding is about a wire that was wrong at edge k, inside the window.
  ghost predicate Explains(w: Window, depth: nat, edges: seq<Edge>, k: nat, f: Finding)
    requires depth >= 2
  {
    && k < |edges| && edges[k].t >= w.startFs && IsAbout(w, edges[k], f)
    && Faulty(depth, After(edges[..k]), edges[k], f.kind)
  }

  lemma ExplainsLonger(w: Window, depth: nat, edges: seq<Edge>, n: nat, k: nat, f: Finding)
    requires depth >= 2 && n <= |edges| && Explains(w, depth, edges[..n], k, f)
    ensures Explains(w, depth, edges, k, f)
  {
    assert edges[..n][..k] == edges[..k];
  }

  lemma LastExplains(w: Window, depth: nat, edges: seq<Edge>, j: nat)
    requires depth >= 2 && |edges| > 0
    requires var last := |edges| - 1; j < |Located(w, edges[last].t, ViolationsAt(depth, edges, last))|
    ensures var last := |edges| - 1;
            Explains(w, depth, edges, last, Located(w, edges[last].t, ViolationsAt(depth, edges, last))[j])
  {
    var last := |edges| - 1;
    ViolationIsAbout(w, depth, After(edges[..last]), edges[last], j);
  }

  // Every finding of a report is about a wire that was wrong at an edge of the window.
  lemma {:induction false} EveryFindingIsAFault(w: Window, depth: nat, edges: seq<Edge>, i: nat) returns (k: nat)
    requires depth >= 2 && i < |Findings(w, depth, edges)|
    ensures Explains(w, depth, edges, k, Findings(w, depth, edges)[i])
    decreases |edges|
  {
    var last := |edges| - 1;
    var before := Findings(w, depth, edges[..last]);
    if i < |before| {
      k := EveryFindingIsAFault(w, depth, edges[..last], i);
      ExplainsLonger(w, depth, edges, last, k, before[i]);
    } else {
      k := last;
      LastExplains(w, depth, edges, i - |before|);
    }
  }

  // A finding of this kind about edge k.
  ghost predicate Found(w: Window, e: Edge, kind: Kind, findings: seq<Finding>, i: nat) {
    i < |findings| && findings[i].kind == kind && IsAbout(w, e, findings[i])
  }

  // The wire of a kind is wrong at edge k, inside the window.
  ghost predicate WrongAt(w: Window, depth: nat, edges: seq<Edge>, k: nat, kind: Kind)
    requires depth >= 2
  {
    k < |edges| && edges[k].t >= w.startFs && Faulty(depth, After(edges[..k]), edges[k], kind)
  }

  lemma WrongEarlier(w: Window, depth: nat, edges: seq<Edge>, k: nat, kind: Kind)
    requires depth >= 2 && k + 1 < |edges| && WrongAt(w, depth, edges, k, kind)
    ensures WrongAt(w, depth, edges[..|edges| - 1], k, kind)
  {
    assert edges[..|edges| - 1][..k] == edges[..k];
  }

  lemma LocatedIsFound(w: Window, e: Edge, before: seq<Finding>, vs: seq<Violation>, j: nat)
    requires j < |vs| && e.t >= w.startFs && IsAbout(w, e, FindingOf(w, e.t, vs[j]))
    ensures Found(w, e, vs[j].kind, before + Located(w, e.t, vs), |before| + j)
  {
    assert (before + Located(w, e.t, vs))[|before| + j] == FindingOf(w, e.t, vs[j]);
  }

  lemma LastFindings(w: Window, depth: nat, edges: seq<Edge>)
    requires depth >= 2 && |edges| > 0
    ensures var last := |edges| - 1;
            Findings(w, depth, edges) ==
            Findings(w, depth, edges[..last]) + Located(w, edges[last].t,
                                                        EdgeViolations(depth, After(edges[..last]), edges[last]))
  {
  }

  lemma FaultIsAdded(w: Window, depth: nat, before: seq<Finding>, m: Monitor, e: Edge, kind: Kind) returns (i: nat)
    requires depth >= 2 && e.t >= w.startFs && Faulty(depth, m, e, kind)
    ensures Found(w, e, kind, before + Located(w, e.t, EdgeViolations(depth, m, e)), i)
  {
    var j := FaultIsRaised(w, depth, m, e, kind);
    LocatedIsFound(w, e, before, EdgeViolations(depth, m, e), j);
    i := |before| + j;
  }

  lemma FaultAtLast(w: Window, depth: nat, edges: seq<Edge>, kind: Kind) returns (i: nat)
    requires depth >= 2 && |edges| > 0 && WrongAt(w, depth, edges, |edges| - 1, kind)
    ensures Found(w, edges[|edges| - 1], kind, Findings(w, depth, edges), i)
  {
    var last := |edges| - 1;
    i := FaultIsAdded(w, depth, Findings(w, depth, edges[..last]), After(edges[..last]), edges[last], kind);
    LastFindings(w, depth, edges);
  }

  lemma FoundEarlier(w: Window, depth: nat, edges: seq<Edge>, e: Edge, kind: Kind, i: nat)
    requires depth >= 2 && |edges| > 0 && Found(w, e, kind, Findings(w, depth, edges[..|edges| - 1]), i)
    ensures Found(w, e, kind, Findings(w, depth, edges), i)
  {
  }

  // And every wire that was wrong at an edge of the window has its finding.
  lemma {:induction false} EveryFaultIsFound(w: Window, depth: nat, edges: seq<Edge>, k: nat, kind: Kind)
    returns (i: nat)
    requires depth >= 2 && k < |edges| && WrongAt(w, depth, edges, k, kind)
    ensures Found(w, edges[k], kind, Findings(w, depth, edges), i)
    decreases |edges|
  {
    if k + 1 < |edges| {
      WrongEarlier(w, depth, edges, k, kind);
      i := EveryFaultIsFound(w, depth, edges[..|edges| - 1], k, kind);
      FoundEarlier(w, depth, edges, edges[k], kind, i);
    } else {
      i := FaultAtLast(w, depth, edges, kind);
    }
  }

  lemma FaultIsRaised(w: Window, depth: nat, m: Monitor, e: Edge, kind: Kind) returns (j: nat)
    requires depth >= 2 && Faulty(depth, m, e, kind)
    ensures var vs := EdgeViolations(depth, m, e);
            j < |vs| && vs[j].kind == kind && IsAbout(w, e, FindingOf(w, e.t, vs[j]))
  {
    FindingsNameFaults(depth, m, e);
    var vs := EdgeViolations(depth, m, e);
    assert 0 <= Rank(kind) < 11;
    j :| 0 <= j < |vs| && vs[j].kind == kind;
    ViolationIsAbout(w, depth, m, e, j);
  }

  // ---- What the shadow queue holds, whatever was found ---------------------------------

  // The words accepted by the handshake from one edge to another.
  function WordsWritten(edges: seq<Edge>, from: nat, n: nat): seq<nat>
    requires from <= n <= |edges|
    decreases n
  {
    if n == from then [] else
    var before, e := WordsWritten(edges, from, n - 1), edges[n - 1];
    if e.wrValid && e.wrReady then before + [e.wrData] else before
  }

  // How many of them were read by the handshake; a read without a word takes none.
  function WordsTaken(edges: seq<Edge>, from: nat, n: nat): (taken: nat)
    requires from <= n <= |edges|
    ensures taken <= |WordsWritten(edges, from, n)|
    decreases n
  {
    if n == from then 0 else
    var before, e := WordsTaken(edges, from, n - 1), edges[n - 1];
    if e.rdValid && e.rdReady && before < |WordsWritten(edges, from, n - 1)| then before + 1 else before
  }

  ghost predicate OutOfReset(edges: seq<Edge>, from: nat, n: nat)
    requires from <= n <= |edges|
  {
    forall k :: from <= k < n ==> edges[k].rstN
  }

  ghost predicate HoldsRest(edges: seq<Edge>, from: nat, n: nat, m: Monitor)
    requires from <= n <= |edges|
  {
    m == Monitor(WordsWritten(edges, from, n)[WordsTaken(edges, from, n)..], true)
  }

  // From an edge where the queue is known to be empty to the next reset, the shadow queue holds the
  // words written and not yet taken, oldest first, whatever was wrong in between.
  lemma {:induction false} ShadowHoldsTheRest(edges: seq<Edge>, from: nat, n: nat)
    requires from <= n <= |edges| && MonitorAt(edges, from) == Monitor([], true) && OutOfReset(edges, from, n)
    ensures HoldsRest(edges, from, n, MonitorAt(edges, n))
    decreases n
  {
    if n > from {
      ShadowHoldsTheRest(edges, from, n - 1);
      OneMoreWord(edges, from, n, MonitorAt(edges, n - 1));
    }
  }

  lemma OneMoreWord(edges: seq<Edge>, from: nat, n: nat, m: Monitor)
    requires from < n <= |edges| && edges[n - 1].rstN && HoldsRest(edges, from, n - 1, m)
    ensures HoldsRest(edges, from, n, Next(m, edges[n - 1]))
  {
    var written, taken := WordsWritten(edges, from, n - 1), WordsTaken(edges, from, n - 1);
    assert |m.queue| == |written| - taken;
  }

  // When the monitor comes to know the queue: in reset, and wherever the level is seen to be zero.
  lemma KnowsFrom(m: Monitor, e: Edge)
    ensures Next(m, e).known <==> m.known || !e.rstN || e.levelBefore == 0 || e.levelAfter == 0
    ensures !e.rstN ==> Next(m, e) == Monitor([], true)
    ensures e.rstN && !m.known && e.levelBefore == 0 ==>
      Next(m, e) == Monitor(if e.wrValid && e.wrReady then [e.wrData] else [], true)
    ensures e.rstN && !m.known && e.levelBefore > 0 && e.levelAfter == 0 ==> Next(m, e) == Monitor([], true)
  {
  }

  // ---- Requests, anchors and observations ----------------------------------------------

  // Exactly which requests are analysed.
  lemma AnalysedIff(q: Request, trace: seq<Sampled>)
    ensures Refusal(q, trace).None? <==>
      && 0 <= q.startFs < q.End() <= q.traceEndFs
      && (if q.suppliedDepth.Some? then q.suppliedDepth.value >= 2
          else q.recordedDepth.Some? && q.recordedDepth.value >= 2)
      && var rising := UpTo(trace, q.End());
      && |rising| <= MAX_DEBUG_EDGES && AllKnown(rising)
      && |TimesFrom(rising, q.startFs)| > 0 && Distinct(TimesFrom(rising, q.startFs))
  {
    if q.IntervalValid() {
      FirstUnknownFinds(UpTo(trace, q.End()));
    }
  }

  // An anchor shows exactly the times of the window at most one time unit away from its edge.
  lemma AnchorShowsNeighbourhood(w: Window, kind: Kind, t: nat, x: int)
    requires w.startFs < w.endFs && w.startFs <= t <= w.endFs
    ensures var a := AnchorAt(w, kind, t);
            a.startFs <= x <= a.endFs <==> w.startFs <= x <= w.endFs && t - w.timescaleFs <= x <= t + w.timescaleFs
  {
  }

  // The edges of the window.
  function InWindow(w: Window, edges: seq<Edge>): seq<Edge> {
    if |edges| == 0 then [] else
    InWindow(w, edges[..|edges| - 1]) + (if edges[|edges| - 1].t >= w.startFs then [edges[|edges| - 1]] else [])
  }

  // One observation for each edge of the window, in order, with its time and its values.
  lemma {:induction false} ObservationsAreEdges(w: Window, edges: seq<Edge>)
    ensures |Observations(w, edges)| == |InWindow(w, edges)|
    ensures forall i :: 0 <= i < |InWindow(w, edges)| ==>
            IsObservationOf(w, InWindow(w, edges)[i], Observations(w, edges)[i])
  {
    if |edges| > 0 {
      ObservationsAreEdges(w, edges[..|edges| - 1]);
    }
  }

  predicate IsObservationOf(w: Window, e: Edge, o: Observation) {
    o.t == e.t && o.edge == e && o.id == w.session + ".edge." + Decimal(e.t) && NamesEvent(e, o.event)
  }

  // The event of an edge, by what the handshakes did.
  predicate NamesEvent(e: Edge, event: string) {
    var put, taken := e.wrValid && e.wrReady, e.rdValid && e.rdReady;
    && (event == "reset-edge" <==> !e.rstN)
    && (event == "simultaneous-transfer" <==> e.rstN && put && taken)
    && (event == "write-transfer" <==> e.rstN && put && !taken)
    && (event == "read-transfer" <==> e.rstN && taken && !put)
    && (event == "write-blocked" <==> e.rstN && !put && !taken && e.wrValid)
    && (event == "read-blocked" <==> e.rstN && !put && !taken && !e.wrValid && e.rdReady)
    && (event == "idle-edge" <==> e.rstN && !e.wrValid && !e.rdReady)
  }
}
