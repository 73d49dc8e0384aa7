// What a repair proposal says: one change for each kind of finding, with the findings of that kind and
// the source anchors that kind points at; and how tightly the focus frames the findings.
module RepairMeaning {
  import opened Outcomes
  import opened Numerals
  import opened Sequences
  import opened FifoMonitor
  import opened MonitorWindows
  import opened FifoRepair

  // ---- Source anchors by kind ---------------------------------------------------------

  // The wires that are pure functions of the registers and the inputs.
  predicate IsCombinational(kind: Kind) {
    kind in {WriteHandshake, ReadHandshake, Backpressure, ReadValid, Full, Empty}
  }

  // A wrong combinational wire points at the first three anchors of the source, anything wrong in the
  // registers at the last two; with fewer anchors, at all of them.
  function AnchorsOf(kind: Kind, anchors: seq<string>): seq<string> {
    if IsCombinational(kind) then (if |anchors| < 3 then anchors else anchors[..3])
    else if |anchors| < 2 then anchors else anchors[|anchors| - 2..]
  }

  lemma KindPointsAt(kind: Kind, anchors: seq<string>)
    ensures SourceAnchors(anchors, AnchorGroup(STRATEGIES, KindName(kind))) == AnchorsOf(kind, anchors)
  {
    var group := AnchorGroup(STRATEGIES, KindName(kind));
    if IsCombinational(kind) {
      assert group == "combinational";
    } else {
      assert group == "sequential";
    }
  }

  // ---- One change for each kind -------------------------------------------------------

  function OfKind(findings: seq<Finding>, kind: Kind): seq<Finding> {
    if |findings| == 0 then [] else
    var last := findings[|findings| - 1];
    OfKind(findings[..|findings| - 1], kind) + (if last.kind == kind then [last] else [])
  }

  // The identities of a report's findings name their kinds.
  ghost predicate NamedByKind(session: string, findings: seq<Finding>) {
    forall k :: 0 <= k < |findings| ==> Category(session, findings[k].id) == Ok(KindName(findings[k].kind))
  }

  lemma {:induction false} FindingsAreNamed(w: Window, depth: nat, edges: seq<Edge>)
    requires depth >= 2
    ensures NamedByKind(w.session, Findings(w, depth, edges))
  {
    if |edges| > 0 {
      var last := |edges| - 1;
      FindingsAreNamed(w, depth, edges[..last]);
      LocatedAreNamed(w, edges[last].t, ViolationsAt(depth, edges, last));
      NamedConcat(w.session, Findings(w, depth, edges[..last]),
                  Located(w, edges[last].t, ViolationsAt(depth, edges, last)));
    }
  }

  lemma LocatedAreNamed(w: Window, t: nat, vs: seq<Violation>)
    ensures NamedByKind(w.session, Located(w, t, vs))
  {
    var located := Located(w, t, vs);
    forall k | 0 <= k < |located|
      ensures Category(w.session, located[k].id) == Ok(KindName(located[k].kind))
    {
      CategoryIsKind(w.session, vs[k].kind, t);
    }
  }

  lemma NamedConcat(session: string, a: seq<Finding>, b: seq<Finding>)
    requires NamedByKind(session, a) && NamedByKind(session, b)
    ensures NamedByKind(session, a + b)
  {
  }

  lemma {:induction false} GroupIsOfKind(session: string, findings: seq<Finding>, kind: Kind)
    requires NamedByKind(session, findings)
    ensures Group(findings, Categories(session, findings), KindName(kind)) == OfKind(findings, kind)
  {
    if |findings| > 0 {
      var prefix, last := findings[..|findings| - 1], findings[|findings| - 1];
      var keys := Categories(session, findings);
      assert keys[..|findings| - 1] == Categories(session, prefix);
      GroupIsOfKind(session, prefix, kind);
      if KindName(last.kind) == KindName(kind) {
        KindNameInjective(last.kind, kind);
      }
      assert keys[|findings| - 1] == KindName(last.kind);
    }
  }

  // The change for one kind.
  ghost predicate IsChangeFor(findings: seq<Finding>, anchors: seq<string>, kind: Kind, c: Change) {
    && c.id == "repair.change." + KindName(kind)
    && c.findingIds == Ids(OfKind(findings, kind)) && |c.findingIds| > 0
    && c.sourceAnchors == AnchorsOf(kind, anchors)
    && (forall q :: q in c.requirementIds <==> q in Requirements(OfKind(findings, kind)))
    && (forall a :: a in c.waveformAnchors <==> a in Anchors(OfKind(findings, kind)))
  }

  // Every change of a proposal is the one for a kind that was found.
  lemma EveryChangeIsForAKind(session: string, findings: seq<Finding>, anchors: seq<string>, i: nat)
    returns (kind: Kind)
    requires NamedByKind(session, findings)
    requires var keys := Categories(session, findings); i < |Dedupe(keys)|
    ensures var keys := Categories(session, findings);
            IsChangeFor(findings, anchors, kind, ChangesFor(STRATEGIES, findings, keys, anchors, Dedupe(keys))[i])
  {
    var keys := Categories(session, findings);
    var c := Dedupe(keys)[i];
    assert c in keys;
    var n :| 0 <= n < |keys| && keys[n] == c;
    kind := findings[n].kind;
    assert c == KindName(kind);
    ChangeIsForKind(session, findings, anchors, kind);
  }

  lemma ChangeIsForKind(session: string, findings: seq<Finding>, anchors: seq<string>, kind: Kind)
    requires NamedByKind(session, findings) && KindName(kind) in Categories(session, findings)
    ensures var keys := Categories(session, findings);
            IsChangeFor(findings, anchors, kind,
                        ChangeFor(STRATEGIES, KindName(kind), Group(findings, keys, KindName(kind)), anchors))
  {
    var keys := Categories(session, findings);
    GroupIsOfKind(session, findings, kind);
    KindPointsAt(kind, anchors);
    GroupNonempty(findings, keys, KindName(kind));
  }

  // And every kind that was found has its change.
  lemma EveryKindHasAChange(session: string, findings: seq<Finding>, anchors: seq<string>, n: nat) returns (i: nat)
    requires NamedByKind(session, findings) && n < |findings|
    ensures var keys := Categories(session, findings);
            var changes := ChangesFor(STRATEGIES, findings, keys, anchors, Dedupe(keys));
            i < |changes| && IsChangeFor(findings, anchors, findings[n].kind, changes[i])
  {
    var keys := Categories(session, findings);
    assert keys[n] == KindName(findings[n].kind) && keys[n] in Dedupe(keys);
    i :| 0 <= i < |Dedupe(keys)| && Dedupe(keys)[i] == keys[n];
    ChangeIsForKind(session, findings, anchors, findings[n].kind);
  }

  // ---- The frame of the focus ---------------------------------------------------------

  ghost predicate IsEarliest(findings: seq<Finding>, start: int) {
    && (exists k :: 0 <= k < |findings| && findings[k].anchor.startFs == start)
    && forall k :: 0 <= k < |findings| ==> start <= findings[k].anchor.startFs
  }

  ghost predicate IsLatest(findings: seq<Finding>, end: int) {
    && (exists k :: 0 <= k < |findings| && findings[k].anchor.endFs == end)
    && forall k :: 0 <= k < |findings| ==> findings[k].anchor.endFs <= end
  }

  lemma {:induction false} ExtremesAreAttained(findings: seq<Finding>)
    requires |findings| > 0
    ensures IsEarliest(findings, EarliestStart(findings)) && IsLatest(findings, LatestEnd(findings))
  {
    var prefix, last := findings[..|findings| - 1], findings[|findings| - 1];
    if |findings| > 1 {
      ExtremesAreAttained(prefix);
      var j :| 0 <= j < |prefix| && prefix[j].anchor.startFs == EarliestStart(prefix);
      assert findings[j].anchor.startFs == EarliestStart(prefix);
      var k :| 0 <= k < |prefix| && prefix[k].anchor.endFs == LatestEnd(prefix);
      assert findings[k].anchor.endFs == LatestEnd(prefix);
    }
    assert last.anchor.startFs == findings[|findings| - 1].anchor.startFs;
  }

  // The least distance of two different times; none for fewer than two.
  ghost predicate IsLeastGap(times: seq<nat>, gap: nat) {
    && (forall i, j :: 0 <= i < |times| && 0 <= j < |times| && times[i] < times[j] ==> gap <= times[j] - times[i])
    && ((gap == 0 && forall i, j :: 0 <= i < |times| && 0 <= j < |times| ==> times[i] == times[j]) ||
        exists i, j :: 0 <= i < |times| && 0 <= j < |times| && times[i] < times[j] && gap == times[j] - times[i])
  }

  function Step(times: seq<nat>, j: nat): int
    requires 0 < j < |times|
  {
    var later: int := times[j];
    later - times[j - 1]
  }

  ghost predicate NoStepBelow(times: seq<nat>, gap: nat) {
    forall j :: 0 < j < |times| ==> gap <= Step(times, j)
  }

  lemma OneMoreStep(times: seq<nat>, gap: nat, least: nat)
    requires |times| >= 2 && NoStepBelow(times[..|times| - 1], gap) && least <= gap && least <= Step(times, |times| - 1)
    ensures NoStepBelow(times, least)
  {
    var prefix := times[..|times| - 1];
    forall j | 0 < j < |times|
      ensures least <= Step(times, j)
    {
      assert j < |prefix| ==> Step(prefix, j) == Step(times, j);
    }
  }

  lemma {:induction false} SmallestStep(times: seq<nat>) returns (k: nat)
    requires Increasing(times) && |times| >= 2
    ensures 0 < k < |times| && SmallestGap(times) == Step(times, k) && NoStepBelow(times, SmallestGap(times))
  {
    var n := |times| - 1;
    k := n;
    if n > 1 {
      var prefix := times[..n];
      var i := SmallestStep(prefix);
      OneMoreStep(times, SmallestGap(prefix), SmallestGap(times));
      if SmallestGap(prefix) <= Step(times, n) {
        k := i;
        assert Step(prefix, i) == Step(times, i);
      }
    }
  }

  lemma StepsAddUp(times: seq<nat>, gap: nat, i: nat, j: nat)
    requires Increasing(times) && NoStepBelow(times, gap) && i < j < |times|
    ensures gap <= times[j] - times[i]
  {
    assert gap <= Step(times, i + 1);
    assert i + 1 < j ==> times[i + 1] < times[j];
  }

  lemma SmallestGapIsLeast(times: seq<nat>)
    requires Increasing(times)
    ensures IsLeastGap(times, SmallestGap(times))
  {
    if |times| >= 2 {
      var k := SmallestStep(times);
      assert times[k - 1] < times[k];
      forall i, j | 0 <= i < |times| && 0 <= j < |times| && times[i] < times[j]
        ensures SmallestGap(times) <= times[j] - times[i]
      {
        assert i < j;
        StepsAddUp(times, SmallestGap(times), i, j);
      }
    }
  }

  lemma Indexed(times: seq<nat>, t: nat) returns (k: nat)
    requires t in times
    ensures k < |times| && times[k] == t
  {
    k :| 0 <= k < |times| && times[k] == t;
  }

  lemma SameTimesSameGap(times: seq<nat>, sorted: seq<nat>, gap: nat)
    requires (forall t :: t in times <==> t in sorted) && IsLeastGap(sorted, gap)
    ensures IsLeastGap(times, gap)
  {
    forall i, j | 0 <= i < |times| && 0 <= j < |times| && times[i] < times[j]
      ensures gap <= times[j] - times[i]
    {
      var a := Indexed(sorted, times[i]);
      var b := Indexed(sorted, times[j]);
    }
    if i, j :| 0 <= i < |sorted| && 0 <= j < |sorted| && sorted[i] < sorted[j] && gap == sorted[j] - sorted[i] {
      var a := Indexed(times, sorted[i]);
      var b := Indexed(times, sorted[j]);
    } else {
      forall i, j | 0 <= i < |times| && 0 <= j < |times|
        ensures times[i] == times[j]
      {
        var a := Indexed(sorted, times[i]);
        var b := Indexed(sorted, times[j]);
      }
    }
  }

  // The focus reaches half the least distance of two observed edges beyond the findings, and no
  // further than the window.
  ghost predicate Frames(report: Report, focus: Focus, gap: nat, start: int, end: int) {
    && IsLeastGap(Times(report.observations), gap)
    && IsEarliest(report.findings, start) && IsLatest(report.findings, end)
    && focus.startFs == Max(report.window.startFs, start - gap / 2)
    && focus.endFs == Min(report.window.endFs, end + gap / 2)
  }

  lemma LeastGapOf(times: seq<nat>)
    ensures IsLeastGap(times, SmallestGap(SortedSet(times)))
  {
    SmallestGapIsLeast(SortedSet(times));
    SameTimesSameGap(times, SortedSet(times), SmallestGap(SortedSet(times)));
  }

  lemma FocusFrames(report: Report, signals: seq<string>, suffixes: set<string>)
    returns (gap: nat, start: int, end: int)
    requires |report.findings| > 0
    ensures FocusOf(report, signals, suffixes).Ok?
    ensures Frames(report, FocusOf(report, signals, suffixes).value, gap, start, end)
  {
    gap := SmallestGap(SortedSet(Times(report.observations)));
    start, end := EarliestStart(report.findings), LatestEnd(report.findings);
    LeastGapOf(Times(report.observations));
    ExtremesAreAttained(report.findings);
  }

  // Which of the given signals a focus shows.
  lemma {:induction false} CausalIs(signals: seq<string>, suffixes: set<string>, s: string)
    ensures s in Causal(signals, suffixes) <==> s in signals && LastDot(s).2 in suffixes
  {
    if |signals| > 0 {
      CausalIs(signals[..|signals| - 1], suffixes, s);
      assert signals == signals[..|signals| - 1] + [signals[|signals| - 1]];
    }
  }

  lemma {:induction false} FindingSignalsAre(findings: seq<Finding>, s: string)
    ensures s in FindingSignals(findings) <==> exists k :: 0 <= k < |findings| && s in findings[k].anchor.signals
  {
    if |findings| > 0 {
      var prefix := findings[..|findings| - 1];
      FindingSignalsAre(prefix, s);
      if k :| 0 <= k < |findings| && s in findings[k].anchor.signals {
        assert k < |prefix| ==> s in prefix[k].anchor.signals;
      }
      if k :| 0 <= k < |prefix| && s in prefix[k].anchor.signals {
        assert s in findings[k].anchor.signals;
      }
    }
  }

  // Its signals are the causal ones of the FIFO and those of the findings, each once; its markers are
  // those of the findings and no others.
  lemma FocusShowsNothingElse(report: Report, signals: seq<string>, suffixes: set<string>, s: string, t: nat)
    requires |report.findings| > 0
    ensures var focus := FocusOf(report, signals, suffixes).value;
            && (s in focus.signals <==>
                (s in signals && LastDot(s).2 in suffixes) ||
                exists k :: 0 <= k < |report.findings| && s in report.findings[k].anchor.signals)
            && (t in focus.markers <==>
                exists k :: 0 <= k < |report.findings| && t in report.findings[k].anchor.markers)
            && Distinct(focus.signals)
  {
    CausalIs(signals, suffixes, s);
    FindingSignalsAre(report.findings, s);
    Collected(report.findings);
  }
}
