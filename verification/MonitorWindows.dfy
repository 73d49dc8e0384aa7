// What the report window does and does not change, and where findings are anchored.
module MonitorWindows {
  import opened Outcomes
  import opened Numerals
  import opened FifoMonitor

  // A finding without the parts that depend on the window.
  datatype Seen = Seen(kind: Kind, markers: seq<nat>, signals: seq<string>, requirement: string, expected: string,
                       observed: string)

  function SeenIn(f: Finding): Seen {
    Seen(f.kind, f.anchor.markers, f.anchor.signals, f.requirement, f.expected, f.observed)
  }

  function SeenAll(findings: seq<Finding>): seq<Seen> {
    seq(|findings|, k requires 0 <= k < |findings| => SeenIn(findings[k]))
  }

  function Since(startFs: nat, seen: seq<Seen>): seq<Seen> {
    if seen == [] then [] else
    var last := seen[|seen| - 1];
    Since(startFs, seen[..|seen| - 1])
    + (if forall t :: t in last.markers ==> t >= startFs then [last] else [])
  }

  // Everything the replay raises, with its time; no window is involved.
  datatype Raised = Raised(t: nat, violation: Violation)

  function Timed(t: nat, vs: seq<Violation>): seq<Raised> {
    seq(|vs|, k requires 0 <= k < |vs| => Raised(t, vs[k]))
  }

  function RaisedBy(depth: nat, edges: seq<Edge>): seq<Raised>
    requires depth >= 2
  {
    if edges == [] then [] else
    var last := |edges| - 1;
    RaisedBy(depth, edges[..last]) + Timed(edges[last].t, ViolationsAt(depth, edges, last))
  }

  function RenderOne(w: Window, r: Raised): seq<Finding> {
    if r.t < w.startFs then [] else [FindingOf(w, r.t, r.violation)]
  }

  function Render(w: Window, raised: seq<Raised>): seq<Finding> {
    if |raised| == 0 then [] else
    Render(w, raised[..|raised| - 1]) + RenderOne(w, raised[|raised| - 1])
  }

  lemma {:induction false} RenderConcat(w: Window, a: seq<Raised>, b: seq<Raised>)
    ensures Render(w, a + b) == Render(w, a) + Render(w, b)
  {
    if |b| == 0 {
      assert a + b == a;
    } else {
      var shorter, last := b[..|b| - 1], b[|b| - 1];
      assert (a + b)[..|a + b| - 1] == a + shorter && (a + b)[|a + b| - 1] == last;
      assert Render(w, a + b) == Render(w, a + shorter) + RenderOne(w, last);
      RenderConcat(w, a, shorter);
    }
  }

  lemma {:induction false} RenderTimed(w: Window, t: nat, vs: seq<Violation>)
    ensures Render(w, Timed(t, vs)) == Located(w, t, vs)
  {
    if |vs| > 0 {
      var prefix := vs[..|vs| - 1];
      RenderTimedLast(w, t, vs);
      LocatedLast(w, t, vs);
      RenderTimed(w, t, prefix);
    }
  }

  lemma RenderTimedLast(w: Window, t: nat, vs: seq<Violation>)
    requires |vs| > 0
    ensures Render(w, Timed(t, vs)) == Render(w, Timed(t, vs[..|vs| - 1])) + RenderOne(w, Raised(t, vs[|vs| - 1]))
  {
    assert Timed(t, vs)[..|vs| - 1] == Timed(t, vs[..|vs| - 1]);
  }

  lemma LocatedLast(w: Window, t: nat, vs: seq<Violation>)
    requires |vs| > 0
    ensures Located(w, t, vs) == Located(w, t, vs[..|vs| - 1]) + RenderOne(w, Raised(t, vs[|vs| - 1]))
  {
    if t >= w.startFs {
      var n := |vs| - 1;
      SplitLast(seq(n + 1, k requires 0 <= k < n + 1 => FindingOf(w, t, vs[k])),
                seq(n, k requires 0 <= k < n => FindingOf(w, t, vs[..n][k])), FindingOf(w, t, vs[n]));
    }
  }

  lemma SplitLast<T>(all: seq<T>, most: seq<T>, last: T)
    requires |all| == |most| + 1 && all[|most|] == last && forall k :: 0 <= k < |most| ==> all[k] == most[k]
    ensures all == most + [last]
  {
  }

  lemma LastEdge(depth: nat, edges: seq<Edge>)
    requires depth >= 2 && edges != []
    ensures var last := |edges| - 1;
            RaisedBy(depth, edges) ==
              RaisedBy(depth, edges[..last]) + Timed(edges[last].t, ViolationsAt(depth, edges, last))
  {
  }

  // The windowed findings are a rendering of the window-free replay.
  lemma {:induction false} FindingsAreRendered(w: Window, depth: nat, edges: seq<Edge>)
    requires depth >= 2
    ensures Findings(w, depth, edges) == Render(w, RaisedBy(depth, edges))
  {
    if edges != [] {
      var last := |edges| - 1;
      var vs := ViolationsAt(depth, edges, last);
      RenderTimed(w, edges[last].t, vs);
      RenderConcat(w, RaisedBy(depth, edges[..last]), Timed(edges[last].t, vs));
      LastEdge(depth, edges);
      FindingsAreRendered(w, depth, edges[..last]);
    }
  }

  lemma SeenAppend(a: seq<Finding>, b: seq<Finding>)
    ensures SeenAll(a + b) == SeenAll(a) + SeenAll(b)
  {
  }

  lemma SinceAppend(startFs: nat, seen: seq<Seen>, s: Seen, t: nat)
    requires s.markers == [t]
    ensures Since(startFs, seen + [s]) == Since(startFs, seen) + (if t >= startFs then [s] else [])
  {
    assert (seen + [s])[..|seen|] == seen;
    assert t in s.markers;
  }

  lemma {:induction false} RenderSince(w: Window, whole: Window, raised: seq<Raised>)
    requires whole.startFs == 0 && w.hierarchy == whole.hierarchy
    ensures SeenAll(Render(w, raised)) == Since(w.startFs, SeenAll(Render(whole, raised)))
  {
    if raised != [] {
      var prefix, last := raised[..|raised| - 1], raised[|raised| - 1];
      var f, g := FindingOf(whole, last.t, last.violation), FindingOf(w, last.t, last.violation);
      SeenAppend(Render(whole, prefix), [f]);
      SeenAppend(Render(w, prefix), if last.t < w.startFs then [] else [g]);
      SinceAppend(w.startFs, SeenAll(Render(whole, prefix)), SeenIn(f), last.t);
      assert SeenAll([f]) == [SeenIn(f)] && SeenAll([g]) == [SeenIn(f)];
      RenderSince(w, whole, prefix);
    }
  }

  // The findings of a window that starts later are exactly the later findings of the whole
  // trace: same kind, requirement, expected and observed values, in the same order.
  lemma WindowIndependence(w: Window, whole: Window, depth: nat, edges: seq<Edge>)
    requires depth >= 2 && whole.startFs == 0 && w.hierarchy == whole.hierarchy
    ensures SeenAll(Findings(w, depth, edges)) == Since(w.startFs, SeenAll(Findings(whole, depth, edges)))
  {
    FindingsAreRendered(w, depth, edges);
    FindingsAreRendered(whole, depth, edges);
    RenderSince(w, whole, RaisedBy(depth, edges));
  }

  // ---- A later end only appends -------------------------------------------------------

  lemma {:induction false} UpToMonotone(trace: seq<Sampled>, endFs: nat, laterFs: nat)
    requires endFs <= laterFs
    ensures UpTo(trace, endFs) <= UpTo(trace, laterFs)
  {
    if trace != [] && trace[|trace| - 1].Time() > endFs {
      UpToMonotone(trace[..|trace| - 1], endFs, laterFs);
      assert trace[..|trace| - 1] <= trace;
    }
  }

  lemma {:induction false} RaisedGrows(depth: nat, edges: seq<Edge>, n: nat)
    requires depth >= 2 && n <= |edges|
    ensures RaisedBy(depth, edges[..n]) <= RaisedBy(depth, edges)
    decreases |edges|
  {
    if n < |edges| {
      LastEdge(depth, edges);
      assert edges[..|edges| - 1][..n] == edges[..n];
      RaisedGrows(depth, edges[..|edges| - 1], n);
    } else {
      assert edges[..n] == edges;
    }
  }

  lemma {:induction false} SameRendering(w: Window, later: Window, raised: seq<Raised>)
    requires w.startFs == later.startFs && w.hierarchy == later.hierarchy
    ensures SeenAll(Render(w, raised)) == SeenAll(Render(later, raised))
  {
    if raised != [] {
      var prefix, last := raised[..|raised| - 1], raised[|raised| - 1];
      var f, g := FindingOf(w, last.t, last.violation), FindingOf(later, last.t, last.violation);
      SeenAppend(Render(w, prefix), if last.t < w.startFs then [] else [f]);
      SeenAppend(Render(later, prefix), if last.t < w.startFs then [] else [g]);
      assert SeenAll([f]) == SeenAll([g]);
      SameRendering(w, later, prefix);
    }
  }

  lemma RenderPrefix(w: Window, later: Window, head: seq<Raised>, all: seq<Raised>)
    requires w.startFs == later.startFs && w.hierarchy == later.hierarchy && head <= all
    ensures SeenAll(Render(w, head)) <= SeenAll(Render(later, all))
  {
    SameRendering(w, later, head);
    var tail := all[|head|..];
    assert all == head + tail;
    RenderConcat(later, head, tail);
    SeenAppend(Render(later, head), Render(later, tail));
  }

  lemma DecodePrefix(few: seq<Sampled>, many: seq<Sampled>)
    requires few <= many && AllKnown(many)
    ensures AllKnown(few) && Decode(few) == Decode(many)[..|few|]
  {
    assert forall k :: 0 <= k < |few| ==> few[k] == many[k];
  }

  // A window that ends later over the same trace reports what the earlier end reported, then more.
  lemma EndOnlyAppends(w: Window, later: Window, depth: nat, trace: seq<Sampled>)
    requires depth >= 2 && w.startFs == later.startFs && w.hierarchy == later.hierarchy && w.endFs <= later.endFs
    requires AllKnown(UpTo(trace, later.endFs))
    ensures AllKnown(UpTo(trace, w.endFs))
    ensures SeenAll(Findings(w, depth, Decode(UpTo(trace, w.endFs))))
         <= SeenAll(Findings(later, depth, Decode(UpTo(trace, later.endFs))))
  {
    UpToMonotone(trace, w.endFs, later.endFs);
    DecodePrefix(UpTo(trace, w.endFs), UpTo(trace, later.endFs));
    var few, many := Decode(UpTo(trace, w.endFs)), Decode(UpTo(trace, later.endFs));
    RaisedGrows(depth, many, |few|);
    RenderPrefix(w, later, RaisedBy(depth, few), RaisedBy(depth, many));
    FindingsAreRendered(w, depth, few);
    FindingsAreRendered(later, depth, many);
  }

  // ---- Anchors ------------------------------------------------------------------------

  ghost predicate AnchorSound(w: Window, a: Anchor) {
    && w.startFs <= a.startFs < a.endFs <= w.endFs
    && a.markers != [] && (forall t :: t in a.markers ==> a.startFs <= t <= a.endFs)
    && a.signals != [] && (forall i, j :: 0 <= i < j < |a.signals| ==> a.signals[i] != a.signals[j])
  }

  lemma QualifiedDistinct(hierarchy: string, names: seq<string>)
    requires forall i, j :: 0 <= i < j < |names| ==> names[i] != names[j]
    ensures var q := Qualified(hierarchy, names); forall i, j :: 0 <= i < j < |q| ==> q[i] != q[j]
  {
    var q := Qualified(hierarchy, names);
    forall i, j | 0 <= i < j < |q|
      ensures q[i] != q[j]
    {
      var prefix := hierarchy + ".";
      assert q[i] == prefix + names[i] && q[j] == prefix + names[j];
      assert (prefix + names[i])[|prefix|..] == names[i];
      assert (prefix + names[j])[|prefix|..] == names[j];
    }
  }

  lemma KindSignalsDistinct(k: Kind)
    ensures KindSignals(k) != []
    ensures forall i, j :: 0 <= i < j < |KindSignals(k)| ==> KindSignals(k)[i] != KindSignals(k)[j]
  {
  }

  // An anchor of an edge inside a window that contains time: never empty, inside the window,
  // around its marker, with distinct signals; the fallback interval is never chosen.
  lemma AnchorIsSound(w: Window, kind: Kind, t: nat)
    requires w.startFs < w.endFs && w.startFs <= t <= w.endFs
    ensures AnchorSound(w, AnchorAt(w, kind, t))
    ensures Max(w.startFs, t - w.timescaleFs) < Min(w.endFs, t + w.timescaleFs)
  {
    KindSignalsDistinct(kind);
    QualifiedDistinct(w.hierarchy, KindSignals(kind));
  }

  lemma {:induction false} EveryAnchorIsSound(w: Window, depth: nat, edges: seq<Edge>)
    requires depth >= 2 && w.startFs < w.endFs
    requires forall k :: 0 <= k < |edges| ==> edges[k].t <= w.endFs
    ensures forall f :: f in Findings(w, depth, edges) ==> AnchorSound(w, f.anchor)
  {
    if edges != [] {
      var last := |edges| - 1;
      EveryAnchorIsSound(w, depth, edges[..last]);
      var t, vs := edges[last].t, ViolationsAt(depth, edges, last);
      forall k | 0 <= k < |Located(w, t, vs)|
        ensures AnchorSound(w, Located(w, t, vs)[k].anchor)
      {
        AnchorIsSound(w, vs[k].kind, t);
      }
    }
  }
}
