// From the analysis to the repair: every report of the monitor that has findings gets a proposal
// that covers them, with full confidence, and a focus that shows them.
module MonitorRepair {
  import opened Outcomes
  import opened Numerals
  import opened Sequences
  import opened FifoMonitor
  import opened MonitorWindows
  import opened FifoRepair

  lemma {:induction false} TimesGrow(rising: seq<Sampled>, startFs: nat, t: nat)
    ensures t in TimesFrom(rising, startFs) <==> t >= startFs && exists k :: 0 <= k < |rising| && rising[k].Time() == t
  {
    if |rising| > 0 {
      var prefix, last := rising[..|rising| - 1], rising[|rising| - 1];
      TimesGrow(prefix, startFs, t);
      if t in TimesFrom(prefix, startFs) {
        var k :| 0 <= k < |prefix| && prefix[k].Time() == t;
        assert rising[k].Time() == t;
      }
      if k :| 0 <= k < |rising| && rising[k].Time() == t {
        assert k < |prefix| ==> prefix[k].Time() == t;
      }
    }
  }

  // Distinct markers mean distinct edges inside the window.
  lemma {:induction false} MarkersSeparate(rising: seq<Sampled>, startFs: nat, i: nat, j: nat)
    requires i < j < |rising| && rising[i].Time() >= startFs && rising[j].Time() >= startFs
             && Distinct(TimesFrom(rising, startFs))
    ensures rising[i].Time() != rising[j].Time()
  {
    var prefix, times := rising[..|rising| - 1], TimesFrom(rising, startFs);
    var before := TimesFrom(prefix, startFs);
    assert before == times[..|before|];
    assert Distinct(before);
    if j < |rising| - 1 {
      MarkersSeparate(prefix, startFs, i, j);
    } else {
      assert prefix[i] == rising[i];
      TimesGrow(prefix, startFs, rising[i].Time());
      var n :| 0 <= n < |before| && before[n] == rising[i].Time();
      assert times[n] != times[|before|];
    }
  }

  // What a report that exists says about its edges: they end inside the window, and those in the
  // window have different times.
  lemma ReportedEdges(q: Request, trace: seq<Sampled>)
    requires InTimeOrder(trace) && Refusal(q, trace).None?
    ensures var rising := UpTo(trace, q.End()); AllKnown(rising)
    ensures var rising, w := UpTo(trace, q.End()), q.Selected();
            var edges := Decode(rising);
            && w.startFs < w.endFs && DistinctFrom(w.startFs, edges)
            && forall k :: 0 <= k < |edges| ==> edges[k].t <= w.endFs
  {
    var rising, w := UpTo(trace, q.End()), q.Selected();
    FirstUnknownFinds(rising);
    UpToKeepsThrough(trace, q.End());
    var edges := Decode(rising);
    forall k | 0 <= k < |edges|
      ensures edges[k].t == rising[k].Time() == trace[k].Time() <= w.endFs
    {
    }
    forall i, j | 0 <= i < j < |edges| && edges[i].t >= w.startFs && edges[j].t >= w.startFs
      ensures edges[i].t != edges[j].t
    {
      MarkersSeparate(rising, w.startFs, i, j);
    }
  }

  // Every kind of finding has a repair strategy.
  lemma KindIsKnown(kind: Kind)
    ensures KindName(kind) in STRATEGIES
  {
  }

  ghost predicate NamesKind(category: string) {
    exists kind :: category == KindName(kind)
  }

  ghost predicate AllNameKinds(categories: seq<string>) {
    forall c :: c in categories ==> NamesKind(c)
  }

  lemma {:induction false} CategoriesAreKinds(w: Window, raised: seq<Raised>)
    ensures AllNameKinds(Categories(w.session, Render(w, raised)))
  {
    if |raised| > 0 {
      var prefix, last := raised[..|raised| - 1], raised[|raised| - 1];
      CategoriesConcat(w.session, Render(w, prefix), RenderOne(w, last));
      OneCategory(w, last);
      CategoriesAreKinds(w, prefix);
      BothNameKinds(Categories(w.session, Render(w, prefix)), Categories(w.session, RenderOne(w, last)));
    }
  }

  lemma BothNameKinds(a: seq<string>, b: seq<string>)
    requires AllNameKinds(a) && AllNameKinds(b)
    ensures AllNameKinds(a + b)
  {
  }

  lemma OneCategory(w: Window, r: Raised)
    ensures AllNameKinds(Categories(w.session, RenderOne(w, r)))
  {
    CategoryIsKind(w.session, r.violation.kind, r.t);
    assert NamesKind(KindName(r.violation.kind));
    var found := RenderOne(w, r);
    if |found| > 0 {
      assert Categories(w.session, found) == [KindName(r.violation.kind)];
    }
  }

  lemma CategoriesConcat(session: string, a: seq<Finding>, b: seq<Finding>)
    ensures Categories(session, a + b) == Categories(session, a) + Categories(session, b)
  {
  }

  lemma {:induction false} KnownEverywhere(strategies: map<string, string>, order: seq<string>, n: nat)
    requires n <= |order| && forall c :: c in order ==> c in strategies
    ensures KnownUpTo(strategies, order, n)
  {
    if n > 0 {
      KnownEverywhere(strategies, order, n - 1);
    }
  }

  // Every monitor report gets the confidence of a proposal whose categories are all known.
  lemma ReportIsKnown(w: Window, depth: nat, edges: seq<Edge>)
    requires depth >= 2
    ensures var order := Dedupe(Categories(w.session, Findings(w, depth, edges))); KnownUpTo(STRATEGIES, order, |order|)
  {
    var keys := Categories(w.session, Findings(w, depth, edges));
    FindingsAreRendered(w, depth, edges);
    CategoriesAreKinds(w, RaisedBy(depth, edges));
    forall c | c in Dedupe(keys)
      ensures c in STRATEGIES
    {
      assert NamesKind(c);
      var kind :| c == KindName(kind);
      KindIsKnown(kind);
    }
    KnownEverywhere(STRATEGIES, Dedupe(keys), |Dedupe(keys)|);
  }

  // A proposal that repairs this report: it covers every finding exactly once, with the
  // confidence of known categories.
  ghost predicate Repairs(report: Report, anchors: seq<string>, proposal: Proposal) {
    Covers(report.findings, anchors, proposal.changes) && proposal.confidencePercent == 90
  }

  lemma ProposalRepairs(q: Request, trace: seq<Sampled>, anchors: seq<string>)
    requires InTimeOrder(trace) && Refusal(q, trace).None?
    ensures var report := ReportOf(q, trace); var keys := Categories(q.session, report.findings);
            && Parsable(q.session, report.findings)
            && Covers(report.findings, anchors, ChangesFor(STRATEGIES, report.findings, keys, anchors, Dedupe(keys)))
            && KnownUpTo(STRATEGIES, Dedupe(keys), |Dedupe(keys)|)
  {
    ReportedEdges(q, trace);
    var w, depth, edges := q.Selected(), q.Depth().value, Decode(UpTo(trace, q.End()));
    ReportParses(w, depth, edges);
    ReportIsKnown(w, depth, edges);
    ReportIsCovered(w, depth, edges, Findings(w, depth, edges), Categories(q.session, Findings(w, depth, edges)),
                    STRATEGIES, anchors);
  }

  lemma FocusShowsReport(q: Request, trace: seq<Sampled>)
    requires InTimeOrder(trace) && Refusal(q, trace).None? && ReportOf(q, trace).findings != []
    ensures var report := ReportOf(q, trace);
            var focus := FocusOf(report, Qualified(q.hierarchy, FIFO_SIGNALS), CAUSAL_SUFFIXES);
            focus.Ok? && Shows(report, focus.value)
  {
    ReportedEdges(q, trace);
    var w, depth, edges := q.Selected(), q.Depth().value, Decode(UpTo(trace, q.End()));
    EveryAnchorIsSound(w, depth, edges);
    FocusShowsEverything(ReportOf(q, trace), Qualified(q.hierarchy, FIFO_SIGNALS), CAUSAL_SUFFIXES);
  }

  // Analysing, proposing and focusing in one go. For a trace in time order a report with findings is
  // refused a repair if and only if it has no source anchors, as when no RTL file was named.
  method AnalyzeAndRepair(q: Request, trace: seq<Sampled>, anchors: seq<string>)
    returns (r: Result<(Report, Option<(Proposal, Focus)>)>)
    requires InTimeOrder(trace)
    ensures r.Ok? <==> Refusal(q, trace).None? && (|ReportOf(q, trace).findings| == 0 || |anchors| > 0)
    ensures r.Ok? ==> r.value.0 == ReportOf(q, trace)
    ensures r.Ok? ==> (r.value.1.None? <==> |r.value.0.findings| == 0)
    ensures r.Ok? && r.value.1.Some? ==>
      Repairs(r.value.0, anchors, r.value.1.value.0) && Shows(r.value.0, r.value.1.value.1)
  {
    var analyzed := Analyze(q, trace);
    if analyzed.Err? {
      return Err(analyzed.code);
    }
    var report := analyzed.value;
    if |report.findings| == 0 {
      return Ok((report, None));
    }
    ProposalRepairs(q, trace, anchors);
    FocusShowsReport(q, trace);
    var proposal := Propose(STRATEGIES, q.session, report.findings, anchors);
    if proposal.Err? {
      return Err(proposal.code);
    }
    var focus := FocusOf(report, Qualified(q.hierarchy, FIFO_SIGNALS), CAUSAL_SUFFIXES);
    return Ok((report, Some((proposal.value, focus.value))));
  }
}
