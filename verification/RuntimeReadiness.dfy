// When a selected profile is ready: exactly as long as the receipt of its passing self-test and the
// report it names stand, for the transport it was tested with.
module RuntimeReadiness {
  import opened Outcomes
  import opened RuntimeReceipt

  // What a reader can see for itself.
  predicate PassedFor(profile: Option<Profile>, receipt: Option<Receipt>, reports: map<Op, Report>,
                      transport: Option<Transport>) {
    && profile.Some? && receipt.Some? && receipt.value.status == Passed
    && receipt.value.profile == profile.value && receipt.value.transport == transport
    && receipt.value.op in reports && receipt.value.report == Some(reports[receipt.value.op])
  }

  // Whenever the reads happened in a run: the selected profile is ready if and only if the receipt
  // passed, for this profile and this transport, and its report is still in the run directory. That
  // the evidence verifies again need not be asked: it always does.
  lemma ReadyIff(steps: seq<Step>, atProfile: nat, atReceipt: nat, reports: map<Op, Report>,
                 transport: Option<Transport>)
    requires Run(steps).Some? && atProfile <= |steps| && atReceipt <= |steps|
    requires Run(steps[..atProfile]).Some? && Run(steps[..atReceipt]).Some?
    ensures var profile := Run(steps[..atProfile]).value.profile;
            var receipt := Run(steps[..atReceipt]).value.receipt;
            var ready := ReadyProfile(profile, receipt, reports, transport);
            && (ready.Ok? <==> PassedFor(profile, receipt, reports, transport))
            && (ready.Ok? ==> ready.value == profile.value)
  {
    RunKeepsInv(steps[..atReceipt]);
    var receipt := Run(steps[..atReceipt]).value.receipt;
    if receipt.Some? {
      assert PassedIsVerified(Run(steps[..atReceipt]).value, receipt.value);
    }
  }

  // ---- A run that ends ready ----------------------------------------------------------

  // From any state in which a self-test may start: the first half of a clean one.
  lemma HalfTested(steps: seq<Step>, op: Op, profile: Profile, transport: Option<Transport>) returns (half: seq<Step>)
    requires Run(steps).Some?
    requires var w := Run(steps).value;
             w.actor.None? && w.profile == Some(profile) && Inactive(w.receipt) && op !in w.ops && op !in w.intents
    ensures steps <= half && Run(half).Some?
    ensures var n, r := Run(half).value, Receipt(op, profile, transport, Running, None);
            && n.actor == Some(Testing(r, Simulating)) && n.receipt == Some(r) && n.profile == Some(profile)
            && op !in n.intents
  {
    var clean := Save(true, false);
    var a := steps + [BeginTest(op, transport)];
    After(steps, BeginTest(op, transport));
    var b := a + [SaveNotStarted(clean)];
    After(a, SaveNotStarted(clean));
    var c := b + [MakeSimulator(true)];
    After(b, MakeSimulator(true));
    half := c + [SaveRunning(clean)];
    After(c, SaveRunning(clean));
  }

  // Then the intent and the simulation.
  lemma Simulated(half: seq<Step>, op: Op, profile: Profile, transport: Option<Transport>) returns (more: seq<Step>)
    requires Run(half).Some?
    requires var w, r := Run(half).value, Receipt(op, profile, transport, Running, None);
             && w.actor == Some(Testing(r, Simulating)) && w.profile == Some(profile) && op !in w.intents
    ensures half <= more && Run(more).Some?
    ensures var n, r, report := Run(more).value, Receipt(op, profile, transport, Running, None),
                                Report(op, profile, transport, true);
            && n.actor == Some(Testing(r, Reported(report))) && n.profile == Some(profile)
            && op in n.reports && n.reports[op] == report
  {
    var r := Receipt(op, profile, transport, Running, None);
    var bound := IntentsWritten(half, r);
    more := bound + [Simulate(Report(op, profile, transport, true))];
    After(bound, Simulate(Report(op, profile, transport, true)));
  }

  lemma IntentsWritten(half: seq<Step>, r: Receipt) returns (more: seq<Step>)
    requires Run(half).Some? && Run(half).value.actor == Some(Testing(r, Simulating))
             && r.op !in Run(half).value.intents
    ensures half <= more && Run(more).Some?
    ensures var w, n := Run(half).value, Run(more).value;
            n.actor == Some(Testing(r, Simulating)) && n.profile == w.profile && IntentBound(n, r)
  {
    var a := half + [OpenIntent];
    After(half, OpenIntent);
    more := a + [FinishIntent];
    After(a, FinishIntent);
  }

  // The evidence is verified.
  lemma EvidenceVerified(half: seq<Step>, r: Receipt, report: Report) returns (more: seq<Step>)
    requires Run(half).Some? && r.status == Running && Verifies(r.profile, r.op, r.transport, report)
    requires Run(half).value.actor == Some(Testing(r, Reported(report)))
    ensures half <= more && Run(more).Some?
    ensures var w, n := Run(half).value, Run(more).value;
            n.actor == Some(Testing(r, Verified(report))) && n.profile == w.profile && n.reports == w.reports
  {
    more := half + [Verify];
    After(half, Verify);
  }

  // And the passing receipt saved.
  lemma PassedSaved(half: seq<Step>, r: Receipt, report: Report) returns (more: seq<Step>)
    requires Run(half).Some? && r.status == Running
    requires Run(half).value.actor == Some(Testing(r, Verified(report)))
    ensures half <= more && Run(more).Some?
    ensures var w, n := Run(half).value, Run(more).value;
            n.receipt == Some(r.(status := Passed, report := Some(report))) && n.profile == w.profile
              && n.reports == w.reports
  {
    more := half + [SavePassed(Save(true, false))];
    After(half, SavePassed(Save(true, false)));
  }

  // From every state in which a self-test may start, a clean one leaves the profile ready.
  lemma CleanTestMakesReady(steps: seq<Step>, op: Op, profile: Profile, transport: Option<Transport>)
    returns (whole: seq<Step>)
    requires Run(steps).Some?
    requires var w := Run(steps).value;
             w.actor.None? && w.profile == Some(profile) && Inactive(w.receipt) && op !in w.ops
    ensures steps <= whole && Run(whole).Some?
    ensures var w := Run(whole).value; ReadyProfile(w.profile, w.receipt, w.reports, transport) == Ok(profile)
  {
    RunKeepsInv(steps);
    var half := HalfTested(steps, op, profile, transport);
    var simulated := Simulated(half, op, profile, transport);
    var r, report := Receipt(op, profile, transport, Running, None), Report(op, profile, transport, true);
    var checked := EvidenceVerified(simulated, r, report);
    whole := PassedSaved(checked, r, report);
    assert whole[..|whole|] == whole;
    ReadyIff(whole, |whole|, |whole|, Run(whole).value.reports, transport);
  }

  // So for every profile and transport a run from the beginning ends ready.
  lemma ReadyIsReachable(op: Op, profile: Profile, transport: Option<Transport>) returns (steps: seq<Step>)
    ensures Run(steps).Some?
    ensures var w := Run(steps).value; ReadyProfile(w.profile, w.receipt, w.reports, transport) == Ok(profile)
  {
    var clean := Save(true, false);
    var a := [] + [BeginSelect(profile)];
    After([], BeginSelect(profile));
    var b := a + [FinishSelect(clean)];
    After(a, FinishSelect(clean));
    steps := CleanTestMakesReady(b, op, profile, transport);
  }

  // ---- How long it stays ready --------------------------------------------------------

  // The report a passing receipt names is the one in its run directory.
  ghost predicate ReportStands(w: World, r: Receipt) {
    r.status == Passed ==> r.op in w.reports && r.report == Some(w.reports[r.op])
  }

  ghost predicate ReportsStand(w: World) {
    && (w.receipt.Some? ==> ReportStands(w, w.receipt.value))
    && (w.actor.Some? && w.actor.value.Testing? ==>
          && ReportStands(w, w.actor.value.receipt)
          && match w.actor.value.stage
             case Reported(report) => w.actor.value.receipt.op in w.reports
               && w.reports[w.actor.value.receipt.op] == report
             case Verified(report) => w.actor.value.receipt.op in w.reports
               && w.reports[w.actor.value.receipt.op] == report
             case _ => true)
  }

  lemma TestKeepsReports(w: World, r: Receipt, stage: Stage, s: Step)
    requires Inv(w) && ReportsStand(w) && w.actor == Some(Testing(r, stage)) && TestStep(w, r, stage, s).Some?
    ensures ReportsStand(TestStep(w, r, stage, s).value)
  {
  }

  lemma StepKeepsReports(w: World, s: Step)
    requires Inv(w) && ReportsStand(w) && Apply(w, s).Some?
    ensures ReportsStand(Apply(w, s).value)
  {
    if !s.Die? && w.actor.Some? && w.actor.value.Testing? {
      TestKeepsReports(w, w.actor.value.receipt, w.actor.value.stage, s);
    }
  }

  lemma {:induction false} RunKeepsReports(steps: seq<Step>)
    requires Run(steps).Some?
    ensures ReportsStand(Run(steps).value)
  {
    if |steps| > 0 {
      var prefix := steps[..|steps| - 1];
      RunKeepsReports(prefix);
      RunKeepsInv(prefix);
      StepKeepsReports(Run(prefix).value, steps[|steps| - 1]);
    }
  }

  // In every reachable state, a passing receipt keeps its profile ready, for its own transport and no
  // other, until another profile is selected.
  lemma ReadyUntilReselected(steps: seq<Step>, transport: Option<Transport>)
    requires Run(steps).Some? && Run(steps).value.receipt.Some? && Run(steps).value.receipt.value.status == Passed
    ensures var w := Run(steps).value;
            ReadyProfile(w.profile, w.receipt, w.reports, transport).Ok? <==>
            w.profile == Some(w.receipt.value.profile) && transport == w.receipt.value.transport
  {
    RunKeepsReports(steps);
    assert steps[..|steps|] == steps;
    ReadyIff(steps, |steps|, |steps|, Run(steps).value.reports, transport);
  }

  // ---- What the commands require and write --------------------------------------------

  // At rest, select needs that nothing is pending; a self-test also a selected profile and a new
  // operation; recovery a pending receipt, its own profile and transport, and an intent file.
  lemma CommandsStartIff(w: World, candidate: Profile, op: Op, transport: Option<Transport>)
    requires w.actor.None?
    ensures var pending := w.receipt.Some? && w.receipt.value.status in {Running, NeedsRecovery};
            && (Apply(w, BeginSelect(candidate)).Some? <==> !pending)
            && (Apply(w, BeginTest(op, transport)).Some? <==> !pending && w.profile.Some? && op !in w.ops)
            && (Apply(w, BeginRecover(transport)).Some? <==>
                pending && w.profile == Some(w.receipt.value.profile) && transport == w.receipt.value.transport &&
                w.receipt.value.op in w.intents)
  {
    if w.receipt.Some? {
      StatusIs(w.receipt.value.status);
    }
  }

  lemma StatusIs(status: Status)
    ensures status in {Passed, Recovered, NotStarted} <==> status !in {Running, NeedsRecovery}
  {
    match status
    case NotStarted =>
    case Running =>
    case NeedsRecovery =>
    case Passed =>
    case Recovered =>
  }

  function SaveOf(s: Step): Option<Save> {
    match s
    case FinishSelect(save) => Some(save)
    case SaveNotStarted(save) => Some(save)
    case SaveRunning(save) => Some(save)
    case SavePassed(save) => Some(save)
    case SaveFailure(save) => Some(save)
    case SaveRecovered(save) => Some(save)
    case _ => None
  }

  // The two files change only in a save that takes effect: a selection writes the profile it selected,
  // any other save the receipt of the attempt under way; no step writes both.
  lemma OnlyEffectiveSavesWrite(w: World, s: Step)
    requires Apply(w, s).Some?
    ensures var n := Apply(w, s).value;
            && (SaveOf(s).None? || !SaveOf(s).value.effective ==> n.profile == w.profile && n.receipt == w.receipt)
            && (s.FinishSelect? ==> n.receipt == w.receipt &&
                                    (s.save.effective ==> n.profile == Some(w.actor.value.candidate)))
            && (!s.FinishSelect? ==> n.profile == w.profile)
            && (!s.FinishSelect? && SaveOf(s).Some? && SaveOf(s).value.effective ==>
                  n.receipt.Some? && n.receipt.value.op == w.actor.value.receipt.op)
  {
  }
}
