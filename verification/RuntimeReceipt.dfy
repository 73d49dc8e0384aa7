// The self-test receipt: select, self-test and recover take one lock and persist their progress
// between effects. A process may raise at any save, before or after the file was replaced, and
// may die between any two steps; death releases the lock and changes no file.
module RuntimeReceipt {
  import opened Outcomes

  // Digests are injective, so a digest stands for what it was computed from.
  type Profile = nat
  type Transport = nat
  type Op = nat

  datatype Status = NotStarted | Running | NeedsRecovery | Passed | Recovered

  // What a simulation reports and what the evidence check reads back from the run directory.
  datatype Report = Report(op: Op, profile: Profile, transport: Option<Transport>, passed: bool)

  datatype Receipt = Receipt(op: Op, profile: Profile, transport: Option<Transport>, status: Status,
                             report: Option<Report>)

  // The intent file of a run directory, once it was opened: its content is missing or cut short
  // until it was written, and then binds the run to a profile and a transport.
  datatype IntentFile = Torn | Complete(profile: Profile, transport: Option<Transport>)

  // Where the process that holds the lock is.
  datatype Stage = Fresh | Saved | Ready | Simulating | Reported(report: Report) | Verified(report: Report) | Failing

  datatype Actor =
    | Selecting(candidate: Profile)
    | Testing(receipt: Receipt, stage: Stage)
    | Recovering(receipt: Receipt, abandoned: bool)

  datatype World = World(
    profile: Option<Profile>, receipt: Option<Receipt>,  // the two persisted files
    intents: map<Op, IntentFile>, reports: map<Op, Report>,  // run directories
    actor: Option<Actor>,                                // the lock and its holder
    ops: set<Op>,                                        // operation identities handed out
    begun: set<Op>, settled: set<Op>,                    // history: simulations begun; passed or recovered
    verified: set<(Profile, Option<Transport>, Op)>)     // history: runs whose evidence was verified

  datatype Save = Save(effective: bool, raises: bool)

  datatype Step =
    | BeginSelect(candidate: Profile)
    | FinishSelect(save: Save)
    | BeginTest(op: Op, transport: Option<Transport>)
    | SaveNotStarted(save: Save)
    | MakeSimulator(ok: bool)
    | SaveRunning(save: Save)
    | OpenIntent
    | FinishIntent
    | Simulate(report: Report)
    | SimulationRaises
    | Verify
    | SavePassed(save: Save)
    | SaveFailure(save: Save)
    | BeginRecover(transport: Option<Transport>)
    | AbandonReturns(ok: bool)
    | SaveRecovered(save: Save)
    | Die

  // The evidence check: the report passed and is bound to this profile, run and transport.
  predicate Verifies(profile: Profile, op: Op, transport: Option<Transport>, report: Report) {
    report == Report(op, profile, transport, true)
  }

  // Select and self-test refuse to start over an attempt that may still need recovery.
  predicate Inactive(receipt: Option<Receipt>) {
    receipt.None? || receipt.value.status in {Passed, Recovered, NotStarted}
  }

  function Stored(w: World, r: Receipt, save: Save): World {
    if save.effective then w.(receipt := Some(r)) else w
  }

  function Clean(save: Save): bool {
    save.effective && !save.raises
  }

  function With(w: World, r: Receipt, stage: Stage): World {
    w.(actor := Some(Testing(r, stage)))
  }

  function Released(w: World): World {
    w.(actor := None)
  }

  function TestStep(w: World, r: Receipt, stage: Stage, s: Step): Option<World> {
    match (s, stage)
    case (SaveNotStarted(save), Fresh) =>
      // Outside the handler: an exception here just propagates.
      Some(if Clean(save) then With(Stored(w, r, save), r, Saved) else Released(Stored(w, r, save)))
    case (MakeSimulator(ok), Saved) =>
      Some(if ok then With(w, r.(status := Running), Ready) else With(w, r, Failing))
    case (SaveRunning(save), Ready) =>
      Some(if Clean(save) then With(Stored(w, r, save).(begun := w.begun + {r.op}), r, Simulating)
           else With(Stored(w, r, save), r, Failing))
    case (OpenIntent, Simulating) =>
      if r.op in w.intents then None else Some(w.(intents := w.intents[r.op := Torn]))
    case (FinishIntent, Simulating) =>
      if r.op !in w.intents || !w.intents[r.op].Torn? then None
      else Some(w.(intents := w.intents[r.op := Complete(r.profile, r.transport)]))
    case (Simulate(report), Simulating) =>
      if !IntentBound(w, r) then None
      else Some(With(w.(reports := w.reports[r.op := report]), r, Reported(report)))
    case (SimulationRaises, Simulating) => Some(With(w, r, Failing))
    case (Verify, Reported(report)) =>
      Some(if Verifies(r.profile, r.op, r.transport, report)
           then With(w.(verified := w.verified + {(r.profile, r.transport, r.op)}), r, Verified(report))
           else With(w, r, Failing))
    case (SavePassed(save), Verified(report)) =>
      var passed := r.(status := Passed, report := Some(report));
      var n := Stored(w, passed, save).(settled := if save.effective then w.settled + {r.op} else w.settled);
      Some(if Clean(save) then Released(n) else With(n, passed, Failing))
    case (SaveFailure(save), Failing) =>
      // The handler: anything that got past "not-started" needs recovery.
      var failed := if r.status.NotStarted? then r else r.(status := NeedsRecovery, report := None);
      Some(Released(Stored(w, failed, save)))
    case _ => None
  }

  function Apply(w: World, s: Step): Option<World> {
    if s.Die? then (if w.actor.None? then None else Some(Released(w)))
    else if w.actor.None? then
      match s
      case BeginSelect(candidate) =>
        if Inactive(w.receipt) then Some(w.(actor := Some(Selecting(candidate)))) else None
      case BeginTest(op, transport) =>
        if !Inactive(w.receipt) || w.profile.None? || op in w.ops then None
        else Some(With(w.(ops := w.ops + {op}), Receipt(op, w.profile.value, transport, NotStarted, None), Fresh))
      case BeginRecover(transport) =>
        if Recoverable(w, transport) then Some(w.(actor := Some(Recovering(w.receipt.value, false)))) else None
      case _ => None
    else
      match w.actor.value
      case Selecting(candidate) =>
        if s.FinishSelect? then
          Some(Released(if s.save.effective then w.(profile := Some(candidate)) else w))
        else None
      case Testing(r, stage) => TestStep(w, r, stage, s)
      case Recovering(r, abandoned) =>
        if s.AbandonReturns? && !abandoned && (s.ok ==> IntentBound(w, r)) then
          Some(if s.ok then w.(actor := Some(Recovering(r, true))) else Released(w))
        else if s.SaveRecovered? && abandoned then
          var done := r.(status := Recovered);
          Some(Released(Stored(w, done, s.save).(settled := if s.save.effective then w.settled + {r.op}
                                                 else w.settled)))
        else None
  }

  // Clean-up reads the intent and returns only over a complete one that binds this receipt.
  predicate IntentBound(w: World, r: Receipt) {
    r.op in w.intents && w.intents[r.op] == Complete(r.profile, r.transport)
  }

  // Recovery starts over a pending receipt, the profile and transport it names, and an intent
  // file; it looks only for the file.
  predicate Recoverable(w: World, transport: Option<Transport>) {
    && w.receipt.Some? && w.receipt.value.status in {Running, NeedsRecovery}
    && w.profile == Some(w.receipt.value.profile)
    && w.receipt.value.transport == transport
    && w.receipt.value.op in w.intents
  }

  const EMPTY := World(None, None, map[], map[], None, {}, {}, {}, {})

  function Run(steps: seq<Step>): Option<World> {
    if steps == [] then Some(EMPTY) else
    var before := Run(steps[..|steps| - 1]);
    if before.None? then None else Apply(before.value, steps[|steps| - 1])
  }

  // ---- The invariant ------------------------------------------------------------------

  // Attempts whose simulation began and that neither passed nor were recovered.
  function Unresolved(w: World): set<Op> {
    w.begun - w.settled
  }

  // The persisted receipt names the attempt as pending, for the profile that is still selected.
  ghost predicate NamedPending(w: World, op: Op) {
    && w.receipt.Some? && w.receipt.value.op == op
    && w.receipt.value.status in {Running, NeedsRecovery}
    && w.profile == Some(w.receipt.value.profile)
  }

  ghost predicate PassedIsVerified(w: World, r: Receipt) {
    r.status == Passed ==>
      (r.profile, r.transport, r.op) in w.verified && r.report == Some(Report(r.op, r.profile, r.transport, true))
  }

  ghost predicate Quiet(w: World) {
    Unresolved(w) == {}
  }

  ghost predicate OnlyMine(w: World, op: Op) {
    Unresolved(w) <= {op}
  }

  ghost predicate StageSound(w: World, r: Receipt, stage: Stage) {
    && w.profile == Some(r.profile) && r.op in w.ops
    && match stage
       case Fresh => r.status == NotStarted && r.report.None? && Quiet(w) && r.op !in w.begun
       case Saved => r.status == NotStarted && r.report.None? && Quiet(w) && r.op !in w.begun && w.receipt == Some(r)
       case Ready => r.status == Running && r.report.None? && Quiet(w) && r.op !in w.begun
       case Simulating => r.status == Running && OnlyMine(w, r.op) && w.receipt == Some(r)
       case Reported(report) => r.status == Running && OnlyMine(w, r.op) && w.receipt == Some(r)
       case Verified(report) => r.status == Running && OnlyMine(w, r.op) && w.receipt == Some(r)
                                && report == Report(r.op, r.profile, r.transport, true)
                                && (r.profile, r.transport, r.op) in w.verified
       case Failing => OnlyMine(w, r.op) && (r.status == NotStarted ==> Quiet(w))
                       && r.status in {NotStarted, Running, Passed}
                       && (r.op in Unresolved(w) ==> NamedPending(w, r.op))
  }

  // An intent that was recorded for this receipt binds this receipt.
  ghost predicate IntentMine(w: World, r: Receipt) {
    r.op in w.intents ==> w.intents[r.op] == Torn || IntentBound(w, r)
  }

  ghost predicate IntentsSound(w: World) {
    && w.intents.Keys <= w.ops
    && (w.receipt.Some? ==> IntentMine(w, w.receipt.value))
    && (w.actor.Some? && w.actor.value.Testing? ==>
          IntentMine(w, w.actor.value.receipt) && w.actor.value.receipt.op in w.ops)
    && (w.actor.Some? && w.actor.value.Recovering? ==> IntentMine(w, w.actor.value.receipt))
  }

  ghost predicate Inv(w: World) {
    IntentsSound(w) && ReceiptSound(w)
  }

  ghost predicate ReceiptSound(w: World) {
    && (forall op :: op in Unresolved(w) ==> NamedPending(w, op))
    && (w.receipt.Some? ==> PassedIsVerified(w, w.receipt.value))
    && (!Inactive(w.receipt) ==> w.profile == Some(w.receipt.value.profile))
    && w.begun <= w.ops
    && (w.actor.Some? ==>
          match w.actor.value
          case Selecting(_) => Quiet(w) && Inactive(w.receipt)
          case Testing(r, stage) => StageSound(w, r, stage)
          case Recovering(r, _) => OnlyMine(w, r.op) && w.receipt == Some(r) && r.status in {Running, NeedsRecovery})
  }

  // Before the simulation began nothing is unresolved; afterwards only the attempt itself.
  lemma EarlyStepKeeps(w: World, r: Receipt, stage: Stage, s: Step)
    requires ReceiptSound(w) && w.actor == Some(Testing(r, stage)) && TestStep(w, r, stage, s).Some?
    requires stage.Fresh? || stage.Saved? || stage.Ready?
    ensures ReceiptSound(TestStep(w, r, stage, s).value)
  {
  }

  lemma MiddleStepKeeps(w: World, r: Receipt, stage: Stage, s: Step)
    requires ReceiptSound(w) && w.actor == Some(Testing(r, stage)) && TestStep(w, r, stage, s).Some?
    requires stage.Simulating? || stage.Reported?
    ensures ReceiptSound(TestStep(w, r, stage, s).value)
  {
  }

  lemma LateStepKeeps(w: World, r: Receipt, stage: Stage, s: Step)
    requires ReceiptSound(w) && w.actor == Some(Testing(r, stage)) && TestStep(w, r, stage, s).Some?
    requires stage.Verified? || stage.Failing?
    ensures ReceiptSound(TestStep(w, r, stage, s).value)
  {
  }

  // Whatever a step stores carries the intent of the receipt the lock holder works on.
  lemma TestKeepsIntents(w: World, r: Receipt, stage: Stage, s: Step)
    requires IntentsSound(w) && w.actor == Some(Testing(r, stage)) && TestStep(w, r, stage, s).Some?
    requires stage.Simulating? ==> w.receipt == Some(r)
    ensures IntentsSound(TestStep(w, r, stage, s).value)
  {
  }

  lemma IntentsStaySound(w: World, s: Step)
    requires Inv(w) && Apply(w, s).Some?
    ensures IntentsSound(Apply(w, s).value)
  {
    if !s.Die? && w.actor.Some? && w.actor.value.Testing? {
      TestKeepsIntents(w, w.actor.value.receipt, w.actor.value.stage, s);
    }
  }

  lemma InactiveIsQuiet(w: World)
    requires ReceiptSound(w) && Inactive(w.receipt)
    ensures Quiet(w)
  {
    assert forall op :: op !in Unresolved(w);
  }

  lemma StepKeepsInv(w: World, s: Step)
    requires Inv(w) && Apply(w, s).Some?
    ensures Inv(Apply(w, s).value)
  {
    IntentsStaySound(w, s);
    ReceiptStaysSound(w, s);
  }

  lemma ReceiptStaysSound(w: World, s: Step)
    requires ReceiptSound(w) && Apply(w, s).Some?
    ensures ReceiptSound(Apply(w, s).value)
  {
    var n := Apply(w, s).value;
    if s.Die? {
      assert forall op :: op in Unresolved(n) ==> op in Unresolved(w) && NamedPending(w, op);
    } else if w.actor.None? {
      if Inactive(w.receipt) {
        InactiveIsQuiet(w);
      }
      assert forall op :: op in Unresolved(n) ==> op in Unresolved(w) && NamedPending(w, op);
    } else {
      match w.actor.value
      case Selecting(candidate) => assert Unresolved(n) == {};
      case Testing(r, stage) =>
        match stage {
          case Fresh | Saved | Ready => EarlyStepKeeps(w, r, stage, s);
          case Simulating | Reported(_) => MiddleStepKeeps(w, r, stage, s);
          case Verified(_) | Failing => LateStepKeeps(w, r, stage, s);
        }
      case Recovering(r, abandoned) =>
        assert forall op :: op in Unresolved(n) ==> op in Unresolved(w) && NamedPending(w, op);
    }
  }

  // ---- Over every run -----------------------------------------------------------------

  lemma {:induction false} RunKeepsInv(steps: seq<Step>)
    requires Run(steps).Some?
    ensures Inv(Run(steps).value)
  {
    if steps != [] {
      RunKeepsInv(steps[..|steps| - 1]);
      StepKeepsInv(Run(steps[..|steps| - 1]).value, steps[|steps| - 1]);
    }
  }

  // At most one attempt is unresolved; the persisted receipt names it as running or needing
  // recovery, with the digest of the profile that is still selected; and no select or self-test
  // can start.
  lemma UnresolvedIsNamed(steps: seq<Step>, op: Op)
    requires Run(steps).Some? && op in Unresolved(Run(steps).value)
    ensures var w := Run(steps).value;
            && Unresolved(w) == {op}
            && NamedPending(w, op)
            && (forall candidate :: Apply(w, BeginSelect(candidate)).None?)
            && (forall o, t :: Apply(w, BeginTest(o, t)).None?)
            && (w.actor.Some? ==> !w.actor.value.Selecting?)
  {
    RunKeepsInv(steps);
    var w := Run(steps).value;
    assert forall o :: o in Unresolved(w) ==> NamedPending(w, o);
  }

  // Recovery over a complete intent closes the attempt and lets select and self-test in.
  lemma RecoveryReopens(steps: seq<Step>)
    requires Run(steps).Some? && Run(steps).value.actor.None? && !Inactive(Run(steps).value.receipt)
    requires IntentBound(Run(steps).value, Run(steps).value.receipt.value)
    ensures var r := Run(steps).value.receipt.value;
            var more := [BeginRecover(r.transport), AbandonReturns(true), SaveRecovered(Save(true, false))];
            && Run(steps + more).Some?
            && var c := Run(steps + more).value;
            && c.receipt == Some(r.(status := Recovered)) && Unresolved(c) == {} && c.actor.None?
            && forall candidate :: Apply(c, BeginSelect(candidate)).Some?
  {
    RunKeepsInv(steps);
    var w := Run(steps).value;
    var r := w.receipt.value;
    assert forall o :: o in Unresolved(w) ==> NamedPending(w, o);
    assert Unresolved(w) <= {r.op};
    var begin, cleaned, saved := BeginRecover(r.transport), AbandonReturns(true), SaveRecovered(Save(true, false));
    After(steps, begin);
    After(steps + [begin], cleaned);
    After(steps + [begin] + [cleaned], saved);
    assert steps + [begin, cleaned, saved] == steps + [begin] + [cleaned] + [saved];
    assert Unresolved(Run(steps + [begin, cleaned, saved]).value) == {};
  }

  // A pending receipt whose intent binds nothing: at most an attempt to recover it is under way.
  ghost predicate Stuck(w: World, r: Receipt) {
    && w.receipt == Some(r) && !Inactive(w.receipt) && !IntentBound(w, r)
    && (w.actor.None? || w.actor == Some(Recovering(r, false)))
  }

  lemma StuckStays(w: World, s: Step, r: Receipt)
    requires Stuck(w, r) && Apply(w, s).Some?
    ensures Stuck(Apply(w, s).value, r)
  {
  }

  // No continuation whatever moves such a receipt.
  lemma {:induction false} StuckForever(steps: seq<Step>, more: seq<Step>, r: Receipt)
    requires Run(steps).Some? && Stuck(Run(steps).value, r) && Run(steps + more).Some?
    ensures Stuck(Run(steps + more).value, r)
    decreases |more|
  {
    if |more| == 0 {
      assert steps + more == steps;
    } else {
      var prefix, last := more[..|more| - 1], more[|more| - 1];
      assert steps + more == (steps + prefix) + [last];
      After(steps + prefix, last);
      StuckForever(steps, prefix, r);
      StuckStays(Run(steps + prefix).value, last, r);
    }
  }

  ghost predicate Recovers(steps: seq<Step>, more: seq<Step>, r: Receipt) {
    Run(steps + more).Some? && Run(steps + more).value.receipt == Some(r.(status := Recovered))
  }

  // A pending receipt can ever be recovered if and only if the run directory holds a complete
  // intent; without one no continuation changes the receipt at all. Recovery tests only that the
  // intent is a file, so it starts over a torn one and fails every time.
  lemma PendingNeedsIntent(steps: seq<Step>)
    requires Run(steps).Some? && Run(steps).value.actor.None? && !Inactive(Run(steps).value.receipt)
    ensures var w := Run(steps).value; var r := w.receipt.value;
            && ((exists more :: Recovers(steps, more, r)) <==> r.op in w.intents && w.intents[r.op].Complete?)
            && (!(r.op in w.intents && w.intents[r.op].Complete?) ==>
                forall more :: Run(steps + more).Some? ==> Run(steps + more).value.receipt == w.receipt)
  {
    RunKeepsInv(steps);
    var w := Run(steps).value;
    var r := w.receipt.value;
    if IntentBound(w, r) {
      RecoveryReopens(steps);
      assert Recovers(steps, [BeginRecover(r.transport), AbandonReturns(true), SaveRecovered(Save(true, false))], r);
    } else {
      forall more | Run(steps + more).Some?
        ensures Run(steps + more).value.receipt == w.receipt && !Recovers(steps, more, r)
      {
        StuckForever(steps, more, r);
      }
    }
  }

  lemma After(prefix: seq<Step>, s: Step)
    ensures Run(prefix + [s]) == if Run(prefix).None? then None else Apply(Run(prefix).value, s)
  {
    assert (prefix + [s])[..|prefix|] == prefix;
  }

  // A run up to the moment "running" was saved.
  lemma RunningSaved(profile: Profile, op: Op) returns (steps: seq<Step>)
    ensures Run(steps).Some?
    ensures var w, r := Run(steps).value, Receipt(op, profile, None, Running, None);
            w.actor == Some(Testing(r, Simulating)) && w.profile == Some(profile) && w.receipt == Some(r)
              && op !in w.intents && op in w.begun
  {
    var clean := Save(true, false);
    var a := [] + [BeginSelect(profile)];
    After([], BeginSelect(profile));
    var b := a + [FinishSelect(clean)];
    After(a, FinishSelect(clean));
    var c := b + [BeginTest(op, None)];
    After(b, BeginTest(op, None));
    var d := c + [SaveNotStarted(clean)];
    After(c, SaveNotStarted(clean));
    var e := d + [MakeSimulator(true)];
    After(d, MakeSimulator(true));
    steps := e + [SaveRunning(clean)];
    After(e, SaveRunning(clean));
  }

  // A process that dies right after "running" was saved, and the state it leaves.
  lemma DiedBeforeIntent(profile: Profile, op: Op) returns (steps: seq<Step>)
    ensures Run(steps).Some?
    ensures var w := Run(steps).value;
            w.actor.None? && w.receipt == Some(Receipt(op, profile, None, Running, None)) && op !in w.intents
              && op in w.begun
  {
    var saved := RunningSaved(profile, op);
    steps := saved + [Die];
    After(saved, Die);
  }

  // A process that dies after it opened the intent file and before its content was written.
  lemma DiedWritingIntent(profile: Profile, op: Op) returns (steps: seq<Step>)
    ensures Run(steps).Some?
    ensures var w := Run(steps).value;
            w.actor.None? && w.receipt == Some(Receipt(op, profile, None, Running, None))
            && op in w.intents && w.intents[op].Torn? && op in w.begun
            && Recoverable(w, None)
  {
    var saved := RunningSaved(profile, op);
    var begun := saved + [OpenIntent];
    After(saved, OpenIntent);
    steps := begun + [Die];
    After(begun, Die);
  }

  ghost predicate Unrecoverable(steps: seq<Step>, op: Op, torn: bool) {
    && Run(steps).Some? && op in Run(steps).value.begun && (op in Run(steps).value.intents <==> torn)
    && !Inactive(Run(steps).value.receipt)
    && forall more :: Run(steps + more).Some? ==> Run(steps + more).value.receipt == Run(steps).value.receipt
  }

  // Both states are reachable for every profile, and then no command ever completes: without the
  // file none starts, with a torn one only recovery starts, and fails.
  lemma StuckIsReachable(profile: Profile, op: Op)
    ensures exists steps :: Unrecoverable(steps, op, false)
    ensures exists steps :: Unrecoverable(steps, op, true)
  {
    var absent := DiedBeforeIntent(profile, op);
    PendingNeedsIntent(absent);
    assert Unrecoverable(absent, op, false);
    var torn := DiedWritingIntent(profile, op);
    PendingNeedsIntent(torn);
    assert Unrecoverable(torn, op, true);
  }

  // ---- A profile that is ready --------------------------------------------------------

  // The reader takes no lock, so profile, receipt and evidence may be read at different moments.
  function ReadyProfile(profile: Option<Profile>, receipt: Option<Receipt>, reports: map<Op, Report>,
                        transport: Option<Transport>):
    Result<Profile>
  {
    if profile.None? then Err("runtime_selection_missing")
    else if receipt.None? || receipt.value.status != Passed then Err("runtime_selftest_required")
    else
      var r := receipt.value;
      if r.profile != profile.value then Err("runtime_selftest_stale")
      else if r.op !in reports || r.report != Some(reports[r.op]) then Err("runtime_selftest_report_changed")
      else if !Verifies(profile.value, r.op, r.transport, reports[r.op]) then Err("runtime_selftest_not_passed")
      else if r.transport != transport then Err("runtime_selftest_transport_changed")
      else Ok(profile.value)
  }

  lemma StepVerifiedGrows(w: World, s: Step)
    requires Apply(w, s).Some?
    ensures w.verified <= Apply(w, s).value.verified
  {
  }

  lemma {:induction false} VerifiedGrows(steps: seq<Step>, n: nat)
    requires n <= |steps| && Run(steps).Some?
    ensures Run(steps[..n]).Some? && Run(steps[..n]).value.verified <= Run(steps).value.verified
    decreases |steps|
  {
    if n == |steps| {
      assert steps[..n] == steps;
    } else {
      var prefix := steps[..|steps| - 1];
      assert prefix[..n] == steps[..n];
      StepVerifiedGrows(Run(prefix).value, steps[|steps| - 1]);
      VerifiedGrows(prefix, n);
    }
  }

  // Whenever the reads happened in a run, a returned profile completed a verified passing run
  // with exactly this transport.
  lemma ReadyWasVerified(steps: seq<Step>, atProfile: nat, atReceipt: nat, reports: map<Op, Report>,
                         transport: Option<Transport>)
    requires Run(steps).Some? && atProfile <= |steps| && atReceipt <= |steps|
    requires Run(steps[..atProfile]).Some? && Run(steps[..atReceipt]).Some?
    ensures var profile := Run(steps[..atProfile]).value.profile;
            var receipt := Run(steps[..atReceipt]).value.receipt;
            ReadyProfile(profile, receipt, reports, transport).Ok? ==>
              && profile.Some? && ReadyProfile(profile, receipt, reports, transport).value == profile.value
              && exists op :: (profile.value, transport, op) in Run(steps).value.verified
  {
    VerifiedGrows(steps, atReceipt);
    RunKeepsInv(steps[..atReceipt]);
    var profile := Run(steps[..atProfile]).value.profile;
    var receipt := Run(steps[..atReceipt]).value.receipt;
    if ReadyProfile(profile, receipt, reports, transport).Ok? {
      assert PassedIsVerified(Run(steps[..atReceipt]).value, receipt.value);
      assert (profile.value, transport, receipt.value.op) in Run(steps).value.verified;
    }
  }

  // ---- The self-test, save by save ----------------------------------------------------

  function RunFrom(w: World, steps: seq<Step>): Option<World> {
    if |steps| == 0 then Some(w) else
    var before := RunFrom(w, steps[..|steps| - 1]);
    if before.None? then None else Apply(before.value, steps[|steps| - 1])
  }

  // The transition system, started over these two files, takes these steps to this state.
  ghost predicate Leads(profile: Option<Profile>, receipt: Option<Receipt>, trace: seq<Step>, w: World) {
    RunFrom(EMPTY.(profile := profile, receipt := receipt), trace) == Some(w)
  }

  lemma OneMoreStep(profile: Option<Profile>, receipt: Option<Receipt>, trace: seq<Step>, w: World, s: Step)
    requires Leads(profile, receipt, trace, w) && Apply(w, s).Some?
    ensures Leads(profile, receipt, trace + [s], Apply(w, s).value)
  {
    assert (trace + [s])[..|trace|] == trace;
  }

  // A story so far: the steps taken, and where they lead.
  datatype Story = Story(profile: Option<Profile>, before: Option<Receipt>, trace: seq<Step>, w: World)

  // The test stands at a stage, over this receipt on disk.
  ghost predicate Within(y: Story, receipt: Option<Receipt>, r: Receipt, stage: Stage, began: bool) {
    && Leads(y.profile, y.before, y.trace, y.w) && y.w.actor == Some(Testing(r, stage)) && y.w.receipt == receipt
    && (r.op in y.w.begun <==> began) && y.w.intents == map[]
  }

  // The test is over.
  ghost predicate Over(y: Story, receipt: Option<Receipt>, op: Op, began: bool) {
    && Leads(y.profile, y.before, y.trace, y.w) && y.w.actor.None? && y.w.receipt == receipt
    && (op in y.w.begun <==> began)
  }

  function On(receipt: Option<Receipt>, r: Receipt, save: Save): Option<Receipt> {
    if save.effective then Some(r) else receipt
  }

  lemma Told(y: Story, s: Step) returns (n: Story)
    requires Leads(y.profile, y.before, y.trace, y.w) && Apply(y.w, s).Some?
    ensures Leads(n.profile, n.before, n.trace, n.w)
            && n == Story(y.profile, y.before, y.trace + [s], Apply(y.w, s).value)
  {
    OneMoreStep(y.profile, y.before, y.trace, y.w, s);
    n := Story(y.profile, y.before, y.trace + [s], Apply(y.w, s).value);
  }

  function Opening(profile: Option<Profile>, receipt: Option<Receipt>): Story {
    Story(profile, receipt, [], EMPTY.(profile := profile, receipt := receipt))
  }

  lemma TestBegins(profile: Option<Profile>, receipt: Option<Receipt>, op: Op, transport: Option<Transport>)
    returns (n: Story)
    requires Inactive(receipt) && profile.Some?
    ensures n.profile == profile && n.before == receipt
    ensures Within(n, receipt, Receipt(op, profile.value, transport, NotStarted, None), Fresh, false)
  {
    n := Told(Opening(profile, receipt), BeginTest(op, transport));
  }

  lemma NotStartedSaved(y: Story, receipt: Option<Receipt>, r: Receipt, save: Save) returns (n: Story)
    requires Within(y, receipt, r, Fresh, false)
    ensures n.profile == y.profile && n.before == y.before
    ensures if Clean(save) then Within(n, On(receipt, r, save), r, Stage.Saved, false)
            else Over(n, On(receipt, r, save), r.op, false)
  {
    n := Told(y, SaveNotStarted(save));
  }

  lemma SimulatorMade(y: Story, receipt: Option<Receipt>, r: Receipt, ok: bool) returns (n: Story)
    requires Within(y, receipt, r, Stage.Saved, false)
    ensures n.profile == y.profile && n.before == y.before
    ensures Within(n, receipt, if ok then r.(status := Running) else r, if ok then Stage.Ready else Failing, false)
  {
    n := Told(y, MakeSimulator(ok));
  }

  lemma RunningStored(y: Story, receipt: Option<Receipt>, r: Receipt, save: Save) returns (n: Story)
    requires Within(y, receipt, r, Stage.Ready, false)
    ensures n.profile == y.profile && n.before == y.before
    ensures Within(n, On(receipt, r, save), r, if Clean(save) then Simulating else Failing, Clean(save))
  {
    n := Told(y, SaveRunning(save));
  }

  // The process is at a stage of its test, after the simulation began.
  ghost predicate Tests(y: Story, receipt: Option<Receipt>, r: Receipt, stage: Stage) {
    && Leads(y.profile, y.before, y.trace, y.w) && y.w.receipt == receipt && r.op in y.w.begun
    && y.w.actor == Some(Testing(r, stage))
  }

  lemma IntentStored(y: Story, receipt: Option<Receipt>, r: Receipt) returns (n: Story)
    requires Within(y, receipt, r, Simulating, true)
    ensures n.profile == y.profile && n.before == y.before
    ensures Tests(n, receipt, r, Simulating) && IntentBound(n.w, r)
  {
    n := Told(y, OpenIntent);
    assert Apply(n.w, FinishIntent) == Some(n.w.(intents := n.w.intents[r.op := Complete(r.profile, r.transport)]));
    n := Told(n, FinishIntent);
  }

  lemma ReportReturned(y: Story, receipt: Option<Receipt>, r: Receipt, report: Report) returns (n: Story)
    requires Tests(y, receipt, r, Simulating) && IntentBound(y.w, r)
    ensures n.profile == y.profile && n.before == y.before && Tests(n, receipt, r, Reported(report))
  {
    n := Told(y, Simulate(report));
  }

  lemma ReportChecked(y: Story, receipt: Option<Receipt>, r: Receipt, report: Report) returns (n: Story)
    requires Tests(y, receipt, r, Reported(report))
    ensures n.profile == y.profile && n.before == y.before
    ensures Tests(n, receipt, r, if Verifies(r.profile, r.op, r.transport, report) then Verified(report) else Failing)
  {
    n := Told(y, Verify);
  }

  // The simulation writes its intent, and returns a report that is checked, or raises.
  lemma SimulationReturns(y: Story, receipt: Option<Receipt>, r: Receipt, outcome: Option<Report>) returns (n: Story)
    requires Within(y, receipt, r, Simulating, true)
    ensures n.profile == y.profile && n.before == y.before
    ensures var good := outcome.Some? && Verifies(r.profile, r.op, r.transport, outcome.value);
            Tests(n, receipt, r, if good then Verified(outcome.value) else Failing)
  {
    if outcome.None? {
      n := Told(y, SimulationRaises);
    } else {
      n := IntentStored(y, receipt, r);
      n := ReportReturned(n, receipt, r, outcome.value);
      n := ReportChecked(n, receipt, r, outcome.value);
    }
  }

  lemma PassedStored(y: Story, receipt: Option<Receipt>, r: Receipt, report: Report, save: Save) returns (n: Story)
    requires Tests(y, receipt, r, Verified(report))
    ensures n.profile == y.profile && n.before == y.before
    ensures var passed := r.(status := Passed, report := Some(report));
            if Clean(save) then Over(n, On(receipt, passed, save), r.op, true)
            else Tests(n, On(receipt, passed, save), passed, Failing)
  {
    n := Told(y, SavePassed(save));
  }

  lemma FailureStored(y: Story, receipt: Option<Receipt>, r: Receipt, save: Save, began: bool) returns (n: Story)
    requires Leads(y.profile, y.before, y.trace, y.w) && y.w.receipt == receipt && (r.op in y.w.begun <==> began)
    requires y.w.actor == Some(Testing(r, Failing))
    ensures n.profile == y.profile && n.before == y.before
    ensures var failed := if r.status.NotStarted? then r else r.(status := NeedsRecovery, report := None);
            Over(n, On(receipt, failed, save), r.op, began)
  {
    n := Told(y, SaveFailure(save));
  }

  lemma Died(y: Story, receipt: Option<Receipt>, op: Op, began: bool) returns (n: Story)
    requires Leads(y.profile, y.before, y.trace, y.w) && y.w.receipt == receipt && (op in y.w.begun <==> began)
    requires y.w.actor.Some?
    ensures n.profile == y.profile && n.before == y.before && Over(n, receipt, op, began)
  {
    n := Told(y, Die);
  }

  class StateDirectory {
    var profile: Option<Profile>
    var receipt: Option<Receipt>

    method SaveReceipt(r: Receipt, save: Save) returns (ok: bool)
      modifies this`receipt
      ensures receipt == if save.effective then Some(r) else old(receipt)
      ensures ok <==> Clean(save)
    {
      if save.effective {
        receipt := Some(r);
      }
      return Clean(save);
    }

    // From the simulation on: report, evidence, the passing receipt, or the handler.
    method FinishTest(running: Receipt, outcome: Option<Report>, passed: Save, failure: Save, stop: nat,
                      ghost begun: Story)
      returns (r: Result<Receipt>, ghost story: Story)
      requires running.status == Running && receipt == Some(running)
               && Within(begun, receipt, running, Simulating, true)
      modifies this`receipt
      ensures story.profile == begun.profile && story.before == begun.before && Over(story, receipt, running.op, true)
      ensures var good := outcome.Some? && Verifies(running.profile, running.op, running.transport, outcome.value);
              && (r.Ok? ==>
                  good && r.value == running.(status := Passed, report := outcome) && receipt == Some(r.value))
              && receipt.Some? && receipt.value.op == running.op && receipt.value.profile == running.profile
              && (receipt.value.status in {Running, NeedsRecovery} || (receipt.value.status == Passed && good))
              && (stop >= 5 && Clean(passed) && Clean(failure) ==>
                    if good then r.Ok?
                    else (r.Err? && receipt == Some(running.(status := NeedsRecovery, report := None))))
    {
      story := begun;
      if stop <= 3 {
        story := Died(story, receipt, running.op, true);
        return Err("process died"), story;
      }
      var current := running;
      story := SimulationReturns(story, receipt, current, outcome);
      if outcome.Some? && Verifies(current.profile, current.op, current.transport, outcome.value) {
        story := PassedStored(story, receipt, current, outcome.value, passed);
        current := current.(status := Passed, report := outcome);
        var ok := SaveReceipt(current, passed);
        if ok {
          return Ok(current), story;
        }
        if stop <= 4 {
          story := Died(story, receipt, current.op, true);
          return Err("process died"), story;
        }
      }
      story := FailureStored(story, receipt, current, failure, true);
      current := current.(status := NeedsRecovery, report := None);
      var ok := SaveReceipt(current, failure);
      return Err("self-test failed"), story;
    }

    // `stop` is the number of effects before the process dies; `outcome` is what the simulation
    // returns, if it returns. The local receipt is updated in place between the saves.
    method SelfTest(op: Op, transport: Option<Transport>, saves: seq<Save>, constructs: bool, outcome: Option<Report>,
                    stop: nat)
      returns (r: Result<Receipt>, began: bool, ghost story: Story)
      requires |saves| == 4
      modifies this`receipt
      ensures !Inactive(old(receipt)) || old(profile).None? ==> r.Err? && !began && receipt == old(receipt)
      // The call is a run of the transition system over the same files, with these saves.
      ensures story.profile == profile && story.before == old(receipt) && Over(story, receipt, op, began)
      ensures r.Ok? ==> receipt == Some(r.value) && r.value.op == op && r.value.status == Passed
                        && r.value.profile == profile.value && r.value.transport == transport
                        && outcome.Some? && r.value.report == outcome
                        && Verifies(r.value.profile, op, transport, outcome.value)
      ensures began ==> receipt.Some? && receipt.value.op == op && Some(receipt.value.profile) == profile
                        && (receipt.value.status in {Running, NeedsRecovery}
                            || (receipt.value.status == Passed && outcome.Some?
                                && Verifies(receipt.value.profile, op, transport, outcome.value)))
      ensures Inactive(old(receipt)) && profile.Some? && stop >= 5 && (forall k :: 0 <= k < 4 ==> Clean(saves[k])) ==>
                if constructs && outcome.Some? && Verifies(profile.value, op, transport, outcome.value) then r.Ok?
                else (
                  r.Err? && receipt ==
                  Some(Receipt(op, profile.value, transport, if constructs then NeedsRecovery else NotStarted, None)))
      ensures !began ==>
              receipt == old(receipt) || (receipt.Some? && receipt.value.op == op && receipt.value.status != Passed)
    {
      began := false;
      story := Opening(profile, receipt);
      if !Inactive(receipt) {
        return Err("runtime_recovery_required_before_retry_or_reselection"), began, story;
      }
      if profile.None? {
        return Err("runtime_selection_missing"), began, story;
      }
      story := TestBegins(profile, receipt, op, transport);
      var current := Receipt(op, profile.value, transport, NotStarted, None);
      // Uncertainty is persisted before a simulator exists.
      story := NotStartedSaved(story, receipt, current, saves[0]);
      var ok := SaveReceipt(current, saves[0]);
      if !ok || stop <= 1 {
        if ok {
          story := Died(story, receipt, op, began);
        }
        return Err("save failed or process died"), began, story;
      }
      story := SimulatorMade(story, receipt, current, constructs);
      var failed := !constructs;
      if !failed {
        current := current.(status := Running);
        story := RunningStored(story, receipt, current, saves[1]);
        ok := SaveReceipt(current, saves[1]);
        failed := !ok;
        began := ok;
        if stop <= 2 {
          story := Died(story, receipt, op, began);
          return Err("process died"), began, story;
        }
      }
      if !failed {
        r, story := FinishTest(current, outcome, saves[2], saves[3], stop, story);
        return r, began, story;
      }
      story := FailureStored(story, receipt, current, saves[3], began);
      if current.status != NotStarted {
        current := current.(status := NeedsRecovery, report := None);
      }
      ok := SaveReceipt(current, saves[3]);
      return Err("self-test failed"), began, story;
    }
  }
}
