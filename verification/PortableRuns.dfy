// Which retained runs an export accepts: the intent of every one must be the plain one, and a run
// staged through a workload transport records two more fields.
module PortableRuns {
  import opened Outcomes
  import opened Numerals
  import opened Blobs
  import opened SessionStore
  import opened Portable
  import opened PortableBackup
  import opened PortableRestore

  predicate IsIntent(key: FileKey) {
    key.RunFile? && key.name.Intent?
  }

  // The run's intent is on disk and binds exactly the retained report.
  predicate IntentBinds(fmt: Formats, report: Report, files: map<FileKey, Bytes>) {
    var key := RunFile(report.runId, RunName.Intent);
    key in files && fmt.readIntent(files[key]) == Some(IntentOf(report))
  }

  // The run's intent is the one its simulation wrote, staged or not.
  predicate IntentRecorded(fmt: Formats, report: Report, files: map<FileKey, Bytes>) {
    var key := RunFile(report.runId, RunName.Intent);
    key in files && fmt.readIntent(files[key]).Some?
      && fmt.readIntent(files[key]).value.(staged := None) == IntentOf(report)
  }

  predicate RunDirect(fmt: Formats, report: Report, files: map<FileKey, Bytes>) {
    var key := RunFile(report.runId, RunName.Intent);
    key in files && fmt.readIntent(files[key]).Some? && fmt.readIntent(files[key]).value.staged.None?
  }

  // What is asked of a snapshot's retained run, if it has one.
  predicate OfRun(q: Report -> bool, state: State) {
    state.simulation.Some? ==> q(state.simulation.value)
  }

  ghost predicate OfRuns(q: Report -> bool, states: seq<State>, n: nat)
    requires n <= |states|
  {
    n == 0 || (OfRuns(q, states, n - 1) && OfRun(q, states[n - 1]))
  }

  // Two disks that differ at most in the content of intent files, within the size bound.
  ghost predicate DifferInIntents(disk: map<FileKey, Bytes>, other: map<FileKey, Bytes>) {
    && (forall k :: k in disk <==> k in other)
    && (forall k :: k in disk && !IsIntent(k) ==> disk[k] == other[k])
    && (forall k :: k in other && IsIntent(k) ==> |other[k]| <= MAX_FILE_BYTES)
  }

  lemma ReferencesAsBefore(rules: Rules, references: map<string, Digest>, files: map<FileKey, Bytes>,
                           other: map<FileKey, Bytes>)
    requires DifferInIntents(files, other) && ReferencesChecked(rules, references, files)
    ensures ReferencesChecked(rules, references, other)
  {
    forall p | p in references
      ensures BlobChecked(rules, p, references[p], other)
    {
      assert BlobChecked(rules, p, references[p], files);
      assert !IsIntent(BlobFile(references[p]));
    }
  }

  lemma RunWithIntent(fmt: Formats, state: State, files: map<FileKey, Bytes>, other: map<FileKey, Bytes>)
    requires DifferInIntents(files, other) && RunChecked(fmt, state, files)
    requires state.simulation.Some? ==> IntentBinds(fmt, state.simulation.value, other)
    ensures RunChecked(fmt, state, other)
  {
    if state.simulation.Some? {
      var report := state.simulation.value;
      assert !IsIntent(RunFile(report.runId, Runner)) && !IsIntent(RunFile(report.runId, ReportJson))
             && !IsIntent(RunFile(report.runId, Results));
      forall name | name in report.artifacts
        ensures ArtifactChecked(report, name, other)
      {
        assert ArtifactChecked(report, name, files);
        assert name in EVIDENCE;
        assert !IsIntent(RunFile(report.runId, name));
      }
    }
  }

  lemma {:induction false} StatesWithIntents(rules: Rules, fmt: Formats, states: seq<State>, n: nat,
                                             files: map<FileKey, Bytes>, other: map<FileKey, Bytes>)
    requires n <= |states| && DifferInIntents(files, other) && StatesChecked(rules, fmt, states, n, files)
    ensures StatesChecked(rules, fmt, states, n, other) <==>
            OfRuns((r: Report) => IntentBinds(fmt, r, other), states, n)
  {
    if n > 0 {
      StateWithIntent(rules, fmt, n - 1, states[n - 1], files, other);
      StatesWithIntents(rules, fmt, states, n - 1, files, other);
    }
  }

  lemma StateWithIntent(rules: Rules, fmt: Formats, revision: nat, state: State, files: map<FileKey, Bytes>,
                        other: map<FileKey, Bytes>)
    requires DifferInIntents(files, other) && StateChecked(rules, fmt, revision, state, files)
    ensures StateChecked(rules, fmt, revision, state, other) <==>
            OfRun((r: Report) => IntentBinds(fmt, r, other), state)
  {
    ReferencesAsBefore(rules, state.files, files, other);
    ReferencesAsBefore(rules, ImportDigests(state), files, other);
    if OfRun((r: Report) => IntentBinds(fmt, r, other), state) {
      RunWithIntent(fmt, state, files, other);
    }
  }

  lemma {:induction false} ObtainableAsBefore(rules: Rules, fmt: Formats, blobs: map<Digest, Bytes>, states: seq<State>,
                                              n: nat, disk: map<FileKey, Bytes>, other: map<FileKey, Bytes>)
    requires n <= |states| && DifferInIntents(disk, other) && AllObtainable(rules, fmt, blobs, states, n, disk)
    ensures AllObtainable(rules, fmt, blobs, states, n, other)
  {
    if n > 0 {
      RunPresentAsBefore(states[n - 1], disk, other);
      ObtainableAsBefore(rules, fmt, blobs, states, n - 1, disk, other);
    }
  }

  lemma RunPresentAsBefore(state: State, disk: map<FileKey, Bytes>, other: map<FileKey, Bytes>)
    requires DifferInIntents(disk, other) && RunPresent(state, disk)
    ensures RunPresent(state, other)
  {
    if state.simulation.Some? {
      var id := state.simulation.value.runId;
      forall name | name in RUN_FILES
        ensures RunFile(id, name) in other && |other[RunFile(id, name)]| <= MAX_FILE_BYTES
      {
        assert RunFile(id, name) in disk;
      }
    }
  }

  // What is gathered differs where the disks do.
  lemma GatheredDiffers(keys: set<FileKey>, records: Bytes, blobs: map<Digest, Bytes>, disk: map<FileKey, Bytes>,
                        other: map<FileKey, Bytes>)
    requires DifferInIntents(disk, other)
    ensures DifferInIntents(Gathered(keys, records, blobs, disk), Gathered(keys, records, blobs, other))
  {
  }

  // Where the intents of all runs are gathered and on disk, they are the same there.
  lemma FetchedIntents(fmt: Formats, states: seq<State>, keys: set<FileKey>, records: Bytes, blobs: map<Digest, Bytes>,
                       disk: map<FileKey, Bytes>)
    requires forall k :: 0 <= k < |states| && states[k].simulation.Some? ==>
      RunFile(states[k].simulation.value.runId, RunName.Intent) in keys
        && RunFile(states[k].simulation.value.runId, RunName.Intent) in disk
    ensures var files := Gathered(keys, records, blobs, disk);
            OfRuns((r: Report) => IntentBinds(fmt, r, files), states, |states|) <==>
              OfRuns((r: Report) => IntentBinds(fmt, r, disk), states, |states|)
  {
    var files := Gathered(keys, records, blobs, disk);
    SameRuns((r: Report) => IntentBinds(fmt, r, files), (r: Report) => IntentBinds(fmt, r, disk), states, |states|);
  }

  // A checked run has its intent among the files, a present one on disk.
  lemma IntentIsThere(rules: Rules, fmt: Formats, states: seq<State>, k: nat, files: map<FileKey, Bytes>,
                      blobs: map<Digest, Bytes>, disk: map<FileKey, Bytes>)
    requires k < |states| && states[k].simulation.Some?
    requires StatesChecked(rules, fmt, states, |states|, files)
             && AllObtainable(rules, fmt, blobs, states, |states|, disk)
    ensures var key := RunFile(states[k].simulation.value.runId, RunName.Intent); key in files && key in disk
  {
    RevisionsRun(rules, fmt, states, files, k);
    ObtainablePrefix(rules, fmt, blobs, states, k + 1, |states|, disk);
    RunHasIntent(states[k], disk);
  }

  lemma RunHasIntent(state: State, disk: map<FileKey, Bytes>)
    requires state.simulation.Some? && RunPresent(state, disk)
    ensures RunFile(state.simulation.value.runId, RunName.Intent) in disk
  {
    assert RunName.Intent in RUN_FILES;
  }

  lemma {:induction false} SameRuns(q: Report -> bool, r: Report -> bool, states: seq<State>, n: nat)
    requires n <= |states| && forall k :: 0 <= k < n ==> (OfRun(q, states[k]) <==> OfRun(r, states[k]))
    ensures OfRuns(q, states, n) <==> OfRuns(r, states, n)
  {
    if n > 0 {
      SameRuns(q, r, states, n - 1);
    }
  }

  // Given a disk from which a session exports, another that differs from it only in intents, with
  // the sizes still fitting, exports if and only if the intent of every retained run binds its
  // report.
  lemma ExportsIffIntentsBind(rules: Rules, fmt: Formats, s: Store, disk: map<FileKey, Bytes>,
                              other: map<FileKey, Bytes>)
    requires Exportable(rules, fmt, s, disk) && DifferInIntents(disk, other)
             && Fits(fmt, Sizes(MaterialOf(fmt, s, other)))
    ensures var states := RecordsOf(s).snapshots;
            Exportable(rules, fmt, s, other) <==> OfRuns((r: Report) => IntentBinds(fmt, r, other), states, |states|)
  {
    var records, files, changed := RecordsOf(s), MaterialOf(fmt, s, disk), MaterialOf(fmt, s, other);
    var states := records.snapshots;
    GatheredDiffers(Copied(states, |states|), fmt.records(records), s.blobs, disk, other);
    ObtainableAsBefore(rules, fmt, s.blobs, states, |states|, disk, other);
    StatesWithIntents(rules, fmt, states, |states|, files, changed);
    forall k | 0 <= k < |states| && states[k].simulation.Some?
      ensures var key := RunFile(states[k].simulation.value.runId, RunName.Intent); key in files && key in other
    {
      IntentIsThere(rules, fmt, states, k, files, s.blobs, other);
    }
    FetchedIntents(fmt, states, Copied(states, |states|), fmt.records(records), s.blobs, other);
  }

  // A run staged through a workload transport records two more intent fields than validation
  // accepts. Of the sessions whose retained runs kept the intents their simulations wrote, those
  // export whose runs were all staged without a transport.
  lemma ExportsIffDirect(rules: Rules, fmt: Formats, s: Store, disk: map<FileKey, Bytes>, other: map<FileKey, Bytes>)
    requires Exportable(rules, fmt, s, disk) && DifferInIntents(disk, other)
             && Fits(fmt, Sizes(MaterialOf(fmt, s, other)))
    requires var states := RecordsOf(s).snapshots;
             OfRuns((r: Report) => IntentRecorded(fmt, r, other), states, |states|)
    ensures var states := RecordsOf(s).snapshots;
            Exportable(rules, fmt, s, other) <==> OfRuns((r: Report) => RunDirect(fmt, r, other), states, |states|)
  {
    var states := RecordsOf(s).snapshots;
    ExportsIffIntentsBind(rules, fmt, s, disk, other);
    RecordedIsBoundIffDirect(fmt, states, |states|, other);
  }

  lemma {:induction false} RecordedIsBoundIffDirect(fmt: Formats, states: seq<State>, n: nat,
                                                    files: map<FileKey, Bytes>)
    requires n <= |states| && OfRuns((r: Report) => IntentRecorded(fmt, r, files), states, n)
    ensures OfRuns((r: Report) => IntentBinds(fmt, r, files), states, n) <==>
            OfRuns((r: Report) => RunDirect(fmt, r, files), states, n)
  {
    if n > 0 {
      RecordedIsBoundIffDirect(fmt, states, n - 1, files);
      if states[n - 1].simulation.Some? {
        BindsIffDirect(fmt, states[n - 1].simulation.value, files);
      }
    }
  }

  lemma BindsIffDirect(fmt: Formats, report: Report, files: map<FileKey, Bytes>)
    requires IntentRecorded(fmt, report, files)
    ensures IntentBinds(fmt, report, files) <==> RunDirect(fmt, report, files)
  {
    var intent := fmt.readIntent(files[RunFile(report.runId, RunName.Intent)]).value;
    assert intent.staged.None? ==> intent == intent.(staged := None);
  }

  // Whatever else is on disk, an exportable session's retained runs all have the plain intent.
  lemma RetainedRunBinds(rules: Rules, fmt: Formats, s: Store, disk: map<FileKey, Bytes>, k: nat)
    requires Exportable(rules, fmt, s, disk)
    requires k < |RecordsOf(s).snapshots| && RecordsOf(s).snapshots[k].simulation.Some?
    ensures IntentBinds(fmt, RecordsOf(s).snapshots[k].simulation.value, disk)
  {
    var states, files := RecordsOf(s).snapshots, MaterialOf(fmt, s, disk);
    var key := RunFile(states[k].simulation.value.runId, RunName.Intent);
    IntentIsThere(rules, fmt, states, k, files, s.blobs, disk);
    assert files[key] == disk[key];
    PrefixChecked(rules, fmt, states, k + 1, |states|, files);
    assert RunChecked(fmt, states[k], files);
  }

  // ---- A staged run -------------------------------------------------------------------

  const NOTHING := Sha256([])
  const APPROVED := Sha256([1])

  function TwinReport(id: string): Report {
    Report(true, id, NOTHING, NOTHING, NOTHING,
           map name | name in EVIDENCE :: Artifact(RunFile(id, name), NOTHING, 0), true, NOTHING)
  }

  // A new session, and what the save of a run makes of it.
  function TwinStart(): State {
    State(Current, 0, None, NOTHING, NOTHING, map[], map[], None, NOTHING)
  }

  function TwinSaved(id: string): State {
    TwinStart().(rest := APPROVED, simulation := Some(TwinReport(id)))
  }

  function TwinUpdate(id: string): Update {
    Update(TwinStart(), TwinSaved(id), "simulation.completed", NOTHING, [])
  }

  function TwinRecords(id: string): Records {
    Records([TwinStart(), TwinSaved(id).(revision := 1)], [Event(1, "simulation.completed", NOTHING)])
  }

  function TwinSession(id: string): Store {
    Store([(0, TwinStart()), (1, TwinSaved(id).(revision := 1))], [(1, Event(1, "simulation.completed", NOTHING))],
          map[])
  }

  // Rules under which a session that approved nothing retains no run.
  function TwinRules(): Rules {
    Rules((s: State) => s.rest == NOTHING ==> s.simulation.None?,
          _ => true, _ => true, (_, _) => true, (_, rest) => rest)
  }

  lemma TwinIsSaved(id: string)
    ensures Save(TwinRules(), Created(TwinStart()), TwinUpdate(id)) ==
            Ok((TwinSession(id), TwinSaved(id).(revision := 1)))
  {
    assert |APPROVED.data| != |NOTHING.data|;
    assert Read(TwinRules(), Created(TwinStart())) == Ok(TwinStart());
    assert AddItems(TwinRules(), map[], TwinSaved(id), []) == Ok((map[], TwinSaved(id)));
    var s, saved := Created(TwinStart()), TwinSaved(id).(revision := 1);
    assert TwinRules().valid(saved);
    assert !HasRow(s.snapshots, 1) && !HasRow(s.events, 1);
    assert s.snapshots + [(1, saved)] == TwinSession(id).snapshots;
    assert s.events + [(1, Event(1, TwinUpdate(id).event, NOTHING))] == TwinSession(id).events;
  }

  function StagedIntent(report: Report): IntentRecord {
    OwnershipIntent(report.runId, "openrtl-design-" + report.runId, report.profile, report.input,
                    Some(("openrtl-design-" + report.runId + "-probe", NOTHING)))
  }

  function TwinIntent(id: string, b: Bytes): IntentRecord {
    if |b| == 0 then IntentOf(TwinReport(id)) else StagedIntent(TwinReport(id))
  }

  // Formats under which an empty intent file is the direct intent and any other the staged one.
  function TwinFormats(id: string): Formats {
    Formats((r: Records) => [], (b: Bytes) => Some(TwinRecords(id)), (b: Bytes) => Some(TwinReport(id)),
            (b: Bytes) => Some(TwinIntent(id, b)),
            (spec: Digest, files: map<string, Digest>, manifest: Digest) => NOTHING,
              (b: Bytes, manifest: Digest) => true,
            (b: Bytes) => true, (s: State) => 0, (e: Event) => 0, (s: State) => NOTHING, (p: Plan) => NOTHING,
            (sizes: map<FileKey, nat>) => 0)
  }

  function TwinFile(key: FileKey, intent: Bytes): Bytes {
    if IsIntent(key) then intent else []
  }

  function TwinDisk(id: string, intent: Bytes): map<FileKey, Bytes> {
    map k | k in RunKeys(id, RUN_FILES) :: TwinFile(k, intent)
  }

  function TwinFiles(id: string): map<FileKey, Bytes> {
    TwinDisk(id, [])[RecordsFile := []]
  }

  lemma {:induction false} FewRunKeys(id: string, names: set<RunName>)
    ensures |RunKeys(id, names)| <= |names|
    decreases |names|
  {
    if names != {} {
      var name :| name in names;
      FewRunKeys(id, names - {name});
      assert RunKeys(id, names) == RunKeys(id, names - {name}) + {RunFile(id, name)};
    }
  }

  lemma TwinHistory(id: string)
    ensures ByKey(TwinSession(id).snapshots) == TwinSession(id).snapshots
            && RecordsOf(TwinSession(id)) == TwinRecords(id)
    ensures ReadsBack(TwinFormats(id), RecordsOf(TwinSession(id)))
  {
    var s := TwinSession(id);
    InOrder(s.snapshots, 0);
    InOrder(s.events, 1);
    assert Column(s.snapshots) == TwinRecords(id).snapshots;
    assert Column(s.events) == TwinRecords(id).events;
  }

  lemma TwinCopied(id: string)
    ensures var states := TwinRecords(id).snapshots; Copied(states, 2) == {RecordsFile} + RunKeys(id, RUN_FILES)
  {
    var states := TwinRecords(id).snapshots;
    assert ImportDigests(states[0]) == map[] && ImportDigests(states[1]) == map[];
    assert CopiedState(states[0]) == {};
    assert CopiedState(states[1]) == RunKeys(id, RUN_FILES);
    assert Copied(states, 0) == {RecordsFile};
    assert Copied(states, 1) == {RecordsFile};
  }

  lemma TwinFilesAre(id: string)
    ensures TwinFiles(id).Keys == RunKeys(id, RUN_FILES) + {RecordsFile}
    ensures forall k :: k in TwinFiles(id) ==> |TwinFiles(id)[k]| == 0
  {
  }

  lemma TwinGathered(id: string, keys: set<FileKey>)
    requires keys == {RecordsFile} + RunKeys(id, RUN_FILES)
    ensures Gathered(keys, [], map[], TwinDisk(id, [])) == TwinFiles(id)
  {
    TwinFilesAre(id);
  }

  lemma TwinMaterial(id: string)
    ensures MaterialOf(TwinFormats(id), TwinSession(id), TwinDisk(id, [])) == TwinFiles(id)
  {
    TwinHistory(id);
    TwinCopied(id);
    TwinGathered(id, Copied(TwinRecords(id).snapshots, 2));
  }

  lemma SizesKeepKeys(files: map<FileKey, Bytes>, bound: nat)
    requires forall k :: k in files ==> |files[k]| <= bound
    ensures |Sizes(files)| == |files.Keys| && forall k :: k in Sizes(files) ==> Sizes(files)[k] <= bound
  {
    assert Sizes(files).Keys == files.Keys;
    assert |Sizes(files)| == |Sizes(files).Keys|;
  }

  lemma SmallFits(fmt: Formats, sizes: map<FileKey, nat>)
    requires |sizes| <= 9 && fmt.total(sizes) == 0 && forall k :: k in sizes ==> sizes[k] <= 0
    ensures Fits(fmt, sizes)
  {
  }

  lemma TwinFits(id: string)
    ensures Fits(TwinFormats(id), Sizes(TwinFiles(id)))
  {
    TwinFilesAre(id);
    FewFiles(id, TwinFiles(id));
    SizesKeepKeys(TwinFiles(id), 0);
    SmallFits(TwinFormats(id), Sizes(TwinFiles(id)));
  }

  lemma FewFiles(id: string, files: map<FileKey, Bytes>)
    requires files.Keys == RunKeys(id, RUN_FILES) + {RecordsFile}
    ensures |files.Keys| <= 9
  {
    FewRunKeys(id, RUN_FILES);
    assert |files.Keys| <= |RunKeys(id, RUN_FILES)| + 1;
    assert |RUN_FILES| <= 8;
  }

  lemma TwinRun(id: string)
    requires OperationId(id)
    ensures RunChecked(TwinFormats(id), TwinRecords(id).snapshots[1], TwinFiles(id))
  {
    var files, report := TwinFiles(id), TwinReport(id);
    forall name | name in RUN_FILES
      ensures RunFile(id, name) in files && files[RunFile(id, name)] == []
    {
    }
    assert report.artifacts.Keys == EVIDENCE;
    assert forall name :: name in report.artifacts ==> name in RUN_FILES && ArtifactChecked(report, name, files);
    assert BindingsChecked(TwinFormats(id), report, files);
  }

  lemma TwinChecked(id: string)
    requires OperationId(id)
    ensures StatesChecked(TwinRules(), TwinFormats(id), TwinRecords(id).snapshots, 2, TwinFiles(id))
  {
    var states, files := TwinRecords(id).snapshots, TwinFiles(id);
    TwinRun(id);
    assert ImportDigests(states[0]) == map[] && ImportDigests(states[1]) == map[];
    assert |APPROVED.data| != |NOTHING.data|;
    assert StatesChecked(TwinRules(), TwinFormats(id), states, 0, files);
    assert StatesChecked(TwinRules(), TwinFormats(id), states, 1, files);
  }

  lemma TwinObtainable(id: string)
    requires OperationId(id)
    ensures AllObtainable(TwinRules(), TwinFormats(id), map[], TwinRecords(id).snapshots, 2, TwinDisk(id, []))
  {
    var states, disk := TwinRecords(id).snapshots, TwinDisk(id, []);
    assert ImportDigests(states[0]) == map[] && ImportDigests(states[1]) == map[];
    forall name | name in RUN_FILES
      ensures RunFile(id, name) in disk && disk[RunFile(id, name)] == []
    {
    }
    assert AllObtainable(TwinRules(), TwinFormats(id), map[], states, 0, disk);
    assert AllObtainable(TwinRules(), TwinFormats(id), map[], states, 1, disk);
  }

  lemma TwinWeighs(id: string)
    ensures HistoryFits(TwinFormats(id), TwinRecords(id).snapshots, TwinRecords(id).events)
    ensures HistoryChecked(TwinRules(), TwinRecords(id))
  {
    var fmt, records := TwinFormats(id), TwinRecords(id);
    assert Weight(fmt.stateSize, records.snapshots[..1]) == 0;
    assert records.snapshots[..2] == records.snapshots;
    assert Weight(fmt.eventSize, records.events) == 0;
    assert EventsChecked(TwinRules(), records.events, 0);
  }

  lemma TwinDirect(id: string)
    requires OperationId(id)
    ensures Exportable(TwinRules(), TwinFormats(id), TwinSession(id), TwinDisk(id, []))
  {
    TwinHistory(id);
    TwinMaterial(id);
    TwinFits(id);
    TwinChecked(id);
    TwinObtainable(id);
    TwinWeighs(id);
  }

  lemma TwinStaged(id: string, intent: Bytes)
    requires OperationId(id) && |intent| > 0
    ensures !Exportable(TwinRules(), TwinFormats(id), TwinSession(id), TwinDisk(id, intent))
  {
    TwinHistory(id);
    var key := RunFile(id, RunName.Intent);
    assert RunName.Intent in RUN_FILES && key in RunKeys(id, RUN_FILES) && TwinDisk(id, intent)[key] == intent;
    assert StagedIntent(TwinReport(id)).staged != IntentOf(TwinReport(id)).staged;
    if Exportable(TwinRules(), TwinFormats(id), TwinSession(id), TwinDisk(id, intent)) {
      RetainedRunBinds(TwinRules(), TwinFormats(id), TwinSession(id), TwinDisk(id, intent), 1);
    }
  }

  // The two disks of one session, that of a direct run and that of the same run staged through a
  // transport: the session is exported from the first, and refused from the second.
  method StagedRunIsRefused(id: string)
    returns (direct: Result<(Plan, map<FileKey, Bytes>)>, staged: Result<(Plan, map<FileKey, Bytes>)>)
    requires OperationId(id)
    ensures Exportable(TwinRules(), TwinFormats(id), TwinSession(id), TwinDisk(id, [])) && direct.Ok?
    ensures !Exportable(TwinRules(), TwinFormats(id), TwinSession(id), TwinDisk(id, [1])) && staged.Err?
  {
    var s, fmt := TwinSession(id), TwinFormats(id);
    TwinHistory(id);
    TwinDirect(id);
    TwinStaged(id, [1]);
    direct := PortableMaterial(TwinRules(), fmt, s, [], TwinDisk(id, []));
    staged := PortableMaterial(TwinRules(), fmt, s, [], TwinDisk(id, [1]));
  }
}
