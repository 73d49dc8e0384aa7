// What it means that portable records are accepted: every snapshot, event, reference and evidence
// byte is what the history says, and two accepted file sets of one history hold the same evidence.
module PortableMeaning {
  import opened Outcomes
  import opened Numerals
  import opened Blobs
  import opened SessionStore
  import opened Portable

  // The bytes of one file of a run.
  function RunBytes(files: map<FileKey, Bytes>, report: Report, name: RunName): Bytes {
    if RunFile(report.runId, name) in files then files[RunFile(report.runId, name)] else []
  }

  // A retained run: its eight files are there; report and intent read back as what the snapshot
  // retains; the runner and the five evidence files have the digests and lengths it names; and a
  // passing run shows its times.
  ghost predicate RunIs(fmt: Formats, state: State, report: Report, files: map<FileKey, Bytes>) {
    && report.runtimeBound && OperationId(report.runId)
    && report.input == fmt.input(state.approvedSpec, state.files, state.manifest)
    && (forall name :: name in RUN_FILES ==> RunFile(report.runId, name) in files)
    && fmt.readReport(RunBytes(files, report, ReportJson)) == Some(report)
    && fmt.readIntent(RunBytes(files, report, RunName.Intent)) ==
       Some(OwnershipIntent(report.runId, "openrtl-design-" + report.runId, report.profile, report.input, None))
    && report.runner == Sha256(RunBytes(files, report, Runner))
    && report.artifacts.Keys == {Results, ModelResults, Waves, RunnerLog, Toolchain}
    && (forall name :: name in report.artifacts ==>
          report.artifacts[name] == Artifact(RunFile(report.runId, name), Sha256(RunBytes(files, report, name)),
                                             |RunBytes(files, report, name)|))
    && (report.passed ==> fmt.times(RunBytes(files, report, Results), state.manifest))
  }

  lemma RunCheckedIff(fmt: Formats, state: State, files: map<FileKey, Bytes>)
    requires state.simulation.Some?
    ensures RunChecked(fmt, state, files) <==> RunIs(fmt, state, state.simulation.value, files)
  {
    var report := state.simulation.value;
    if RunChecked(fmt, state, files) {
      forall name | name in RUN_FILES
        ensures RunFile(report.runId, name) in files
      {
        assert name in EVIDENCE ==> ArtifactChecked(report, name, files);
      }
      forall name | name in report.artifacts
        ensures report.artifacts[name] == Artifact(RunFile(report.runId, name), Sha256(RunBytes(files, report, name)),
                                                   |RunBytes(files, report, name)|)
      {
        assert ArtifactChecked(report, name, files);
      }
    }
    if RunIs(fmt, state, report, files) {
      assert Intent in RUN_FILES && Runner in RUN_FILES && ReportJson in RUN_FILES && Results in RUN_FILES;
      forall name | name in report.artifacts
        ensures ArtifactChecked(report, name, files)
      {
        assert name in EVIDENCE && name in RUN_FILES;
      }
    }
  }

  // ---- The evidence is pinned ---------------------------------------------------------

  const PINNED: set<RunName> := {Runner, Results, ModelResults, Waves, RunnerLog, Toolchain}

  // Two file sets accepted for one snapshot hold the same runner and the same evidence, byte for
  // byte, and reports and intents that read the same.
  lemma EvidenceIsPinned(fmt: Formats, state: State, files: map<FileKey, Bytes>, other: map<FileKey, Bytes>)
    requires state.simulation.Some? && RunChecked(fmt, state, files) && RunChecked(fmt, state, other)
    ensures var report := state.simulation.value;
            && (forall name :: name in PINNED ==>
                  && RunFile(report.runId, name) in files && RunFile(report.runId, name) in other
                  && files[RunFile(report.runId, name)] == other[RunFile(report.runId, name)])
            && fmt.readReport(RunBytes(files, report, ReportJson)) ==
              fmt.readReport(RunBytes(other, report, ReportJson))
            && fmt.readIntent(RunBytes(files, report, RunName.Intent)) ==
               fmt.readIntent(RunBytes(other, report, RunName.Intent))
  {
    var report := state.simulation.value;
    RunCheckedIff(fmt, state, files);
    RunCheckedIff(fmt, state, other);
    forall name | name in PINNED
      ensures RunFile(report.runId, name) in files && RunFile(report.runId, name) in other
      ensures files[RunFile(report.runId, name)] == other[RunFile(report.runId, name)]
    {
      assert name in RUN_FILES;
      assert Sha256(RunBytes(files, report, name)) == Sha256(RunBytes(other, report, name));
    }
  }

  // A passing run is accepted only with its times; a failing one whatever its times are.
  lemma TimesMatterIffPassed(fmt: Formats, times: (Bytes, Digest) -> bool, state: State, files: map<FileKey, Bytes>)
    requires state.simulation.Some?
    ensures var report := state.simulation.value; var lenient := fmt.(times := (b: Bytes, m: Digest) => true);
            && (RunChecked(fmt, state, files) <==>
                RunChecked(lenient, state, files) &&
                (report.passed ==> fmt.times(RunBytes(files, report, Results), state.manifest)))
            && (!report.passed ==> RunChecked(fmt.(times := times), state, files) == RunChecked(fmt, state, files))
  {
    var lenient := fmt.(times := (b: Bytes, m: Digest) => true);
    RunCheckedIff(fmt, state, files);
    RunCheckedIff(lenient, state, files);
    RunCheckedIff(fmt.(times := times), state, files);
  }

  // ---- A whole history ----------------------------------------------------------------

  // The bytes behind a reference are there, are its own, are text, and are not too many.
  predicate Referenced(rules: Rules, files: map<FileKey, Bytes>, path: string, digest: Digest) {
    rules.path(path) && BlobFile(digest) in files && files[BlobFile(digest)] == digest.data
      && |digest.data| <= MAX_ARTIFACT_BYTES && rules.text(digest.data)
  }

  ghost predicate SnapshotIs(rules: Rules, fmt: Formats, k: nat, state: State, files: map<FileKey, Bytes>) {
    && state.revision == k && rules.valid(state) && fmt.stateSize(state) <= MAX_SNAPSHOT_BYTES
    && (forall p :: p in state.files ==> Referenced(rules, files, p, state.files[p]))
    && (forall p :: p in state.imports ==> Referenced(rules, files, p, state.imports[p].digest))
    && (state.simulation.Some? ==> RunIs(fmt, state, state.simulation.value, files))
  }

  // The paths a snapshot calls for.
  ghost predicate CallsFor(state: State, key: FileKey) {
    match key
    case RecordsFile => false
    case BlobFile(d) =>
      (exists p :: p in state.files && state.files[p] == d)
        || (exists p :: p in state.imports && state.imports[p].digest == d)
    case RunFile(run, name) =>
      state.simulation.Some? && run == state.simulation.value.runId &&
      (name in {RunName.Intent, Runner, ReportJson} || name in state.simulation.value.artifacts)
  }

  // Gap-free snapshots, one event each after the first, a current last snapshot at rest, and exactly
  // the files they call for.
  ghost predicate HistoryIs(rules: Rules, fmt: Formats, records: Records, files: map<FileKey, Bytes>) {
    var states, events := records.snapshots, records.events;
    && 1 <= |states| <= MAX_HISTORY && |events| + 1 == |states|
    && (forall k :: 0 <= k < |events| ==> events[k].sequence == k + 1 && rules.event(events[k].name, events[k].fields))
    && (forall k :: 0 <= k < |states| ==> SnapshotIs(rules, fmt, k, states[k], files))
    && states[|states| - 1].schema == Current && states[|states| - 1].active.None?
    && forall key :: key in files <==> key.RecordsFile? || CalledFor(states, |states|, key)
  }

  lemma ReferencedIff(rules: Rules, references: map<string, Digest>, files: map<FileKey, Bytes>)
    ensures ReferencesChecked(rules, references, files) <==>
            forall p :: p in references ==> Referenced(rules, files, p, references[p])
  {
    assert forall p :: p in references ==>
      (BlobChecked(rules, p, references[p], files) <==> Referenced(rules, files, p, references[p]));
  }

  lemma ImportsReferencedIff(rules: Rules, state: State, files: map<FileKey, Bytes>)
    ensures ReferencesChecked(rules, ImportDigests(state), files) <==>
            forall p :: p in state.imports ==> Referenced(rules, files, p, state.imports[p].digest)
  {
    var digests := ImportDigests(state);
    ReferencedIff(rules, digests, files);
    assert digests.Keys == state.imports.Keys;
    if ReferencesChecked(rules, digests, files) {
      forall p | p in state.imports
        ensures Referenced(rules, files, p, state.imports[p].digest)
      {
        assert p in digests && digests[p] == state.imports[p].digest;
      }
    }
  }

  lemma SnapshotIff(rules: Rules, fmt: Formats, k: nat, state: State, files: map<FileKey, Bytes>)
    ensures StateChecked(rules, fmt, k, state, files) <==> SnapshotIs(rules, fmt, k, state, files)
  {
    ReferencedIff(rules, state.files, files);
    ImportsReferencedIff(rules, state, files);
    if state.simulation.Some? {
      RunCheckedIff(fmt, state, files);
    }
  }

  lemma {:induction false} SnapshotsIff(rules: Rules, fmt: Formats, states: seq<State>, n: nat,
                                        files: map<FileKey, Bytes>)
    requires n <= |states|
    ensures StatesChecked(rules, fmt, states, n, files) <==>
            forall k :: 0 <= k < n ==> SnapshotIs(rules, fmt, k, states[k], files)
  {
    if n > 0 {
      SnapshotsIff(rules, fmt, states, n - 1, files);
      SnapshotIff(rules, fmt, n - 1, states[n - 1], files);
    }
  }

  lemma {:induction false} EventsIff(rules: Rules, events: seq<Event>, n: nat)
    requires n <= |events|
    ensures EventsChecked(rules, events, n) <==>
            forall k :: 0 <= k < n ==> events[k].sequence == k + 1 && rules.event(events[k].name, events[k].fields)
  {
    if n > 0 {
      EventsIff(rules, events, n - 1);
    }
  }

  lemma CallsForIff(state: State, key: FileKey)
    ensures key in StatePaths(state) <==> CallsFor(state, key)
  {
    match key
    case RecordsFile =>
    case BlobFile(d) =>
      if key in BlobKeys(ImportDigests(state)) {
        var p :| p in ImportDigests(state) && BlobFile(ImportDigests(state)[p]) == key;
        assert state.imports[p].digest == d;
      }
      if p :| p in state.imports && state.imports[p].digest == d {
        assert ImportDigests(state)[p] == d;
      }
    case RunFile(run, name) =>
  }

  // One of the first n snapshots calls for the path.
  ghost predicate CalledFor(states: seq<State>, n: nat, key: FileKey)
    requires n <= |states|
  {
    exists k :: 0 <= k < n && CallsFor(states[k], key)
  }

  lemma CalledForGrows(states: seq<State>, n: nat, key: FileKey)
    requires 0 < n <= |states|
    ensures CalledFor(states, n, key) <==> CalledFor(states, n - 1, key) || CallsFor(states[n - 1], key)
  {
  }

  // The path is expected exactly if it is that of the records or some snapshot calls for it.
  ghost predicate IsExpected(expected: set<FileKey>, states: seq<State>, n: nat, key: FileKey)
    requires n <= |states|
  {
    key in expected <==> key.RecordsFile? || CalledFor(states, n, key)
  }

  lemma {:induction false} ExpectedIff(states: seq<State>, n: nat, key: FileKey)
    requires n <= |states|
    ensures IsExpected(Expected(states, n), states, n, key)
  {
    if n == 0 {
      NothingCalled(states, key);
    } else {
      ExpectedIff(states, n - 1, key);
      OneMoreIff(states, n, key);
    }
  }

  lemma NothingCalled(states: seq<State>, key: FileKey)
    ensures IsExpected(Expected(states, 0), states, 0, key)
  {
  }

  lemma OneMoreIff(states: seq<State>, n: nat, key: FileKey)
    requires 0 < n <= |states|
    requires IsExpected(Expected(states, n - 1), states, n - 1, key)
    ensures IsExpected(Expected(states, n), states, n, key)
  {
    CalledForGrows(states, n, key);
    ExpectedGrows(states, n, key);
    CallsForIff(states[n - 1], key);
  }

  lemma ExpectedGrows(states: seq<State>, n: nat, key: FileKey)
    requires 0 < n <= |states|
    ensures key in Expected(states, n) <==> key in Expected(states, n - 1) || key in StatePaths(states[n - 1])
  {
  }

  // Exactly which records are accepted, entry by entry.
  lemma RecordsAcceptedIff(rules: Rules, fmt: Formats, records: Records, files: map<FileKey, Bytes>)
    ensures RecordsChecked(rules, fmt, records, files) <==> HistoryIs(rules, fmt, records, files)
  {
    var states := records.snapshots;
    SnapshotsIff(rules, fmt, states, |states|, files);
    EventsIff(rules, records.events, |records.events|);
    forall key
      ensures key in Expected(states, |states|) <==> key.RecordsFile? || CalledFor(states, |states|, key)
    {
      ExpectedIff(states, |states|, key);
    }
  }

  lemma SnapshotPinsBytes(rules: Rules, fmt: Formats, k: nat, state: State, files: map<FileKey, Bytes>,
                          other: map<FileKey, Bytes>, key: FileKey)
    requires SnapshotIs(rules, fmt, k, state, files) && SnapshotIs(rules, fmt, k, state, other) && CallsFor(state, key)
    requires key.BlobFile? || (key.RunFile? && key.name in PINNED)
    ensures key in files && key in other && files[key] == other[key]
  {
    if key.RunFile? {
      RunCheckedIff(fmt, state, files);
      RunCheckedIff(fmt, state, other);
      EvidenceIsPinned(fmt, state, files, other);
    }
  }

  // So two file sets accepted for one history have the same files, and the same bytes in every blob,
  // runner and evidence file.
  lemma HistoryPinsBytes(rules: Rules, fmt: Formats, records: Records, files: map<FileKey, Bytes>,
                         other: map<FileKey, Bytes>, key: FileKey)
    requires RecordsChecked(rules, fmt, records, files) && RecordsChecked(rules, fmt, records, other)
    ensures key in files <==> key in other
    ensures key in files && (key.BlobFile? || (key.RunFile? && key.name in PINNED)) ==> files[key] == other[key]
  {
    RecordsAcceptedIff(rules, fmt, records, files);
    RecordsAcceptedIff(rules, fmt, records, other);
    var states := records.snapshots;
    if key in files && (key.BlobFile? || (key.RunFile? && key.name in PINNED)) {
      var k :| 0 <= k < |states| && CallsFor(states[k], key);
      SnapshotPinsBytes(rules, fmt, k, states[k], files, other, key);
    }
  }
}
