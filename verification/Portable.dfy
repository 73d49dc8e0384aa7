// Portable session backup: collecting exactly what a history references, validating records
// found on disk, and rebuilding a session from them with one receipt appended.
module Portable {
  import opened Outcomes
  import opened Numerals
  import opened Blobs
  import opened SessionStore

  const MAX_HISTORY := 512
  const MAX_SNAPSHOT_BYTES := 2 * 1024 * 1024
  const MAX_FILE_BYTES := 16 * 1024 * 1024
  const MAX_ROWS := 4096
  const MAX_BYTES := 96 * 1024 * 1024

  const EVIDENCE: set<RunName> := {Results, ModelResults, Waves, RunnerLog, Toolchain}
  const RUN_FILES: set<RunName> := {Intent, Runner, ReportJson, Results, ModelResults, Waves, RunnerLog, Toolchain}

  datatype Records = Records(snapshots: seq<State>, events: seq<Event>)

  // The ownership intent of a run. A run staged through a workload transport also names its
  // probe container and the transport it was staged through.
  datatype IntentRecord = OwnershipIntent(operation: string, container: string, profile: Digest, input: Digest,
                           staged: Option<(string, Digest)>)

  // Text formats and sizes, which the portable format only calls.
  datatype Formats = Formats(
    records: Records -> Bytes,                    // canonical JSON and a final newline
    readRecords: Bytes -> Option<Records>,
    readReport: Bytes -> Option<Report>,
    readIntent: Bytes -> Option<IntentRecord>,
    input: (Digest, map<string, Digest>, Digest) -> Digest,
    times: (Bytes, Digest) -> bool,               // simulated times of a passing run
    utf8: Bytes -> bool,
    stateSize: State -> nat,
    eventSize: Event -> nat,
    stateDigest: State -> Digest,
    planDigest: Plan -> Digest,
    total: map<FileKey, nat> -> nat)              // the sum of all sizes

  // Reading these canonical records gives back what was written.
  predicate ReadsBack(fmt: Formats, records: Records) {
    fmt.readRecords(fmt.records(records)) == Some(records)
  }

  datatype Plan = Plan(state: Digest, revision: nat, files: map<FileKey, (Digest, nat)>)

  // ---- The plan -----------------------------------------------------------------------

  function Sizes(files: map<FileKey, Bytes>): map<FileKey, nat> {
    map k | k in files :: |files[k]|
  }

  predicate Fits(fmt: Formats, sizes: map<FileKey, nat>) {
    && |sizes| <= MAX_ROWS && fmt.total(sizes) <= MAX_BYTES
    && forall k :: k in sizes ==> sizes[k] <= MAX_FILE_BYTES
  }

  function PlanOf(fmt: Formats, files: map<FileKey, Bytes>, state: State): Plan {
    Plan(fmt.stateDigest(state), state.revision, map k | k in files :: (Sha256(files[k]), |files[k]|))
  }

  function MakePlan(fmt: Formats, files: map<FileKey, Bytes>, state: State): Result<Plan> {
    if Fits(fmt, Sizes(files)) then Ok(PlanOf(fmt, files, state)) else Err("portable_size_bound")
  }

  // A plan pins every byte it covers.
  lemma PlanPinsFiles(fmt: Formats, files: map<FileKey, Bytes>, other: map<FileKey, Bytes>, state: State,
                      another: State)
    requires PlanOf(fmt, files, state) == PlanOf(fmt, other, another)
    ensures files == other
  {
    var rows, others := PlanOf(fmt, files, state).files, PlanOf(fmt, other, another).files;
    assert files.Keys == rows.Keys == others.Keys == other.Keys;
    forall k | k in files
      ensures files[k] == other[k]
    {
      assert rows[k].0 == others[k].0;
    }
  }

  // ---- What a valid set of records is -------------------------------------------------

  predicate ArtifactChecked(report: Report, name: RunName, files: map<FileKey, Bytes>)
    requires name in report.artifacts
  {
    var row, key := report.artifacts[name], RunFile(report.runId, name);
    && row.path == key && key in files
    && |files[key]| == row.bytes && Sha256(files[key]) == row.digest
  }

  function IntentOf(report: Report): IntentRecord {
    OwnershipIntent(report.runId, "openrtl-design-" + report.runId, report.profile, report.input, None)
  }

  predicate BindingsChecked(fmt: Formats, report: Report, files: map<FileKey, Bytes>) {
    && RunFile(report.runId, ReportJson) in files
      && fmt.readReport(files[RunFile(report.runId, ReportJson)]) == Some(report)
    && RunFile(report.runId, Intent) in files
      && fmt.readIntent(files[RunFile(report.runId, Intent)]) == Some(IntentOf(report))
    && RunFile(report.runId, Runner) in files && Sha256(files[RunFile(report.runId, Runner)]) == report.runner
  }

  predicate RunChecked(fmt: Formats, state: State, files: map<FileKey, Bytes>) {
    state.simulation.None? ||
    var report := state.simulation.value;
    && report.runtimeBound
    && report.input == fmt.input(state.approvedSpec, state.files, state.manifest)
    && OperationId(report.runId)
    && BindingsChecked(fmt, report, files)
    && report.artifacts.Keys == EVIDENCE
    && (forall name :: name in report.artifacts ==> ArtifactChecked(report, name, files))
    && (report.passed ==> TimesChecked(fmt, report, state.manifest, files))
  }

  predicate TimesChecked(fmt: Formats, report: Report, manifest: Digest, files: map<FileKey, Bytes>) {
    var key := RunFile(report.runId, Results);
    key in files && fmt.times(files[key], manifest)
  }

  function RunKeys(id: string, names: set<RunName>): set<FileKey> {
    set name | name in names :: RunFile(id, name)
  }

  // The run files a snapshot calls for, named by its own report.
  function RunPaths(state: State): set<FileKey> {
    if state.simulation.None? then {} else
    RunKeys(state.simulation.value.runId, {Intent, Runner, ReportJson} + state.simulation.value.artifacts.Keys)
  }

  function ImportDigests(state: State): map<string, Digest> {
    map p | p in state.imports :: state.imports[p].digest
  }

  predicate BlobChecked(rules: Rules, path: string, digest: Digest, files: map<FileKey, Bytes>) {
    && rules.path(path) && BlobFile(digest) in files
    && |files[BlobFile(digest)]| <= MAX_ARTIFACT_BYTES && Sha256(files[BlobFile(digest)]) == digest
    && rules.text(files[BlobFile(digest)])
  }

  predicate ReferencesChecked(rules: Rules, references: map<string, Digest>, files: map<FileKey, Bytes>) {
    forall p :: p in references ==> BlobChecked(rules, p, references[p], files)
  }

  function BlobKeys(references: map<string, Digest>): set<FileKey> {
    set p | p in references :: BlobFile(references[p])
  }

  predicate StateChecked(rules: Rules, fmt: Formats, revision: nat, state: State, files: map<FileKey, Bytes>) {
    && fmt.stateSize(state) <= MAX_SNAPSHOT_BYTES && rules.valid(state) && state.revision == revision
    && ReferencesChecked(rules, state.files, files) && ReferencesChecked(rules, ImportDigests(state), files)
    && RunChecked(fmt, state, files)
  }

  // The files a snapshot calls for.
  function StatePaths(state: State): set<FileKey> {
    BlobKeys(state.files) + BlobKeys(ImportDigests(state)) + RunPaths(state)
  }

  // The first n snapshots of a history, one after the other.
  predicate StatesChecked(rules: Rules, fmt: Formats, states: seq<State>, n: nat, files: map<FileKey, Bytes>)
    requires n <= |states|
  {
    n == 0 || (StatesChecked(rules, fmt, states, n - 1, files) && StateChecked(rules, fmt, n - 1, states[n - 1], files))
  }

  function Expected(states: seq<State>, n: nat): set<FileKey>
    requires n <= |states|
  {
    if n == 0 then {RecordsFile} else Expected(states, n - 1) + StatePaths(states[n - 1])
  }

  predicate EventsChecked(rules: Rules, events: seq<Event>, n: nat)
    requires n <= |events|
  {
    n == 0 || (EventsChecked(rules, events, n - 1) && events[n - 1].sequence == n
               && rules.event(events[n - 1].name, events[n - 1].fields))
  }

  // A history that may leave its session: paired with its events, current and at rest.
  predicate HistoryChecked(rules: Rules, records: Records) {
    var n := |records.snapshots|;
    && 1 <= n <= MAX_HISTORY && |records.events| == n - 1
    && EventsChecked(rules, records.events, n - 1)
    && records.snapshots[n - 1].schema == Current && records.snapshots[n - 1].active.None?
  }

  predicate RecordsChecked(rules: Rules, fmt: Formats, records: Records, files: map<FileKey, Bytes>) {
    && HistoryChecked(rules, records)
    && StatesChecked(rules, fmt, records.snapshots, |records.snapshots|, files)
    && files.Keys == Expected(records.snapshots, |records.snapshots|)
  }

  // ---- Validation, as the loops of the program ----------------------------------------

  // The refusals that do not depend on an evidence file, in their order.
  function ReportRefusal(fmt: Formats, state: State, report: Report, files: map<FileKey, Bytes>): (code: string)
    ensures code == "" <==>
      && report.runtimeBound && report.input == fmt.input(state.approvedSpec, state.files, state.manifest)
      && OperationId(report.runId) && BindingsChecked(fmt, report, files) && report.artifacts.Keys == EVIDENCE
  {
    if !report.runtimeBound then "portable_runtime_bound_evidence_required"
    else if report.input != fmt.input(state.approvedSpec, state.files, state.manifest) then "portable_run_input_changed"
    else if !OperationId(report.runId) then "portable_run_id_invalid"
    else if !BindingsChecked(fmt, report, files) then "portable_intent_changed"
    else if report.artifacts.Keys != EVIDENCE then "portable_evidence_incomplete"
    else ""
  }

  method RunMaterial(fmt: Formats, state: State, files: map<FileKey, Bytes>) returns (r: Result<set<FileKey>>)
    ensures r.Ok? <==> RunChecked(fmt, state, files)
    ensures r.Ok? ==> r.value == RunPaths(state)
  {
    if state.simulation.None? {
      return Ok({});
    }
    var report := state.simulation.value;
    var refusal := ReportRefusal(fmt, state, report, files);
    if refusal != "" {
      return Err(refusal);
    }
    var names := {Intent, Runner, ReportJson};
    var waiting := report.artifacts.Keys;
    while waiting != {}
      invariant waiting <= report.artifacts.Keys
      invariant forall name :: name in report.artifacts && name !in waiting ==> ArtifactChecked(report, name, files)
      invariant names == {Intent, Runner, ReportJson} + (report.artifacts.Keys - waiting)
      decreases |waiting|
    {
      var name :| name in waiting;
      if !ArtifactChecked(report, name, files) {
        return Err("portable_evidence_changed");
      }
      names := names + {name};
      waiting := waiting - {name};
    }
    if report.passed && !TimesChecked(fmt, report, state.manifest, files) {
      return Err("simulation_times_invalid");
    }
    return Ok(RunKeys(report.runId, names));
  }

  method CheckReferences(rules: Rules, references: map<string, Digest>, files: map<FileKey, Bytes>,
                         expected: set<FileKey>)
    returns (ok: bool, grown: set<FileKey>)
    ensures ok == ReferencesChecked(rules, references, files)
    ensures ok ==> grown == expected + BlobKeys(references)
  {
    grown := expected;
    var waiting := references.Keys;
    while waiting != {}
      invariant waiting <= references.Keys
      invariant forall p :: p in references && p !in waiting ==> BlobChecked(rules, p, references[p], files)
      invariant grown == expected + set p | p in references && p !in waiting :: BlobFile(references[p])
      decreases |waiting|
    {
      var path :| path in waiting;
      if !BlobChecked(rules, path, references[path], files) {
        return false, grown;
      }
      grown := grown + {BlobFile(references[path])};
      waiting := waiting - {path};
    }
    return true, grown;
  }

  method ValidateState(rules: Rules, fmt: Formats, revision: nat, state: State, files: map<FileKey, Bytes>,
                       expected: set<FileKey>)
    returns (ok: bool, grown: set<FileKey>)
    ensures ok == StateChecked(rules, fmt, revision, state, files)
    ensures ok ==> grown == expected + StatePaths(state)
  {
    if fmt.stateSize(state) > MAX_SNAPSHOT_BYTES || !rules.valid(state) || state.revision != revision {
      return false, expected;
    }
    ok, grown := CheckReferences(rules, state.files, files, expected);
    if !ok {
      return;
    }
    ok, grown := CheckReferences(rules, ImportDigests(state), files, grown);
    if !ok {
      return;
    }
    var run := RunMaterial(fmt, state, files);
    ok := run.Ok?;
    if ok {
      grown := grown + run.value;
    }
  }

  // A refusal of an early snapshot or event refuses the whole history.
  lemma {:induction false} PrefixChecked(rules: Rules, fmt: Formats, states: seq<State>, m: nat, n: nat,
                                         files: map<FileKey, Bytes>)
    requires m <= n <= |states| && StatesChecked(rules, fmt, states, n, files)
    ensures StatesChecked(rules, fmt, states, m, files)
  {
    if m < n {
      PrefixChecked(rules, fmt, states, m, n - 1, files);
    }
  }

  lemma RefusedState(rules: Rules, fmt: Formats, states: seq<State>, k: nat, files: map<FileKey, Bytes>)
    requires k < |states| && !StateChecked(rules, fmt, k, states[k], files)
    ensures !StatesChecked(rules, fmt, states, |states|, files)
  {
    if StatesChecked(rules, fmt, states, |states|, files) {
      PrefixChecked(rules, fmt, states, k + 1, |states|, files);
    }
  }

  lemma {:induction false} EventPrefixChecked(rules: Rules, events: seq<Event>, m: nat, n: nat)
    requires m <= n <= |events| && EventsChecked(rules, events, n)
    ensures EventsChecked(rules, events, m)
  {
    if m < n {
      EventPrefixChecked(rules, events, m, n - 1);
    }
  }

  method ValidateStates(rules: Rules, fmt: Formats, states: seq<State>, files: map<FileKey, Bytes>)
    returns (ok: bool, expected: set<FileKey>)
    ensures ok == StatesChecked(rules, fmt, states, |states|, files)
    ensures ok ==> expected == Expected(states, |states|)
  {
    expected := {RecordsFile};
    for k := 0 to |states|
      invariant StatesChecked(rules, fmt, states, k, files) && expected == Expected(states, k)
    {
      var good, grown := ValidateState(rules, fmt, k, states[k], files, expected);
      if !good {
        RefusedState(rules, fmt, states, k, files);
        return false, expected;
      }
      expected := grown;
    }
    return true, expected;
  }

  method ValidateEvents(rules: Rules, events: seq<Event>) returns (ok: bool)
    ensures ok == EventsChecked(rules, events, |events|)
  {
    for k := 0 to |events|
      invariant EventsChecked(rules, events, k)
    {
      if events[k].sequence != k + 1 || !rules.event(events[k].name, events[k].fields) {
        if EventsChecked(rules, events, |events|) {
          EventPrefixChecked(rules, events, k + 1, |events|);
        }
        return false;
      }
    }
    return true;
  }

  // The refusals in their order, given what the loops over snapshots and events found.
  function Refusal(records: Records, good: bool, paired: bool, exact: bool): (code: string)
    ensures code == "" <==>
      var n := |records.snapshots|;
      && 1 <= n <= MAX_HISTORY && |records.events| == n - 1 && good && paired
      && records.snapshots[n - 1].schema == Current && records.snapshots[n - 1].active.None? && exact
  {
    var n := |records.snapshots|;
    if !(1 <= n <= MAX_HISTORY) then "portable_history_bound"
    else if |records.events| != n - 1 then "portable_history_gap"
    else if !good then "portable_snapshot_invalid"
    else if !paired then "portable_event_invalid"
    else if records.snapshots[n - 1].schema != Current then "explicit_session_upgrade_required"
    else if records.snapshots[n - 1].active.Some? then "export_requires_reconciled_session"
    else if !exact then "portable_unreferenced_or_missing_file"
    else ""
  }

  method ValidateRecords(rules: Rules, fmt: Formats, records: Records, files: map<FileKey, Bytes>)
    returns (r: Result<seq<State>>)
    ensures r.Ok? <==> RecordsChecked(rules, fmt, records, files)
    ensures r.Ok? ==> r.value == records.snapshots
  {
    var good, expected := ValidateStates(rules, fmt, records.snapshots, files);
    var paired := ValidateEvents(rules, records.events);
    var refusal := Refusal(records, good, paired, files.Keys == expected);
    if refusal != "" {
      return Err(refusal);
    }
    return Ok(records.snapshots);
  }
}
