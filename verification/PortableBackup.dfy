// Exporting a session, reading the exported directory, and restoring it: the collected set is
// the expected set, and a restored session exports again with the old history as its prefix.
module PortableBackup {
  import opened Outcomes
  import opened Numerals
  import opened Blobs
  import opened SessionStore
  import opened Portable

  const MAX_SNAPSHOTS_BYTES := 16 * 1024 * 1024
  const MAX_EVENTS_BYTES := 8 * 1024 * 1024

  // ---- Rows in key order --------------------------------------------------------------

  function Place<T>(rows: seq<(nat, T)>, row: (nat, T)): seq<(nat, T)> {
    if |rows| == 0 || rows[|rows| - 1].0 <= row.0 then rows + [row]
    else Place(rows[..|rows| - 1], row) + [rows[|rows| - 1]]
  }

  function ByKey<T>(rows: seq<(nat, T)>): seq<(nat, T)> {
    if |rows| == 0 then [] else Place(ByKey(rows[..|rows| - 1]), rows[|rows| - 1])
  }

  function Column<T>(rows: seq<(nat, T)>): (column: seq<T>)
    ensures |column| == |rows|
    ensures forall k :: 0 <= k < |rows| ==> column[k] == rows[k].1
  {
    seq(|rows|, k requires 0 <= k < |rows| => rows[k].1)
  }

  lemma {:induction false} InOrder<T>(rows: seq<(nat, T)>, base: nat)
    requires forall k :: 0 <= k < |rows| ==> rows[k].0 == base + k
    ensures ByKey(rows) == rows
  {
    if |rows| > 0 {
      InOrder(rows[..|rows| - 1], base);
    }
  }

  // ---- Collecting ---------------------------------------------------------------------

  function Weight<T>(size: T -> nat, rows: seq<T>): nat {
    if |rows| == 0 then 0 else Weight(size, rows[..|rows| - 1]) + size(rows[|rows| - 1])
  }

  predicate HistoryFits(fmt: Formats, states: seq<State>, events: seq<Event>) {
    && 1 <= |states| <= MAX_HISTORY && |events| < MAX_HISTORY
    && Weight(fmt.stateSize, states) <= MAX_SNAPSHOTS_BYTES && Weight(fmt.eventSize, events) <= MAX_EVENTS_BYTES
    && forall k :: 0 <= k < |states| ==> fmt.stateSize(states[k]) <= MAX_SNAPSHOT_BYTES
  }

  predicate Readable(rules: Rules, fmt: Formats, blobs: map<Digest, Bytes>, path: string, digest: Digest) {
    rules.path(path) && digest in blobs && |blobs[digest]| <= MAX_ARTIFACT_BYTES && Sha256(blobs[digest]) == digest
      && fmt.utf8(blobs[digest])
  }

  predicate AllReadable(rules: Rules, fmt: Formats, blobs: map<Digest, Bytes>, references: map<string, Digest>) {
    forall p :: p in references ==> Readable(rules, fmt, blobs, p, references[p])
  }

  predicate RunPresent(state: State, disk: map<FileKey, Bytes>) {
    state.simulation.None? ||
    var id := state.simulation.value.runId;
    OperationId(id) && forall name :: name in RUN_FILES ==>
      RunFile(id, name) in disk && |disk[RunFile(id, name)]| <= MAX_FILE_BYTES
  }

  // The run files the collector copies: always the same eight names.
  function CopiedRun(state: State): set<FileKey> {
    if state.simulation.None? then {} else RunKeys(state.simulation.value.runId, RUN_FILES)
  }

  function CopiedState(state: State): set<FileKey> {
    BlobKeys(state.files) + BlobKeys(ImportDigests(state)) + CopiedRun(state)
  }

  function Copied(states: seq<State>, n: nat): set<FileKey>
    requires n <= |states|
  {
    if n == 0 then {RecordsFile} else Copied(states, n - 1) + CopiedState(states[n - 1])
  }

  predicate Obtainable(rules: Rules, fmt: Formats, blobs: map<Digest, Bytes>, state: State, disk: map<FileKey, Bytes>) {
    && AllReadable(rules, fmt, blobs, state.files) && AllReadable(rules, fmt, blobs, ImportDigests(state))
    && RunPresent(state, disk)
  }

  predicate AllObtainable(rules: Rules, fmt: Formats, blobs: map<Digest, Bytes>, states: seq<State>, n: nat,
                          disk: map<FileKey, Bytes>)
    requires n <= |states|
  {
    n == 0 || (AllObtainable(rules, fmt, blobs, states, n - 1, disk)
               && Obtainable(rules, fmt, blobs, states[n - 1], disk))
  }

  // The bytes behind a portable path.
  function Fetch(records: Bytes, blobs: map<Digest, Bytes>, disk: map<FileKey, Bytes>, key: FileKey): Bytes {
    match key
    case RecordsFile => records
    case BlobFile(d) => if d in blobs then blobs[d] else []
    case RunFile(_, _) => if key in disk then disk[key] else []
  }

  function Gathered(keys: set<FileKey>, records: Bytes, blobs: map<Digest, Bytes>,
                    disk: map<FileKey, Bytes>): map<FileKey, Bytes> {
    map k | k in keys :: Fetch(records, blobs, disk, k)
  }

  function RecordsOf(s: Store): Records {
    Records(Column(ByKey(s.snapshots)), Column(ByKey(s.events)))
  }

  function MaterialOf(fmt: Formats, s: Store, disk: map<FileKey, Bytes>): map<FileKey, Bytes> {
    var records := RecordsOf(s);
    Gathered(Copied(records.snapshots, |records.snapshots|), fmt.records(records), s.blobs, disk)
  }

  predicate KeysContiguous<T>(rows: seq<(nat, T)>) {
    forall k :: 0 <= k < |rows| ==> rows[k].0 == k
  }

  // What it takes for a session to export, besides staying as it was. The comparison of the
  // collected with the expected files is not among it: it cannot refuse.
  predicate Exportable(rules: Rules, fmt: Formats, s: Store, disk: map<FileKey, Bytes>) {
    var records, files := RecordsOf(s), MaterialOf(fmt, s, disk);
    && KeysContiguous(ByKey(s.snapshots))
    && HistoryFits(fmt, records.snapshots, records.events)
    && AllObtainable(rules, fmt, s.blobs, records.snapshots, |records.snapshots|, disk)
    && Sealable(rules, fmt, records, files)
  }

  lemma RunNames(state: State)
    requires state.simulation.Some? && state.simulation.value.artifacts.Keys == EVIDENCE
    ensures CopiedRun(state) == RunPaths(state)
  {
    assert RUN_FILES == {Intent, Runner, ReportJson} + EVIDENCE;
  }

  lemma CopiedStateIsExpected(fmt: Formats, state: State, files: map<FileKey, Bytes>)
    requires RunChecked(fmt, state, files)
    ensures CopiedState(state) == StatePaths(state)
  {
    if state.simulation.Some? {
      RunNames(state);
    }
    assert CopiedRun(state) == RunPaths(state);
  }

  // What is collected is always exactly what validation expects.
  lemma {:induction false} CollectedIsExpected(rules: Rules, fmt: Formats, states: seq<State>, n: nat,
                                               files: map<FileKey, Bytes>)
    requires n <= |states| && StatesChecked(rules, fmt, states, n, files)
    ensures Copied(states, n) == Expected(states, n)
  {
    if n > 0 {
      CollectedIsExpected(rules, fmt, states, n - 1, files);
      OneMoreExpected(fmt, states, n, files);
    }
  }

  lemma OneMoreExpected(fmt: Formats, states: seq<State>, n: nat, files: map<FileKey, Bytes>)
    requires 0 < n <= |states| && RunChecked(fmt, states[n - 1], files)
             && Copied(states, n - 1) == Expected(states, n - 1)
    ensures Copied(states, n) == Expected(states, n)
  {
    CopiedStateIsExpected(fmt, states[n - 1], files);
  }

  method Contents(rules: Rules, fmt: Formats, blobs: map<Digest, Bytes>, references: map<string, Digest>)
    returns (r: Result<map<string, Bytes>>)
    ensures r.Ok? <==> AllReadable(rules, fmt, blobs, references)
    ensures r.Ok? ==> r.value.Keys == references.Keys && forall p :: p in references ==>
            r.value[p] == blobs[references[p]]
  {
    var result: map<string, Bytes> := map[];
    var waiting := references.Keys;
    while waiting != {}
      invariant waiting <= references.Keys && result.Keys == references.Keys - waiting
      invariant forall p :: p in result ==>
                Readable(rules, fmt, blobs, p, references[p]) && result[p] == blobs[references[p]]
      decreases |waiting|
    {
      var path :| path in waiting;
      if !Readable(rules, fmt, blobs, path, references[path]) {
        return Err("artifact_bytes_changed");
      }
      result := result[path := blobs[references[path]]];
      waiting := waiting - {path};
    }
    return Ok(result);
  }

  ghost predicate Filed(files: map<FileKey, Bytes>) {
    forall k :: k in files && k.BlobFile? ==> Sha256(files[k]) == k.digest
  }

  // Adds every content under the name of its own digest.
  method AddBlobs(contents: map<string, Bytes>, files: map<FileKey, Bytes>) returns (grown: map<FileKey, Bytes>)
    requires Filed(files)
    ensures Filed(grown)
    ensures grown.Keys == files.Keys + set p | p in contents :: BlobFile(Sha256(contents[p]))
    ensures forall k :: k in files ==> grown[k] == files[k]
  {
    grown := files;
    var waiting := contents.Keys;
    while waiting != {}
      invariant waiting <= contents.Keys && Filed(grown)
      invariant grown.Keys == files.Keys + set p | p in contents && p !in waiting :: BlobFile(Sha256(contents[p]))
      invariant forall k :: k in files ==> grown[k] == files[k]
      decreases |waiting|
    {
      var path :| path in waiting;
      grown := grown[BlobFile(Sha256(contents[path])) := contents[path]];
      waiting := waiting - {path};
    }
  }

  // Copies the eight files of a run, reading each one once.
  method AddRun(id: string, disk: map<FileKey, Bytes>, files: map<FileKey, Bytes>)
    returns (r: Result<map<FileKey, Bytes>>)
    ensures r.Ok? ==> r.value.Keys == files.Keys + RunKeys(id, RUN_FILES)
    ensures r.Ok? ==> forall k :: k in r.value ==> if k in files then r.value[k] == files[k]
            else k in disk && r.value[k] == disk[k]
    ensures (forall name :: name in RUN_FILES ==>
             RunFile(id, name) in disk && |disk[RunFile(id, name)]| <= MAX_FILE_BYTES) ==> r.Ok?
    ensures r.Ok? ==> forall name :: name in RUN_FILES && RunFile(id, name) !in files ==>
                        RunFile(id, name) in disk && |disk[RunFile(id, name)]| <= MAX_FILE_BYTES
  {
    var grown, names := files, RUN_FILES;
    var waiting := names;
    while waiting != {}
      invariant waiting <= names
      invariant grown.Keys == files.Keys + set name | name in names && name !in waiting :: RunFile(id, name)
      invariant forall k :: k in grown ==> if k in files then grown[k] == files[k] else k in disk && grown[k] == disk[k]
      invariant forall name :: name in names && name !in waiting && RunFile(id, name) !in files ==>
                  RunFile(id, name) in disk && |disk[RunFile(id, name)]| <= MAX_FILE_BYTES
      decreases |waiting|
    {
      var name :| name in waiting;
      var key := RunFile(id, name);
      if key !in grown {
        if key !in disk || |disk[key]| > MAX_FILE_BYTES {
          return Err("export_evidence_unavailable");
        }
        grown := grown[key := disk[key]];
      }
      waiting := waiting - {name};
    }
    return Ok(grown);
  }

  // Everything collected so far is what its path stands for and could be read.
  ghost predicate Collected(files: map<FileKey, Bytes>, records: Bytes, blobs: map<Digest, Bytes>,
                            disk: map<FileKey, Bytes>) {
    && files == Gathered(files.Keys, records, blobs, disk) && Filed(files)
    && (forall k :: k in files && k.BlobFile? ==> k.digest in blobs)
    && (forall k :: k in files && k.RunFile? ==> k in disk && |disk[k]| <= MAX_FILE_BYTES)
  }

  method AddContents(rules: Rules, fmt: Formats, references: map<string, Digest>, files: map<FileKey, Bytes>,
                     ghost records: Bytes, blobs: map<Digest, Bytes>, ghost disk: map<FileKey, Bytes>)
    returns (r: Result<map<FileKey, Bytes>>)
    requires Collected(files, records, blobs, disk)
    ensures r.Ok? <==> AllReadable(rules, fmt, blobs, references)
    ensures r.Ok? ==> Collected(r.value, records, blobs, disk) && r.value.Keys == files.Keys + BlobKeys(references)
  {
    var contents := Contents(rules, fmt, blobs, references);
    if contents.Err? {
      return Err(contents.code);
    }
    var grown := AddBlobs(contents.value, files);
    ghost var read := contents.value;
    assert forall p :: p in references ==> Sha256(read[p]) == references[p];
    assert (set p | p in read :: BlobFile(Sha256(read[p]))) == BlobKeys(references);
    forall k | k in grown
      ensures grown[k] == Fetch(records, blobs, disk, k) && (k.BlobFile? ==> k.digest in blobs)
    {
      if k !in files {
        var p :| p in references && k == BlobFile(references[p]);
        assert Sha256(grown[k]) == references[p] == Sha256(blobs[references[p]]);
      }
    }
    return Ok(grown);
  }

  method CollectState(rules: Rules, fmt: Formats, state: State, files: map<FileKey, Bytes>, ghost records: Bytes,
                      blobs: map<Digest, Bytes>, disk: map<FileKey, Bytes>)
    returns (r: Result<map<FileKey, Bytes>>)
    requires Collected(files, records, blobs, disk)
    ensures r.Ok? <==> Obtainable(rules, fmt, blobs, state, disk)
    ensures r.Ok? ==> Collected(r.value, records, blobs, disk) && r.value.Keys == files.Keys + CopiedState(state)
  {
    r := AddContents(rules, fmt, state.files, files, records, blobs, disk);
    if r.Err? {
      return;
    }
    r := AddContents(rules, fmt, ImportDigests(state), r.value, records, blobs, disk);
    if r.Err? {
      return;
    }
    r := AddRunOf(state, r.value, records, blobs, disk);
  }

  method AddRunOf(state: State, files: map<FileKey, Bytes>, ghost records: Bytes, ghost blobs: map<Digest, Bytes>,
                  disk: map<FileKey, Bytes>)
    returns (r: Result<map<FileKey, Bytes>>)
    requires Collected(files, records, blobs, disk)
    ensures r.Ok? <==> RunPresent(state, disk)
    ensures r.Ok? ==> Collected(r.value, records, blobs, disk) && r.value.Keys == files.Keys + CopiedRun(state)
  {
    if state.simulation.None? {
      return Ok(files);
    }
    var id := state.simulation.value.runId;
    if !OperationId(id) {
      return Err("portable_run_id_invalid");
    }
    r := AddRun(id, disk, files);
  }

  lemma {:induction false} LatestIsGreatestKey(rows: seq<(nat, State)>)
    requires |rows| > 0
    ensures |ByKey(rows)| == |rows| && LatestRow(rows) == ByKey(rows)[|rows| - 1]
  {
    var before := ByKey(rows[..|rows| - 1]);
    PlaceKeepsLength(before, rows[|rows| - 1]);
    if |rows| > 1 {
      LatestIsGreatestKey(rows[..|rows| - 1]);
    }
  }

  lemma {:induction false} PlaceKeepsLength<T>(rows: seq<(nat, T)>, row: (nat, T))
    ensures |Place(rows, row)| == |rows| + 1
    ensures Place(rows, row)[|rows|] == if |rows| == 0 || rows[|rows| - 1].0 <= row.0 then row else rows[|rows| - 1]
  {
    if |rows| > 0 && rows[|rows| - 1].0 > row.0 {
      PlaceKeepsLength(rows[..|rows| - 1], row);
    }
  }

  lemma {:induction false} ObtainablePrefix(rules: Rules, fmt: Formats, blobs: map<Digest, Bytes>, states: seq<State>,
                                            m: nat, n: nat, disk: map<FileKey, Bytes>)
    requires m <= n <= |states| && AllObtainable(rules, fmt, blobs, states, n, disk)
    ensures AllObtainable(rules, fmt, blobs, states, m, disk)
  {
    if m < n {
      ObtainablePrefix(rules, fmt, blobs, states, m, n - 1, disk);
    }
  }

  method CollectStates(rules: Rules, fmt: Formats, states: seq<State>, records: Bytes, blobs: map<Digest, Bytes>,
                       disk: map<FileKey, Bytes>)
    returns (r: Result<map<FileKey, Bytes>>)
    ensures r.Ok? <==> AllObtainable(rules, fmt, blobs, states, |states|, disk)
    ensures r.Ok? ==> r.value == Gathered(Copied(states, |states|), records, blobs, disk)
    ensures r.Ok? ==> RecordsFile in r.value && r.value[RecordsFile] == records
  {
    var files := map[RecordsFile := records];
    for k := 0 to |states|
      invariant AllObtainable(rules, fmt, blobs, states, k, disk)
      invariant Collected(files, records, blobs, disk) && files.Keys == Copied(states, k) && RecordsFile in files
    {
      var grown := CollectState(rules, fmt, states[k], files, records, blobs, disk);
      if grown.Err? {
        if AllObtainable(rules, fmt, blobs, states, |states|, disk) {
          ObtainablePrefix(rules, fmt, blobs, states, k + 1, |states|, disk);
        }
        return grown;
      }
      files := grown.value;
    }
    return Ok(files);
  }

  // Checks on the collected files, as far as they can refuse.
  predicate Sealable(rules: Rules, fmt: Formats, records: Records, files: map<FileKey, Bytes>) {
    HistoryChecked(rules, records) && StatesChecked(rules, fmt, records.snapshots, |records.snapshots|, files)
      && Fits(fmt, Sizes(files))
  }

  // The last steps: bounds, validation of the collected bytes, a second read after the reading
  // transaction was closed, the plan.
  method SealMaterial(rules: Rules, fmt: Formats, later: Store, records: Records, files: map<FileKey, Bytes>)
    returns (r: Result<Plan>)
    requires ReadsBack(fmt, records) && |records.snapshots| > 0
    requires files.Keys == Copied(records.snapshots, |records.snapshots|) && RecordsFile in files
             && files[RecordsFile] == fmt.records(records)
    ensures var last := records.snapshots[|records.snapshots| - 1];
            r.Ok? <==> Sealable(rules, fmt, records, files) && Read(rules, later) == Ok(last)
    ensures r.Ok? ==>
      var last := records.snapshots[|records.snapshots| - 1];
      && files.Keys == Expected(records.snapshots, |records.snapshots|) && r.value == PlanOf(fmt, files, last)
  {
    var states := records.snapshots;
    var last := states[|states| - 1];
    if !Fits(fmt, Sizes(files)) {
      return Err("portable_size_bound");
    }
    var document := fmt.readRecords(files[RecordsFile]);
    if document.None? || fmt.records(document.value) != files[RecordsFile] {
      return Err("portable_canonical_json_required");
    }
    var checked := ValidateRecords(rules, fmt, document.value, files);
    if StatesChecked(rules, fmt, states, |states|, files) {
      CollectedIsExpected(rules, fmt, states, |states|, files);
    }
    if checked.Err? {
      return Err(checked.code);
    }
    if Read(rules, later) != Ok(last) {
      return Err("portable_session_changed");
    }
    return MakePlan(fmt, files, last);
  }

  // The checks on the rows alone, before any file is read.
  function HistoryRefusal(fmt: Formats, rows: seq<(nat, State)>, records: Records): (code: string)
    ensures code == "" <==>
      && HistoryFits(fmt, records.snapshots, records.events) && KeysContiguous(rows)
      && records.snapshots[|records.snapshots| - 1].active.None?
  {
    if !HistoryFits(fmt, records.snapshots, records.events) then "portable_history_bound"
    else if !KeysContiguous(rows) then "portable_revision_gap"
    else if records.snapshots[|records.snapshots| - 1].active.Some? then "export_requires_reconciled_session"
    else ""
  }

  // The last snapshot collected from a session.
  function LastOf(s: Store): Option<State> {
    var states := RecordsOf(s).snapshots;
    if |states| == 0 then None else Some(states[|states| - 1])
  }

  lemma ExportableLeads(rules: Rules, fmt: Formats, s: Store, disk: map<FileKey, Bytes>)
    requires Exportable(rules, fmt, s, disk)
    ensures Leading(s) && LastOf(s).Some? && Read(rules, s) == Ok(LastOf(s).value)
  {
    var states, files := RecordsOf(s).snapshots, MaterialOf(fmt, s, disk);
    LatestIsGreatestKey(s.snapshots);
    PrefixChecked(rules, fmt, states, |states|, |states|, files);
  }

  // Exports take no lock: one succeeds if and only if the session can be exported and no call
  // writes to it between the collection and the second read.
  lemma ExportsIffUntouched(rules: Rules, fmt: Formats, s: Store, between: seq<Call>, disk: map<FileKey, Bytes>)
    requires Exportable(rules, fmt, s, disk)
    ensures Read(rules, PerformAll(rules, s, between)) == Ok(LastOf(s).value) <==> NoneCommits(rules, s, between)
  {
    ExportableLeads(rules, fmt, s, disk);
    RereadIffUntouched(rules, s, between);
  }

  // Any save in between that succeeds makes an exportable session's export fail.
  lemma WriteInBetweenRefuses(rules: Rules, fmt: Formats, s: Store, u: Update, disk: map<FileKey, Bytes>)
    requires Exportable(rules, fmt, s, disk) && Save(rules, s, u).Ok?
    ensures !NoneCommits(rules, s, [Saving(u)])
    ensures Read(rules, PerformAll(rules, s, [Saving(u)])) != Ok(LastOf(s).value)
  {
    assert [Saving(u)][..0] == [];
    assert PerformAll(rules, s, []) == s;
    ExportsIffUntouched(rules, fmt, s, [Saving(u)], disk);
  }

  // The collection of `s`, sealed against the session as it is read again.
  method CollectAndSeal(rules: Rules, fmt: Formats, s: Store, later: Store, disk: map<FileKey, Bytes>)
    returns (r: Result<(Plan, map<FileKey, Bytes>)>)
    requires ReadsBack(fmt, RecordsOf(s))
    ensures r.Ok? <==> Exportable(rules, fmt, s, disk) && Read(rules, later) == Ok(LastOf(s).value)
    ensures r.Ok? ==>
      var states, files := RecordsOf(s).snapshots, r.value.1;
      && files == MaterialOf(fmt, s, disk) && files.Keys == Expected(states, |states|)
      && r.value.0 == PlanOf(fmt, files, states[|states| - 1])
  {
    var records := RecordsOf(s);
    var refusal := HistoryRefusal(fmt, ByKey(s.snapshots), records);
    if refusal != "" {
      return Err(refusal);
    }
    var collected := CollectStates(rules, fmt, records.snapshots, fmt.records(records), s.blobs, disk);
    if collected.Err? {
      return Err(collected.code);
    }
    var plan := SealMaterial(rules, fmt, later, records, collected.value);
    if plan.Err? {
      return Err(plan.code);
    }
    return Ok((plan.value, collected.value));
  }

  // The whole export. It takes no lock: `between` is what writers do to the session from the end of
  // the collection to the second read. Its refusals are exactly those of `Exportable`, and a write
  // in between.
  method PortableMaterial(rules: Rules, fmt: Formats, s: Store, between: seq<Call>, disk: map<FileKey, Bytes>)
    returns (r: Result<(Plan, map<FileKey, Bytes>)>)
    requires ReadsBack(fmt, RecordsOf(s))
    ensures r.Ok? <==> Exportable(rules, fmt, s, disk) && NoneCommits(rules, s, between)
    ensures r.Ok? ==>
      var states, files := RecordsOf(s).snapshots, r.value.1;
      && files == MaterialOf(fmt, s, disk) && files.Keys == Expected(states, |states|)
      && r.value.0 == PlanOf(fmt, files, states[|states| - 1])
  {
    r := CollectAndSeal(rules, fmt, s, PerformAll(rules, s, between), disk);
    if Exportable(rules, fmt, s, disk) {
      ExportsIffUntouched(rules, fmt, s, between, disk);
    }
  }

  // The session of one snapshot.
  lemma SingleRecords(state: State)
    requires state.revision == 0
    ensures ByKey(Created(state).snapshots) == Created(state).snapshots
            && RecordsOf(Created(state)) == Records([state], [])
    ensures Copied([state], 1) == {RecordsFile} + CopiedState(state)
  {
    InOrder(Created(state).snapshots, 0);
    assert RecordsOf(Created(state)) == Records([state], []);
    assert Copied([state], 0) == {RecordsFile};
  }

  lemma SingleChecked(rules: Rules, fmt: Formats, state: State, blobs: map<Digest, Bytes>, disk: map<FileKey, Bytes>,
                      files: map<FileKey, Bytes>)
    ensures StatesChecked(rules, fmt, [state], 1, files) == StateChecked(rules, fmt, 0, state, files)
    ensures AllObtainable(rules, fmt, blobs, [state], 1, disk) == Obtainable(rules, fmt, blobs, state, disk)
    ensures Weight(fmt.stateSize, [state]) == fmt.stateSize(state)
  {
    assert StatesChecked(rules, fmt, [state], 0, files) && AllObtainable(rules, fmt, blobs, [state], 0, disk);
    assert [state][..0] == [];
  }

  // A session of one current snapshot at rest exports as soon as that snapshot can.
  lemma SingleExports(rules: Rules, fmt: Formats, state: State, disk: map<FileKey, Bytes>, files: map<FileKey, Bytes>)
    requires state.revision == 0 && state.schema == Current && state.active.None?
             && files == MaterialOf(fmt, Created(state), disk)
    ensures Exportable(rules, fmt, Created(state), disk) <==>
      StateChecked(rules, fmt, 0, state, files) && Obtainable(rules, fmt, map[], state, disk) && Fits(fmt, Sizes(files))
  {
    SingleRecords(state);
    SingleChecked(rules, fmt, state, map[], disk, files);
  }

  // A session just created exports as soon as its one snapshot fits and is of the current schema.
  lemma FreshSessionExports(rules: Rules, fmt: Formats, state: State, disk: map<FileKey, Bytes>)
    requires state.revision == 0 && state.files == map[] && state.imports == map[] && state.simulation.None?
             && state.active.None?
    ensures Exportable(rules, fmt, Created(state), disk) <==>
      && rules.valid(state) && state.schema == Current && fmt.stateSize(state) <= MAX_SNAPSHOT_BYTES
      && Fits(fmt, Sizes(map[RecordsFile := fmt.records(Records([state], []))]))
  {
    SingleRecords(state);
    assert ImportDigests(state) == map[];
    var files := MaterialOf(fmt, Created(state), disk);
    assert files == map[RecordsFile := fmt.records(Records([state], []))];
    if state.schema == Current {
      SingleExports(rules, fmt, state, disk, files);
    }
  }

  lemma DetailSaves(rules: Rules, state: State, fields: Digest)
    requires state.revision == 0 && Read(rules, Created(state)).Ok?
    requires rules.event("detail.changed", fields) && rules.valid(state.(revision := 1))
    ensures Save(rules, Created(state), Update(state, state, "detail.changed", fields, [])).Ok?
  {
  }

  // Such a save exists from the start: a session just created that exports, and a change of detail
  // between the two reads.
  lemma FreshExportCanBeRefused(rules: Rules, fmt: Formats, state: State, fields: Digest, disk: map<FileKey, Bytes>)
    requires state.revision == 0 && Exportable(rules, fmt, Created(state), disk)
    requires rules.event("detail.changed", fields) && rules.valid(state.(revision := 1))
    ensures var s, u := Created(state), Update(state, state, "detail.changed", fields, []);
            && Save(rules, s, u).Ok? && !NoneCommits(rules, s, [Saving(u)])
            && Read(rules, PerformAll(rules, s, [Saving(u)])) != Ok(LastOf(s).value)
  {
    ExportableLeads(rules, fmt, Created(state), disk);
    DetailSaves(rules, state, fields);
    WriteInBetweenRefuses(rules, fmt, Created(state), Update(state, state, "detail.changed", fields, []), disk);
  }
}
