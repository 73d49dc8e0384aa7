// Reading a portable directory and rebuilding the session it describes.
module PortableRestore {
  import opened Outcomes
  import opened Numerals
  import opened Blobs
  import opened SessionStore
  import opened Portable
  import opened PortableBackup

  // ---- Reading a portable directory ---------------------------------------------------

  // The path pattern a plan's rows must match.
  predicate AllowedKey(key: FileKey) {
    key.RunFile? ==> OperationId(key.run) && key.name in RUN_FILES
  }

  function RowSizes(plan: Plan): map<FileKey, nat> {
    map k | k in plan.files :: plan.files[k].1
  }

  predicate RowRead(plan: Plan, disk: map<FileKey, Bytes>, key: FileKey)
    requires key in plan.files
  {
    key in disk && |disk[key]| == plan.files[key].1 && Sha256(disk[key]) == plan.files[key].0
  }

  // A directory that a reader accepts under this plan, with the bytes and history it reads.
  ghost predicate Accepted(rules: Rules, fmt: Formats, incomplete: bool, plan: Plan, disk: map<FileKey, Bytes>,
                           files: map<FileKey, Bytes>, states: seq<State>) {
    !incomplete && RowsRead(plan, disk, files) && Documented(rules, fmt, plan, files, states)
  }

  ghost predicate RowsRead(plan: Plan, disk: map<FileKey, Bytes>, files: map<FileKey, Bytes>) {
    && (forall k :: k in plan.files ==> AllowedKey(k) && RowRead(plan, disk, k))
    && files.Keys == plan.files.Keys && (forall k :: k in files ==> files[k] == disk[k])
  }

  // The checks shared by reading and restoring: canonical records, valid, under this very plan.
  predicate Documentable(rules: Rules, fmt: Formats, plan: Plan, files: map<FileKey, Bytes>) {
    RecordsFile in files && fmt.readRecords(files[RecordsFile]).Some? &&
    var records := fmt.readRecords(files[RecordsFile]).value;
    && fmt.records(records) == files[RecordsFile]
    && RecordsChecked(rules, fmt, records, files)
    && MakePlan(fmt, files, records.snapshots[|records.snapshots| - 1]) == Ok(plan)
  }

  predicate Documented(rules: Rules, fmt: Formats, plan: Plan, files: map<FileKey, Bytes>, states: seq<State>) {
    Documentable(rules, fmt, plan, files) && fmt.readRecords(files[RecordsFile]).value.snapshots == states
  }

  method Document(rules: Rules, fmt: Formats, plan: Plan, files: map<FileKey, Bytes>) returns (r: Result<Records>)
    ensures r.Ok? <==> Documentable(rules, fmt, plan, files)
    ensures r.Ok? ==> fmt.readRecords(files[RecordsFile]) == Some(r.value)
  {
    if RecordsFile !in files {
      return Err("records.json");
    }
    var records := fmt.readRecords(files[RecordsFile]);
    if records.None? || fmt.records(records.value) != files[RecordsFile] {
      return Err("portable_canonical_json_required");
    }
    var states := ValidateRecords(rules, fmt, records.value, files);
    if states.Err? {
      return Err(states.code);
    }
    if MakePlan(fmt, files, states.value[|states.value| - 1]) != Ok(plan) {
      return Err("portable_manifest_changed");
    }
    return Ok(records.value);
  }

  method ReadRows(plan: Plan, disk: map<FileKey, Bytes>) returns (r: Result<map<FileKey, Bytes>>)
    ensures r.Ok? <==> forall k :: k in plan.files ==> RowRead(plan, disk, k)
    ensures r.Ok? ==> r.value.Keys == plan.files.Keys && forall k :: k in r.value ==> r.value[k] == disk[k]
  {
    var files: map<FileKey, Bytes> := map[];
    var waiting := plan.files.Keys;
    while waiting != {}
      invariant waiting <= plan.files.Keys && files.Keys == plan.files.Keys - waiting
      invariant forall k :: k in files ==> RowRead(plan, disk, k) && files[k] == disk[k]
      decreases |waiting|
    {
      var key :| key in waiting;
      if !RowRead(plan, disk, key) {
        return Err("portable_file_changed");
      }
      files := files[key := disk[key]];
      waiting := waiting - {key};
    }
    return Ok(files);
  }

  lemma ReadOnce(plan: Plan, disk: map<FileKey, Bytes>, files: map<FileKey, Bytes>)
    requires RowsRead(plan, disk, files)
    ensures forall other :: RowsRead(plan, disk, other) ==> other == files
    ensures RowSizes(plan) == Sizes(files)
  {
    forall other | RowsRead(plan, disk, other)
      ensures other == files
    {
      assert other.Keys == files.Keys;
    }
  }

  method PortableInput(rules: Rules, fmt: Formats, incomplete: bool, plan: Plan, disk: map<FileKey, Bytes>)
    returns (r: Result<(map<FileKey, Bytes>, seq<State>)>)
    ensures r.Ok? ==> Accepted(rules, fmt, incomplete, plan, disk, r.value.0, r.value.1)
    ensures r.Err? ==> forall files, states :: !Accepted(rules, fmt, incomplete, plan, disk, files, states)
  {
    if incomplete {
      return Err("session_restore_incomplete");
    }
    if exists k :: k in plan.files && !AllowedKey(k) {
      return Err("portable_path_invalid");
    }
    var files := ReadRows(plan, disk);
    if files.Err? {
      return Err(files.code);
    }
    ReadOnce(plan, disk, files.value);
    if !Fits(fmt, RowSizes(plan)) {
      return Err("portable_size_bound");
    }
    var records := Document(rules, fmt, plan, files.value);
    if records.Err? {
      return Err(records.code);
    }
    return Ok((files.value, records.value.snapshots));
  }

  lemma RunIsAllowed(fmt: Formats, state: State, files: map<FileKey, Bytes>, key: FileKey)
    requires RunChecked(fmt, state, files) && key in RunPaths(state)
    ensures AllowedKey(key)
  {
    if state.simulation.value.artifacts.Keys == EVIDENCE {
      RunNames(state);
    }
  }

  lemma StatePathIsAllowed(fmt: Formats, state: State, files: map<FileKey, Bytes>, key: FileKey)
    requires RunChecked(fmt, state, files) && key in StatePaths(state)
    ensures AllowedKey(key)
  {
    if key in RunPaths(state) {
      RunIsAllowed(fmt, state, files, key);
    }
  }

  lemma {:induction false} ExpectedIsAllowed(rules: Rules, fmt: Formats, states: seq<State>, n: nat,
                                             files: map<FileKey, Bytes>, key: FileKey)
    requires n <= |states| && StatesChecked(rules, fmt, states, n, files) && key in Expected(states, n)
    ensures AllowedKey(key)
  {
    if n > 0 {
      if key in Expected(states, n - 1) {
        ExpectedIsAllowed(rules, fmt, states, n - 1, files, key);
      } else {
        StatePathIsAllowed(fmt, states[n - 1], files, key);
      }
    }
  }

  // What was exported reads back: any complete directory holding the exported bytes is accepted
  // under the exported plan, and yields the exported files and history.
  lemma ExportReadsBack(rules: Rules, fmt: Formats, s: Store, disk: map<FileKey, Bytes>, copy: map<FileKey, Bytes>)
    requires ReadsBack(fmt, RecordsOf(s)) && Exportable(rules, fmt, s, disk)
    requires forall k :: k in MaterialOf(fmt, s, disk) ==> k in copy && copy[k] == MaterialOf(fmt, s, disk)[k]
    ensures var files, states := MaterialOf(fmt, s, disk), RecordsOf(s).snapshots;
            Accepted(rules, fmt, false, PlanOf(fmt, files, states[|states| - 1]), copy, files, states)
  {
    MaterialDocuments(rules, fmt, s, disk);
    MaterialReads(rules, fmt, s, disk, copy);
  }

  lemma MaterialReads(rules: Rules, fmt: Formats, s: Store, disk: map<FileKey, Bytes>, copy: map<FileKey, Bytes>)
    requires Exportable(rules, fmt, s, disk)
    requires forall k :: k in MaterialOf(fmt, s, disk) ==> k in copy && copy[k] == MaterialOf(fmt, s, disk)[k]
    ensures var files, states := MaterialOf(fmt, s, disk), RecordsOf(s).snapshots;
            RowsRead(PlanOf(fmt, files, states[|states| - 1]), copy, files)
  {
    var files, states := MaterialOf(fmt, s, disk), RecordsOf(s).snapshots;
    MaterialIsAllowed(rules, fmt, s, disk);
    CopyReads(fmt, files, states[|states| - 1], copy);
  }

  lemma MaterialIsAllowed(rules: Rules, fmt: Formats, s: Store, disk: map<FileKey, Bytes>)
    requires Exportable(rules, fmt, s, disk)
    ensures forall k :: k in MaterialOf(fmt, s, disk) ==> AllowedKey(k)
  {
    var files, states := MaterialOf(fmt, s, disk), RecordsOf(s).snapshots;
    MaterialIsExpected(rules, fmt, s, disk);
    forall k | k in files
      ensures AllowedKey(k)
    {
      ExpectedIsAllowed(rules, fmt, states, |states|, files, k);
    }
  }

  lemma MaterialDocuments(rules: Rules, fmt: Formats, s: Store, disk: map<FileKey, Bytes>)
    requires ReadsBack(fmt, RecordsOf(s)) && Exportable(rules, fmt, s, disk)
    ensures var files, states := MaterialOf(fmt, s, disk), RecordsOf(s).snapshots;
            Documented(rules, fmt, PlanOf(fmt, files, states[|states| - 1]), files, states)
  {
    var files, records := MaterialOf(fmt, s, disk), RecordsOf(s);
    MaterialIsExpected(rules, fmt, s, disk);
    assert fmt.readRecords(files[RecordsFile]) == Some(records);
    assert RecordsChecked(rules, fmt, records, files);
  }

  lemma CopyReads(fmt: Formats, files: map<FileKey, Bytes>, state: State, copy: map<FileKey, Bytes>)
    requires forall k :: k in files ==> AllowedKey(k) && k in copy && copy[k] == files[k]
    ensures RowsRead(PlanOf(fmt, files, state), copy, files)
  {
    assert files.Keys == PlanOf(fmt, files, state).files.Keys;
  }

  lemma MaterialIsExpected(rules: Rules, fmt: Formats, s: Store, disk: map<FileKey, Bytes>)
    requires Exportable(rules, fmt, s, disk)
    ensures var files, states := MaterialOf(fmt, s, disk), RecordsOf(s).snapshots;
            files.Keys == Expected(states, |states|) && RecordsFile in files
              && files[RecordsFile] == fmt.records(RecordsOf(s))
  {
    var states := RecordsOf(s).snapshots;
    CollectedIsExpected(rules, fmt, states, |states|, MaterialOf(fmt, s, disk));
    RecordsAlwaysExpected(states, |states|);
  }

  lemma {:induction false} RecordsAlwaysExpected(states: seq<State>, n: nat)
    requires n <= |states|
    ensures RecordsFile in Expected(states, n)
  {
    if n > 0 {
      RecordsAlwaysExpected(states, n - 1);
      StillExpected(Expected(states, n - 1), states, n);
    }
  }

  lemma StillExpected(before: set<FileKey>, states: seq<State>, n: nat)
    requires 0 < n <= |states| && before == Expected(states, n - 1) && RecordsFile in before
    ensures RecordsFile in Expected(states, n)
  {
    var added := StatePaths(states[n - 1]);
    assert RecordsFile in before + added;
  }

  // A reviewed plan pins what is restored: two directories accepted under the same plan hold the
  // same files and the same history.
  lemma ReviewedPlanPins(rules: Rules, fmt: Formats, plan: Plan, disk: map<FileKey, Bytes>, files: map<FileKey, Bytes>,
                         states: seq<State>, other: map<FileKey, Bytes>, others: map<FileKey, Bytes>,
                         history: seq<State>)
    requires Accepted(rules, fmt, false, plan, disk, files, states)
             && Accepted(rules, fmt, false, plan, other, others, history)
    ensures files == others && states == history
  {
    PlanPinsFiles(fmt, files, others, states[|states| - 1], history[|history| - 1]);
  }

  // ---- Restoring ----------------------------------------------------------------------

  function BlobTable(files: map<FileKey, Bytes>): map<Digest, Bytes> {
    map k | k in files && k.BlobFile? :: k.digest := files[k]
  }

  function RunTable(files: map<FileKey, Bytes>): map<FileKey, Bytes> {
    map k | k in files && k.RunFile? :: files[k]
  }

  function Keyed<T>(column: seq<T>, key: T -> nat): (rows: seq<(nat, T)>)
    ensures |rows| == |column|
    ensures forall k :: 0 <= k < |column| ==> rows[k] == (key(column[k]), column[k])
  {
    seq(|column|, k requires 0 <= k < |column| => (key(column[k]), column[k]))
  }

  function RevisionOf(state: State): nat {
    state.revision
  }

  function SequenceOf(event: Event): nat {
    event.sequence
  }

  function Bumped(states: seq<State>): State
    requires |states| > 0
  {
    states[|states| - 1].(revision := states[|states| - 1].revision + 1)
  }

  function Receipt(fmt: Formats, restored: State, plan: Plan): Event {
    Event(restored.revision, "session.restored", fmt.planDigest(plan))
  }

  function RestoredStore(fmt: Formats, plan: Plan, records: Records, files: map<FileKey, Bytes>): Store
    requires |records.snapshots| > 0
  {
    var restored := Bumped(records.snapshots);
    Store(Keyed(records.snapshots + [restored], RevisionOf),
          Keyed(records.events + [Receipt(fmt, restored, plan)], SequenceOf), BlobTable(files))
  }

  method RestoredMaterial(rules: Rules, fmt: Formats, plan: Plan, files: map<FileKey, Bytes>, states: seq<State>)
    returns (r: Result<(State, Store, map<FileKey, Bytes>)>)
    ensures r.Ok? <==> Documented(rules, fmt, plan, files, states) && rules.valid(Bumped(states))
    ensures r.Ok? ==>
            r.value ==
            (Bumped(states), RestoredStore(fmt, plan, fmt.readRecords(files[RecordsFile]).value, files),
             RunTable(files))
  {
    var records := Document(rules, fmt, plan, files);
    if records.Err? {
      return Err(records.code);
    }
    if records.value.snapshots != states {
      return Err("portable_manifest_changed");
    }
    var restored := Bumped(states);
    if !rules.valid(restored) {
      return Err("session_state_invalid");
    }
    var snapshots := Keyed(states + [restored], RevisionOf);
    var events := Keyed(records.value.events + [Receipt(fmt, restored, plan)], SequenceOf);
    return Ok((restored, Store(snapshots, events, BlobTable(files)), RunTable(files)));
  }

  lemma {:induction false} RevisionsRun(rules: Rules, fmt: Formats, states: seq<State>, files: map<FileKey, Bytes>,
                                        k: nat)
    requires k < |states| && StatesChecked(rules, fmt, states, |states|, files)
    ensures states[k].revision == k && StateChecked(rules, fmt, k, states[k], files)
  {
    PrefixChecked(rules, fmt, states, k + 1, |states|, files);
  }

  lemma SequencesRun(rules: Rules, events: seq<Event>, k: nat)
    requires k < |events| && EventsChecked(rules, events, |events|)
    ensures events[k].sequence == k + 1
  {
    EventPrefixChecked(rules, events, k + 1, |events|);
  }

  // A restored session is a session: contiguous, content-addressed, every digest resolving.
  lemma RestoredIsSound(rules: Rules, fmt: Formats, plan: Plan, records: Records, files: map<FileKey, Bytes>)
    requires RecordsChecked(rules, fmt, records, files)
    ensures var n := RestoredStore(fmt, plan, records, files);
            Contiguous(n) && Addressed(n.blobs) && HistoryResolves(n)
  {
    var states, n := records.snapshots, RestoredStore(fmt, plan, records, files);
    forall k | 0 <= k < |states|
      ensures states[k].revision == k && StateChecked(rules, fmt, k, states[k], files)
    {
      RevisionsRun(rules, fmt, states, files, k);
    }
    forall k | 0 <= k < |records.events|
      ensures records.events[k].sequence == k + 1
    {
      SequencesRun(rules, records.events, k);
    }
    BlobsAreAddressed(states, files, rules, fmt);
    forall k | 0 <= k <= |states|
      ensures StateResolves(n.blobs, n.snapshots[k].1)
    {
      var j := if k < |states| then k else k - 1;
      CheckedResolves(rules, fmt, j, states[j], files);
    }
  }

  lemma CheckedResolves(rules: Rules, fmt: Formats, revision: nat, state: State, files: map<FileKey, Bytes>)
    requires StateChecked(rules, fmt, revision, state, files)
    ensures StateResolves(BlobTable(files), state)
  {
    forall p | p in state.files
      ensures Resolves(BlobTable(files), state.files[p])
    {
      assert BlobChecked(rules, p, state.files[p], files);
      assert BlobFile(state.files[p]) in files;
    }
    forall p | p in state.imports
      ensures Resolves(BlobTable(files), state.imports[p].digest)
    {
      assert BlobChecked(rules, p, ImportDigests(state)[p], files);
      assert BlobFile(state.imports[p].digest) in files;
    }
  }

  // Every blob of a checked set is filed under its own digest, since only references are expected.
  lemma RunPathsAreRuns(state: State, key: FileKey)
    ensures key in RunPaths(state) ==> key.RunFile?
  {
  }

  lemma {:induction false} ExpectedBlobsMatch(rules: Rules, fmt: Formats, states: seq<State>, n: nat,
                                              files: map<FileKey, Bytes>, d: Digest)
    requires n <= |states| && StatesChecked(rules, fmt, states, n, files) && BlobFile(d) in Expected(states, n)
    ensures BlobFile(d) in files && Sha256(files[BlobFile(d)]) == d
  {
    var last := states[n - 1];
    if BlobFile(d) in BlobKeys(last.files) {
      ReferenceMatches(rules, last.files, files, d);
    } else if BlobFile(d) in BlobKeys(ImportDigests(last)) {
      ReferenceMatches(rules, ImportDigests(last), files, d);
    } else {
      RunPathsAreRuns(last, BlobFile(d));
      ExpectedBlobsMatch(rules, fmt, states, n - 1, files, d);
    }
  }

  lemma ReferenceMatches(rules: Rules, references: map<string, Digest>, files: map<FileKey, Bytes>, d: Digest)
    requires ReferencesChecked(rules, references, files) && BlobFile(d) in BlobKeys(references)
    ensures BlobFile(d) in files && Sha256(files[BlobFile(d)]) == d
  {
    var p :| p in references && references[p] == d;
    assert BlobChecked(rules, p, d, files);
  }

  lemma BlobsAreAddressed(states: seq<State>, files: map<FileKey, Bytes>, rules: Rules, fmt: Formats)
    requires StatesChecked(rules, fmt, states, |states|, files) && files.Keys == Expected(states, |states|)
    ensures Addressed(BlobTable(files))
  {
    forall d | d in BlobTable(files)
      ensures Sha256(BlobTable(files)[d]) == d
    {
      ExpectedBlobsMatch(rules, fmt, states, |states|, files, d);
    }
  }

  // The restored history is the original one plus a single snapshot, equal to the last except for
  // its revision, and a single receipt naming the reviewed plan; no blob changes.
  lemma RestoreKeepsHistory(rules: Rules, fmt: Formats, s: Store, disk: map<FileKey, Bytes>)
    requires Contiguous(s) && Exportable(rules, fmt, s, disk)
    ensures var files, records := MaterialOf(fmt, s, disk), RecordsOf(s);
            var last := s.snapshots[|s.snapshots| - 1].1;
            var plan := PlanOf(fmt, files, last);
            var n := RestoredStore(fmt, plan, records, files);
            && n.snapshots == s.snapshots + [(|s.snapshots|, last.(revision := |s.snapshots|))]
            && n.events == s.events + [(|s.snapshots|, Event(|s.snapshots|, "session.restored", fmt.planDigest(plan)))]
            && (forall d :: d in n.blobs ==> d in s.blobs && n.blobs[d] == s.blobs[d])
  {
    var files, records := MaterialOf(fmt, s, disk), RecordsOf(s);
    RestoredTables(fmt, PlanOf(fmt, files, s.snapshots[|s.snapshots| - 1].1), s, files);
    MaterialBlobs(rules, fmt, s, disk);
  }

  lemma RecordsInOrder(s: Store)
    requires Contiguous(s)
    ensures RecordsOf(s) == Records(Column(s.snapshots), Column(s.events))
    ensures Bumped(RecordsOf(s).snapshots) == s.snapshots[|s.snapshots| - 1].1.(revision := |s.snapshots|)
  {
    InOrder(s.snapshots, 0);
    InOrder(s.events, 1);
  }

  lemma RestoredTables(fmt: Formats, plan: Plan, s: Store, files: map<FileKey, Bytes>)
    requires Contiguous(s)
    ensures var last := s.snapshots[|s.snapshots| - 1].1;
            var n := RestoredStore(fmt, plan, RecordsOf(s), files);
            && n.snapshots == s.snapshots + [(|s.snapshots|, last.(revision := |s.snapshots|))]
            && n.events == s.events + [(|s.snapshots|, Event(|s.snapshots|, "session.restored", fmt.planDigest(plan)))]
  {
    RecordsInOrder(s);
    var restored := Bumped(RecordsOf(s).snapshots);
    KeyedAgain(s.snapshots, restored, RevisionOf);
    KeyedAgain(s.events, Receipt(fmt, restored, plan), SequenceOf);
  }

  lemma KeyedAgain<T>(rows: seq<(nat, T)>, extra: T, key: T -> nat)
    requires forall k :: 0 <= k < |rows| ==> rows[k].0 == key(rows[k].1)
    ensures Keyed(Column(rows) + [extra], key) == rows + [(key(extra), extra)]
  {
  }

  lemma MaterialBlobs(rules: Rules, fmt: Formats, s: Store, disk: map<FileKey, Bytes>)
    requires Exportable(rules, fmt, s, disk)
    ensures var blobs := BlobTable(MaterialOf(fmt, s, disk));
            forall d :: d in blobs ==> d in s.blobs && blobs[d] == s.blobs[d]
  {
    forall d | d in BlobTable(MaterialOf(fmt, s, disk))
      ensures d in s.blobs && BlobTable(MaterialOf(fmt, s, disk))[d] == s.blobs[d]
    {
      MaterialBlob(rules, fmt, s, disk, d);
    }
  }

  lemma MaterialBlob(rules: Rules, fmt: Formats, s: Store, disk: map<FileKey, Bytes>, d: Digest)
    requires Exportable(rules, fmt, s, disk) && d in BlobTable(MaterialOf(fmt, s, disk))
    ensures d in s.blobs && BlobTable(MaterialOf(fmt, s, disk))[d] == s.blobs[d]
  {
    var states := RecordsOf(s).snapshots;
    CopiedBlobsExist(rules, fmt, s.blobs, states, |states|, disk, d);
  }

  lemma {:induction false} CopiedBlobsExist(rules: Rules, fmt: Formats, blobs: map<Digest, Bytes>, states: seq<State>,
                                            n: nat, disk: map<FileKey, Bytes>, d: Digest)
    requires n <= |states| && AllObtainable(rules, fmt, blobs, states, n, disk) && BlobFile(d) in Copied(states, n)
    ensures d in blobs
  {
    var last := states[n - 1];
    if BlobFile(d) in BlobKeys(last.files) {
      var p :| p in last.files && last.files[p] == d;
      assert Readable(rules, fmt, blobs, p, d);
    } else if BlobFile(d) in BlobKeys(ImportDigests(last)) {
      var imports := ImportDigests(last);
      var p :| p in imports && imports[p] == d;
      assert Readable(rules, fmt, blobs, p, d);
    } else {
      CopiedRunIsRun(last, BlobFile(d));
      CopiedBlobsExist(rules, fmt, blobs, states, n - 1, disk, d);
    }
  }

  lemma CopiedRunIsRun(state: State, key: FileKey)
    ensures key in CopiedRun(state) ==> key.RunFile?
  {
  }

  // ---- Exporting the restored session -------------------------------------------------

  // Text that is accepted decodes.
  ghost predicate TextDecodes(rules: Rules, fmt: Formats) {
    forall b: Bytes :: rules.text(b) ==> fmt.utf8(b)
  }

  ghost predicate AgreeBeyondRecords(files: map<FileKey, Bytes>, other: map<FileKey, Bytes>) {
    forall k: FileKey :: k != RecordsFile ==> (k in files <==> k in other) && (k in files ==> files[k] == other[k])
  }

  // Checking a snapshot never looks at the records file.
  lemma CheckedElsewhere(rules: Rules, fmt: Formats, revision: nat, state: State, files: map<FileKey, Bytes>,
                         other: map<FileKey, Bytes>)
    requires AgreeBeyondRecords(files, other) && StateChecked(rules, fmt, revision, state, files)
    ensures StateChecked(rules, fmt, revision, state, other)
  {
    ReferencesElsewhere(rules, state.files, files, other);
    ReferencesElsewhere(rules, ImportDigests(state), files, other);
    RunElsewhere(fmt, state, files, other);
  }

  lemma ReferencesElsewhere(rules: Rules, references: map<string, Digest>, files: map<FileKey, Bytes>,
                            other: map<FileKey, Bytes>)
    requires AgreeBeyondRecords(files, other) && ReferencesChecked(rules, references, files)
    ensures ReferencesChecked(rules, references, other)
  {
    forall p | p in references
      ensures BlobChecked(rules, p, references[p], other)
    {
      assert BlobChecked(rules, p, references[p], files);
    }
  }

  lemma RunElsewhere(fmt: Formats, state: State, files: map<FileKey, Bytes>, other: map<FileKey, Bytes>)
    requires AgreeBeyondRecords(files, other) && RunChecked(fmt, state, files)
    ensures RunChecked(fmt, state, other)
  {
    if state.simulation.Some? {
      var report := state.simulation.value;
      forall name | name in report.artifacts
        ensures ArtifactChecked(report, name, other)
      {
        assert ArtifactChecked(report, name, files);
      }
    }
  }

  lemma {:induction false} StatesElsewhere(rules: Rules, fmt: Formats, states: seq<State>, n: nat,
                                           files: map<FileKey, Bytes>, other: map<FileKey, Bytes>)
    requires n <= |states| && AgreeBeyondRecords(files, other) && StatesChecked(rules, fmt, states, n, files)
    ensures StatesChecked(rules, fmt, states, n, other)
  {
    if n > 0 {
      CheckedElsewhere(rules, fmt, n - 1, states[n - 1], files, other);
      StatesElsewhere(rules, fmt, states, n - 1, files, other);
    }
  }

  // A checked snapshot can be collected again from the restored tables.
  lemma CheckedIsObtainable(rules: Rules, fmt: Formats, revision: nat, state: State, files: map<FileKey, Bytes>)
    requires TextDecodes(rules, fmt) && StateChecked(rules, fmt, revision, state, files) && Fits(fmt, Sizes(files))
    ensures Obtainable(rules, fmt, BlobTable(files), state, RunTable(files))
  {
    ReferencesAreReadable(rules, fmt, state.files, files);
    ReferencesAreReadable(rules, fmt, ImportDigests(state), files);
    if state.simulation.Some? {
      RunIsPresent(fmt, state, files);
    }
  }

  lemma ReferencesAreReadable(rules: Rules, fmt: Formats, references: map<string, Digest>, files: map<FileKey, Bytes>)
    requires TextDecodes(rules, fmt) && ReferencesChecked(rules, references, files)
    ensures AllReadable(rules, fmt, BlobTable(files), references)
  {
    forall p | p in references
      ensures Readable(rules, fmt, BlobTable(files), p, references[p])
    {
      assert BlobChecked(rules, p, references[p], files);
      assert BlobFile(references[p]) in files;
    }
  }

  lemma RunIsPresent(fmt: Formats, state: State, files: map<FileKey, Bytes>)
    requires state.simulation.Some? && RunChecked(fmt, state, files) && Fits(fmt, Sizes(files))
    ensures RunPresent(state, RunTable(files))
  {
    var report := state.simulation.value;
    forall name | name in RUN_FILES
      ensures RunFile(report.runId, name) in RunTable(files)
              && |RunTable(files)[RunFile(report.runId, name)]| <= MAX_FILE_BYTES
    {
      var key := RunFile(report.runId, name);
      if name in EVIDENCE {
        assert ArtifactChecked(report, name, files);
      }
      assert key in files;
      assert Sizes(files)[key] <= MAX_FILE_BYTES;
    }
  }

  lemma {:induction false} StatesAreObtainable(rules: Rules, fmt: Formats, states: seq<State>, n: nat,
                                               files: map<FileKey, Bytes>)
    requires n <= |states| && TextDecodes(rules, fmt) && StatesChecked(rules, fmt, states, n, files)
             && Fits(fmt, Sizes(files))
    ensures AllObtainable(rules, fmt, BlobTable(files), states, n, RunTable(files))
  {
    if n > 0 {
      CheckedIsObtainable(rules, fmt, n - 1, states[n - 1], files);
      StatesAreObtainable(rules, fmt, states, n - 1, files);
    }
  }

  // What is said of the first n snapshots does not depend on a later one.
  lemma {:induction false} LaterIsIgnored(rules: Rules, fmt: Formats, states: seq<State>, extra: State, n: nat,
                                          files: map<FileKey, Bytes>, blobs: map<Digest, Bytes>,
                                          disk: map<FileKey, Bytes>)
    requires n <= |states|
    ensures StatesChecked(rules, fmt, states + [extra], n, files) == StatesChecked(rules, fmt, states, n, files)
    ensures AllObtainable(rules, fmt, blobs, states + [extra], n, disk) ==
            AllObtainable(rules, fmt, blobs, states, n, disk)
    ensures Copied(states + [extra], n) == Copied(states, n)
  {
    if n > 0 {
      LaterIsIgnored(rules, fmt, states, extra, n - 1, files, blobs, disk);
      assert (states + [extra])[n - 1] == states[n - 1];
    }
  }

  lemma {:induction false} LaterEventIsIgnored(rules: Rules, events: seq<Event>, extra: Event, n: nat)
    requires n <= |events|
    ensures EventsChecked(rules, events + [extra], n) == EventsChecked(rules, events, n)
  {
    if n > 0 {
      LaterEventIsIgnored(rules, events, extra, n - 1);
      assert (events + [extra])[n - 1] == events[n - 1];
    }
  }

  // The bounds a restored history must still meet to be exported: room for one more snapshot and
  // event, and for the larger records file.
  predicate RoomForOne(rules: Rules, fmt: Formats, records: Records, files: map<FileKey, Bytes>)
    requires |records.snapshots| > 0 && |records.events| > 0
  {
    var receipt := records.events[|records.events| - 1];
    && HistoryFits(fmt, records.snapshots, records.events)
    && rules.event(receipt.name, receipt.fields)
    && Fits(fmt, Sizes(files[RecordsFile := fmt.records(records)]))
  }

  function Extended(fmt: Formats, plan: Plan, records: Records): Records
    requires |records.snapshots| > 0
  {
    var restored := Bumped(records.snapshots);
    Records(records.snapshots + [restored], records.events + [Receipt(fmt, restored, plan)])
  }

  lemma RestoredRecords(rules: Rules, fmt: Formats, plan: Plan, records: Records, files: map<FileKey, Bytes>)
    requires RecordsChecked(rules, fmt, records, files)
    ensures var n := RestoredStore(fmt, plan, records, files);
            RecordsOf(n) == Extended(fmt, plan, records) && ByKey(n.snapshots) == n.snapshots
              && KeysContiguous(n.snapshots)
  {
    var n := RestoredStore(fmt, plan, records, files);
    RestoredIsSound(rules, fmt, plan, records, files);
    InOrder(n.snapshots, 0);
    InOrder(n.events, 1);
    var e := Extended(fmt, plan, records);
    assert Column(n.snapshots) == e.snapshots;
    assert Column(n.events) == e.events;
  }

  // The restored session collects the same files; only its records grow.
  lemma RestoredMaterialAgrees(rules: Rules, fmt: Formats, plan: Plan, records: Records, files: map<FileKey, Bytes>)
    requires RecordsChecked(rules, fmt, records, files)
    ensures MaterialOf(fmt, RestoredStore(fmt, plan, records, files), RunTable(files)) ==
            files[RecordsFile := fmt.records(Extended(fmt, plan, records))]
  {
    var n, e, states := RestoredStore(fmt, plan, records, files), Extended(fmt, plan, records), records.snapshots;
    RestoredRecords(rules, fmt, plan, records, files);
    CollectedIsExpected(rules, fmt, states, |states|, files);
    RecordsAlwaysExpected(states, |states|);
    BumpedCopiesNothing(rules, fmt, states);
    GatheredAgain(files, fmt.records(e));
  }

  lemma GatheredAgain(files: map<FileKey, Bytes>, records: Bytes)
    requires RecordsFile in files
    ensures Gathered(files.Keys, records, BlobTable(files), RunTable(files)) == files[RecordsFile := records]
  {
    var again := Gathered(files.Keys, records, BlobTable(files), RunTable(files));
    forall k | k in files && k != RecordsFile
      ensures again[k] == files[k]
    {
      if k.BlobFile? {
        assert k.digest in BlobTable(files);
      }
    }
  }

  lemma BumpedCopiesNothing(rules: Rules, fmt: Formats, states: seq<State>)
    requires |states| > 0
    ensures Copied(states + [Bumped(states)], |states| + 1) == Copied(states, |states|)
  {
    var all, last := states + [Bumped(states)], states[|states| - 1];
    LaterIsIgnored(rules, fmt, states, Bumped(states), |states|, map[], map[], map[]);
    assert ImportDigests(Bumped(states)) == ImportDigests(last);
    assert CopiedState(Bumped(states)) == CopiedState(last);
  }

  // A restored session exports again, with the old history as its prefix, exactly while one more
  // revision fits the bounds: nothing else can refuse it.
  lemma RestoredExportsAgain(rules: Rules, fmt: Formats, plan: Plan, files: map<FileKey, Bytes>, states: seq<State>)
    requires TextDecodes(rules, fmt) && Documented(rules, fmt, plan, files, states) && rules.valid(Bumped(states))
    ensures var records := fmt.readRecords(files[RecordsFile]).value;
            var n, e := RestoredStore(fmt, plan, records, files), Extended(fmt, plan, records);
            && (Exportable(rules, fmt, n, RunTable(files)) <==> RoomForOne(rules, fmt, e, files))
            && records.snapshots <= RecordsOf(n).snapshots && records.events <= RecordsOf(n).events
  {
    var records := fmt.readRecords(files[RecordsFile]).value;
    var n, e := RestoredStore(fmt, plan, records, files), Extended(fmt, plan, records);
    var grown := files[RecordsFile := fmt.records(e)];
    RestoredRecords(rules, fmt, plan, records, files);
    RestoredMaterialAgrees(rules, fmt, plan, records, files);
    RestoredObtainable(rules, fmt, states, files);
    StatesElsewhere(rules, fmt, states, |states|, files, grown);
    BumpedChecked(rules, fmt, states, grown);
    ExtendedHistory(rules, fmt, plan, records);
  }

  lemma RestoredObtainable(rules: Rules, fmt: Formats, states: seq<State>, files: map<FileKey, Bytes>)
    requires TextDecodes(rules, fmt) && |states| > 0 && StatesChecked(rules, fmt, states, |states|, files)
             && Fits(fmt, Sizes(files))
    ensures AllObtainable(rules, fmt, BlobTable(files), states + [Bumped(states)], |states| + 1, RunTable(files))
  {
    var last := states[|states| - 1];
    StatesAreObtainable(rules, fmt, states, |states|, files);
    LaterIsIgnored(rules, fmt, states, Bumped(states), |states|, files, BlobTable(files), RunTable(files));
    assert ImportDigests(Bumped(states)) == ImportDigests(last);
    assert Obtainable(rules, fmt, BlobTable(files), last, RunTable(files));
    assert Obtainable(rules, fmt, BlobTable(files), Bumped(states), RunTable(files));
  }

  lemma BumpedChecked(rules: Rules, fmt: Formats, states: seq<State>, files: map<FileKey, Bytes>)
    requires |states| > 0 && StatesChecked(rules, fmt, states, |states|, files) && rules.valid(Bumped(states))
    ensures StatesChecked(rules, fmt, states + [Bumped(states)], |states| + 1, files) <==>
            fmt.stateSize(Bumped(states)) <= MAX_SNAPSHOT_BYTES
  {
    var last := states[|states| - 1];
    LaterIsIgnored(rules, fmt, states, Bumped(states), |states|, files, map[], map[]);
    assert ImportDigests(Bumped(states)) == ImportDigests(last);
    RevisionsRun(rules, fmt, states, files, |states| - 1);
  }

  lemma ExtendedHistory(rules: Rules, fmt: Formats, plan: Plan, records: Records)
    requires HistoryChecked(rules, records)
             && records.snapshots[|records.snapshots| - 1].revision == |records.snapshots| - 1
    ensures var e := Extended(fmt, plan, records); var receipt := e.events[|records.events|];
            HistoryChecked(rules, e) <==> |e.snapshots| <= MAX_HISTORY && rules.event(receipt.name, receipt.fields)
  {
    var e := Extended(fmt, plan, records);
    LaterEventIsIgnored(rules, records.events, e.events[|records.events|], |records.events|);
  }
}
