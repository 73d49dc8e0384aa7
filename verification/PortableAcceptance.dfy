// Exactly which directories a reader accepts, and exactly which sessions export, entry by entry.
module PortableAcceptance {
  import opened Outcomes
  import opened Numerals
  import opened Blobs
  import opened SessionStore
  import opened Portable
  import opened PortableBackup
  import opened PortableRestore
  import opened PortableMeaning

  // ---- Reading ------------------------------------------------------------------------

  // The paths of the layout.
  predicate InLayout(key: FileKey) {
    match key
    case RecordsFile => true
    case BlobFile(_) => true
    case RunFile(run, name) =>
      OperationId(run) &&
      name in {RunName.Intent, Runner, ReportJson, Results, ModelResults, Waves, RunnerLog, Toolchain}
  }

  // Every row of the plan is in the layout and names the bytes that are read.
  ghost predicate RowsAre(plan: Plan, disk: map<FileKey, Bytes>, files: map<FileKey, Bytes>) {
    && files.Keys == plan.files.Keys
    && forall k :: k in files ==>
         InLayout(k) && k in disk && files[k] == disk[k] && plan.files[k] == (Sha256(files[k]), |files[k]|)
  }

  // The records are canonical, their history is sound for exactly these files, and the plan names its
  // last state.
  ghost predicate RecordsAre(rules: Rules, fmt: Formats, plan: Plan, files: map<FileKey, Bytes>, records: Records) {
    && RecordsFile in files && files[RecordsFile] == fmt.records(records) && ReadsBack(fmt, records)
    && HistoryIs(rules, fmt, records, files) && WithinBounds(fmt, files)
    && plan.revision == |records.snapshots| - 1
    && plan.state == fmt.stateDigest(records.snapshots[|records.snapshots| - 1])
  }

  // A directory whose plan, files and history say the same thing.
  ghost predicate ReadsAs(rules: Rules, fmt: Formats, incomplete: bool, plan: Plan, disk: map<FileKey, Bytes>,
                          files: map<FileKey, Bytes>, records: Records) {
    !incomplete && RowsAre(plan, disk, files) && RecordsAre(rules, fmt, plan, files, records)
  }

  lemma RowsReadIff(plan: Plan, disk: map<FileKey, Bytes>, files: map<FileKey, Bytes>)
    ensures RowsRead(plan, disk, files) <==> RowsAre(plan, disk, files)
  {
    if RowsAre(plan, disk, files) {
      forall k | k in plan.files
        ensures AllowedKey(k) && RowRead(plan, disk, k)
      {
        assert k in files;
      }
    }
  }

  // Not too many files, none too large, and not too much in all.
  ghost predicate WithinBounds(fmt: Formats, files: map<FileKey, Bytes>) {
    |files| <= MAX_ROWS && fmt.total(Sizes(files)) <= MAX_BYTES && forall k :: k in files ==>
      |files[k]| <= MAX_FILE_BYTES
  }

  lemma BoundsIff(fmt: Formats, files: map<FileKey, Bytes>)
    ensures Fits(fmt, Sizes(files)) <==> WithinBounds(fmt, files)
  {
    var sizes := Sizes(files);
    assert sizes.Keys == files.Keys && |sizes| == |sizes.Keys| && |files| == |files.Keys|;
  }

  // A plan is made of these files exactly if it names them, and the state.
  lemma PlanSays(fmt: Formats, files: map<FileKey, Bytes>, state: State, plan: Plan)
    ensures MakePlan(fmt, files, state) == Ok(plan) <==>
      && WithinBounds(fmt, files) && plan.revision == state.revision && plan.state == fmt.stateDigest(state)
      && plan.files.Keys == files.Keys
      && forall k :: k in files ==> plan.files[k] == (Sha256(files[k]), |files[k]|)
  {
    var made := PlanOf(fmt, files, state);
    BoundsIff(fmt, files);
    assert made.files.Keys == files.Keys;
    if plan.files.Keys == files.Keys && forall k :: k in files ==> plan.files[k] == (Sha256(files[k]), |files[k]|) {
      assert plan.files == made.files;
    }
  }

  lemma LastRevision(rules: Rules, fmt: Formats, records: Records, files: map<FileKey, Bytes>)
    requires HistoryIs(rules, fmt, records, files)
    ensures var n := |records.snapshots|; n > 0 && records.snapshots[n - 1].revision == n - 1
  {
    var n := |records.snapshots|;
    assert SnapshotIs(rules, fmt, n - 1, records.snapshots[n - 1], files);
  }

  lemma PlanNames(fmt: Formats, files: map<FileKey, Bytes>, state: State, plan: Plan)
    requires files.Keys == plan.files.Keys
    requires forall k :: k in files ==> plan.files[k] == (Sha256(files[k]), |files[k]|)
    ensures MakePlan(fmt, files, state) == Ok(plan) <==>
            WithinBounds(fmt, files) && plan.revision == state.revision && plan.state == fmt.stateDigest(state)
  {
    PlanSays(fmt, files, state, plan);
  }

  // With sound records, being documented comes down to the plan.
  lemma DocumentedByPlan(rules: Rules, fmt: Formats, plan: Plan, files: map<FileKey, Bytes>, records: Records)
    requires RecordsFile in files && fmt.readRecords(files[RecordsFile]) == Some(records)
    requires |records.snapshots| > 0
    ensures Documentable(rules, fmt, plan, files) <==>
      && fmt.records(records) == files[RecordsFile] && RecordsChecked(rules, fmt, records, files)
      && MakePlan(fmt, files, records.snapshots[|records.snapshots| - 1]) == Ok(plan)
  {
  }

  lemma DocumentedIff(rules: Rules, fmt: Formats, plan: Plan, files: map<FileKey, Bytes>, records: Records)
    requires files.Keys == plan.files.Keys
    requires forall k :: k in files ==> plan.files[k] == (Sha256(files[k]), |files[k]|)
    requires RecordsFile in files && fmt.readRecords(files[RecordsFile]) == Some(records)
    ensures Documentable(rules, fmt, plan, files) <==> RecordsAre(rules, fmt, plan, files, records)
  {
    RecordsAcceptedIff(rules, fmt, records, files);
    if HistoryIs(rules, fmt, records, files) {
      LastRevision(rules, fmt, records, files);
      PlanNames(fmt, files, records.snapshots[|records.snapshots| - 1], plan);
      DocumentedByPlan(rules, fmt, plan, files, records);
    }
  }

  lemma AcceptedReadsAs(rules: Rules, fmt: Formats, incomplete: bool, plan: Plan, disk: map<FileKey, Bytes>,
                        files: map<FileKey, Bytes>, states: seq<State>) returns (records: Records)
    requires Accepted(rules, fmt, incomplete, plan, disk, files, states)
    ensures records.snapshots == states && ReadsAs(rules, fmt, incomplete, plan, disk, files, records)
  {
    RowsReadIff(plan, disk, files);
    records := fmt.readRecords(files[RecordsFile]).value;
    DocumentedIff(rules, fmt, plan, files, records);
  }

  lemma ReadsAsAccepted(rules: Rules, fmt: Formats, incomplete: bool, plan: Plan, disk: map<FileKey, Bytes>,
                        files: map<FileKey, Bytes>, records: Records)
    requires ReadsAs(rules, fmt, incomplete, plan, disk, files, records)
    ensures Accepted(rules, fmt, incomplete, plan, disk, files, records.snapshots)
  {
    RowsReadIff(plan, disk, files);
    DocumentedIff(rules, fmt, plan, files, records);
  }

  // A reader accepts a directory with these files and this history if and only if it is complete,
  // every row of the plan is in the layout and names the bytes on disk, the records are canonical,
  // the history is sound for exactly these files, and the plan names its last state.
  lemma AcceptedIff(rules: Rules, fmt: Formats, incomplete: bool, plan: Plan, disk: map<FileKey, Bytes>,
                    files: map<FileKey, Bytes>, states: seq<State>)
    ensures Accepted(rules, fmt, incomplete, plan, disk, files, states) <==>
            exists records: Records :: records.snapshots == states
              && ReadsAs(rules, fmt, incomplete, plan, disk, files, records)
  {
    if Accepted(rules, fmt, incomplete, plan, disk, files, states) {
      var records := AcceptedReadsAs(rules, fmt, incomplete, plan, disk, files, states);
    }
    if records: Records :| records.snapshots == states && ReadsAs(rules, fmt, incomplete, plan, disk, files, records) {
      ReadsAsAccepted(rules, fmt, incomplete, plan, disk, files, records);
    }
  }

  // ---- Exporting ----------------------------------------------------------------------

  // The bytes of a file of the export: the records, a blob of the session, or a file of a run.
  ghost predicate IsOwn(fmt: Formats, s: Store, disk: map<FileKey, Bytes>, k: FileKey, data: Bytes) {
    match k
    case RecordsFile => data == fmt.records(RecordsOf(s))
    case BlobFile(d) => d in s.blobs && data == s.blobs[d]
    case RunFile(_, _) => k in disk && data == disk[k]
  }

  ghost predicate IsMaterial(fmt: Formats, s: Store, disk: map<FileKey, Bytes>, files: map<FileKey, Bytes>) {
    forall k :: k in files ==> IsOwn(fmt, s, disk, k, files[k])
  }

  // Every referenced blob decodes, and the retained run is on disk within the size bound.
  ghost predicate IsAtHand(rules: Rules, fmt: Formats, s: Store, state: State, disk: map<FileKey, Bytes>) {
    && (forall p :: p in state.files ==> IsBlob(rules, fmt, s, p, state.files[p]))
    && (forall p :: p in state.imports ==> IsBlob(rules, fmt, s, p, state.imports[p].digest))
    && (state.simulation.Some? ==>
          && OperationId(state.simulation.value.runId)
          && forall name :: name in RUN_FILES ==>
               && RunFile(state.simulation.value.runId, name) in disk
               && |disk[RunFile(state.simulation.value.runId, name)]| <= MAX_FILE_BYTES)
  }

  predicate IsBlob(rules: Rules, fmt: Formats, s: Store, path: string, digest: Digest) {
    && rules.path(path) && digest in s.blobs && s.blobs[digest] == digest.data
    && |digest.data| <= MAX_ARTIFACT_BYTES && fmt.utf8(digest.data)
  }

  function Sum(sizes: seq<nat>): nat {
    if |sizes| == 0 then 0 else sizes[0] + Sum(sizes[1..])
  }

  lemma {:induction false} SumGrows(sizes: seq<nat>, last: nat)
    ensures Sum(sizes + [last]) == Sum(sizes) + last
  {
    if |sizes| > 0 {
      assert (sizes + [last])[1..] == sizes[1..] + [last];
      SumGrows(sizes[1..], last);
    }
  }

  function SizesOf<T>(size: T -> nat, rows: seq<T>): (sizes: seq<nat>)
    ensures |sizes| == |rows| && forall k :: 0 <= k < |rows| ==> sizes[k] == size(rows[k])
  {
    seq(|rows|, k requires 0 <= k < |rows| => size(rows[k]))
  }

  lemma {:induction false} WeightIsSum<T>(size: T -> nat, rows: seq<T>)
    ensures Weight(size, rows) == Sum(SizesOf(size, rows))
  {
    if |rows| > 0 {
      var n := |rows| - 1;
      WeightIsSum(size, rows[..n]);
      assert SizesOf(size, rows) == SizesOf(size, rows[..n]) + [size(rows[n])];
      SumGrows(SizesOf(size, rows[..n]), size(rows[n]));
    }
  }

  // A session's history fits the bounds exactly if these sums do and every snapshot does.
  lemma HistoryFitsIff(fmt: Formats, records: Records)
    ensures HistoryFits(fmt, records.snapshots, records.events) <==>
      && 1 <= |records.snapshots| <= MAX_HISTORY && |records.events| < MAX_HISTORY
      && Sum(SizesOf(fmt.stateSize, records.snapshots)) <= MAX_SNAPSHOTS_BYTES
      && Sum(SizesOf(fmt.eventSize, records.events)) <= MAX_EVENTS_BYTES
      && forall k :: 0 <= k < |records.snapshots| ==> fmt.stateSize(records.snapshots[k]) <= MAX_SNAPSHOT_BYTES
  {
    WeightIsSum(fmt.stateSize, records.snapshots);
    WeightIsSum(fmt.eventSize, records.events);
  }

  // A session that exports these files.
  ghost predicate ExportsAs(rules: Rules, fmt: Formats, s: Store, disk: map<FileKey, Bytes>,
                            files: map<FileKey, Bytes>) {
    var records := RecordsOf(s);
    && (forall k :: 0 <= k < |ByKey(s.snapshots)| ==> ByKey(s.snapshots)[k].0 == k)
    && Sum(SizesOf(fmt.stateSize, records.snapshots)) <= MAX_SNAPSHOTS_BYTES
    && Sum(SizesOf(fmt.eventSize, records.events)) <= MAX_EVENTS_BYTES
    && (forall k :: 0 <= k < |records.snapshots| ==> IsAtHand(rules, fmt, s, records.snapshots[k], disk))
    && HistoryIs(rules, fmt, records, files) && WithinBounds(fmt, files) && IsMaterial(fmt, s, disk, files)
  }

  lemma AtHandIff(rules: Rules, fmt: Formats, s: Store, state: State, disk: map<FileKey, Bytes>)
    ensures Obtainable(rules, fmt, s.blobs, state, disk) <==> IsAtHand(rules, fmt, s, state, disk)
  {
    var digests := ImportDigests(state);
    assert digests.Keys == state.imports.Keys;
    assert forall p :: p in state.imports ==> digests[p] == state.imports[p].digest;
    assert AllReadable(rules, fmt, s.blobs, digests) <==>
           forall p :: p in state.imports ==> Readable(rules, fmt, s.blobs, p, state.imports[p].digest) by {
      if AllReadable(rules, fmt, s.blobs, digests) {
        forall p | p in state.imports
          ensures Readable(rules, fmt, s.blobs, p, state.imports[p].digest)
        {
          assert p in digests;
        }
      }
    }
    BlobsIff(rules, fmt, s);
  }

  lemma BlobsIff(rules: Rules, fmt: Formats, s: Store)
    ensures forall p, d :: Readable(rules, fmt, s.blobs, p, d) <==> IsBlob(rules, fmt, s, p, d)
  {
  }

  lemma {:induction false} AllAtHandIff(rules: Rules, fmt: Formats, s: Store, states: seq<State>, n: nat,
                                        disk: map<FileKey, Bytes>)
    requires n <= |states|
    ensures AllObtainable(rules, fmt, s.blobs, states, n, disk) <==>
            forall k :: 0 <= k < n ==> IsAtHand(rules, fmt, s, states[k], disk)
  {
    if n > 0 {
      AllAtHandIff(rules, fmt, s, states, n - 1, disk);
      AtHandIff(rules, fmt, s, states[n - 1], disk);
    }
  }

  lemma RunIsOnDisk(rules: Rules, fmt: Formats, s: Store, disk: map<FileKey, Bytes>, files: map<FileKey, Bytes>,
                    k: FileKey)
    requires k.RunFile? && k in files && HistoryIs(rules, fmt, RecordsOf(s), files)
    requires forall j :: 0 <= j < |RecordsOf(s).snapshots| ==> IsAtHand(rules, fmt, s, RecordsOf(s).snapshots[j], disk)
    ensures k in disk
  {
    var states := RecordsOf(s).snapshots;
    var j :| 0 <= j < |states| && CallsFor(states[j], k);
    assert IsAtHand(rules, fmt, s, states[j], disk) && SnapshotIs(rules, fmt, j, states[j], files);
    assert k.name in RUN_FILES;
  }

  lemma MaterialIs(rules: Rules, fmt: Formats, s: Store, disk: map<FileKey, Bytes>, k: FileKey)
    requires Exportable(rules, fmt, s, disk) && k in MaterialOf(fmt, s, disk)
    requires k.RunFile? ==> k in disk
    ensures IsOwn(fmt, s, disk, k, MaterialOf(fmt, s, disk)[k])
  {
    var files := MaterialOf(fmt, s, disk);
    if k.BlobFile? {
      assert k.digest in BlobTable(files) && BlobTable(files)[k.digest] == files[k];
      MaterialBlob(rules, fmt, s, disk, k.digest);
    }
  }

  lemma MaterialIsHistory(rules: Rules, fmt: Formats, s: Store, disk: map<FileKey, Bytes>)
    requires Exportable(rules, fmt, s, disk)
    ensures HistoryIs(rules, fmt, RecordsOf(s), MaterialOf(fmt, s, disk))
  {
    var records, files := RecordsOf(s), MaterialOf(fmt, s, disk);
    CollectedIsExpected(rules, fmt, records.snapshots, |records.snapshots|, files);
    RecordsAcceptedIff(rules, fmt, records, files);
  }

  lemma AllIsAtHand(rules: Rules, fmt: Formats, s: Store, disk: map<FileKey, Bytes>)
    requires Exportable(rules, fmt, s, disk)
    ensures forall k :: 0 <= k < |RecordsOf(s).snapshots| ==> IsAtHand(rules, fmt, s, RecordsOf(s).snapshots[k], disk)
  {
    AllAtHandIff(rules, fmt, s, RecordsOf(s).snapshots, |RecordsOf(s).snapshots|, disk);
  }

  lemma MaterialIsOwn(rules: Rules, fmt: Formats, s: Store, disk: map<FileKey, Bytes>)
    requires Exportable(rules, fmt, s, disk)
    ensures IsMaterial(fmt, s, disk, MaterialOf(fmt, s, disk))
  {
    var files := MaterialOf(fmt, s, disk);
    MaterialIsHistory(rules, fmt, s, disk);
    AllIsAtHand(rules, fmt, s, disk);
    forall k | k in files
      ensures IsOwn(fmt, s, disk, k, files[k])
    {
      if k.RunFile? {
        RunIsOnDisk(rules, fmt, s, disk, files, k);
      }
      MaterialIs(rules, fmt, s, disk, k);
    }
  }

  lemma ExportableExportsAs(rules: Rules, fmt: Formats, s: Store, disk: map<FileKey, Bytes>)
    requires Exportable(rules, fmt, s, disk)
    ensures ExportsAs(rules, fmt, s, disk, MaterialOf(fmt, s, disk))
  {
    HistoryFitsIff(fmt, RecordsOf(s));
    BoundsIff(fmt, MaterialOf(fmt, s, disk));
    MaterialIsHistory(rules, fmt, s, disk);
    AllIsAtHand(rules, fmt, s, disk);
    MaterialIsOwn(rules, fmt, s, disk);
  }

  lemma MaterialIsGathered(fmt: Formats, s: Store, disk: map<FileKey, Bytes>, files: map<FileKey, Bytes>)
    requires IsMaterial(fmt, s, disk, files)
    requires var states := RecordsOf(s).snapshots; files.Keys == Copied(states, |states|)
    ensures files == MaterialOf(fmt, s, disk)
  {
    var material := MaterialOf(fmt, s, disk);
    assert material.Keys == files.Keys;
    forall k | k in files
      ensures files[k] == material[k]
    {
      assert IsOwn(fmt, s, disk, k, files[k]);
    }
  }

  lemma SnapshotsFit(rules: Rules, fmt: Formats, records: Records, files: map<FileKey, Bytes>)
    requires HistoryIs(rules, fmt, records, files)
    ensures 1 <= |records.snapshots| <= MAX_HISTORY && |records.events| < MAX_HISTORY
    ensures forall k :: 0 <= k < |records.snapshots| ==> fmt.stateSize(records.snapshots[k]) <= MAX_SNAPSHOT_BYTES
  {
    forall k | 0 <= k < |records.snapshots|
      ensures fmt.stateSize(records.snapshots[k]) <= MAX_SNAPSHOT_BYTES
    {
      assert SnapshotIs(rules, fmt, k, records.snapshots[k], files);
    }
  }

  lemma ExportsAsExportable(rules: Rules, fmt: Formats, s: Store, disk: map<FileKey, Bytes>, files: map<FileKey, Bytes>)
    requires ExportsAs(rules, fmt, s, disk, files)
    ensures Exportable(rules, fmt, s, disk) && files == MaterialOf(fmt, s, disk)
  {
    var records := RecordsOf(s);
    RecordsAcceptedIff(rules, fmt, records, files);
    CollectedIsExpected(rules, fmt, records.snapshots, |records.snapshots|, files);
    AllAtHandIff(rules, fmt, s, records.snapshots, |records.snapshots|, disk);
    MaterialIsGathered(fmt, s, disk, files);
    BoundsIff(fmt, files);
    SnapshotsFit(rules, fmt, records, files);
    HistoryFitsIff(fmt, records);
  }

  // A session exports these files if and only if its rows are gap-free and within the bounds, every
  // blob and every run is at hand, and the history is sound for exactly these files, each of which is
  // the session's own.
  lemma ExportableIff(rules: Rules, fmt: Formats, s: Store, disk: map<FileKey, Bytes>, files: map<FileKey, Bytes>)
    ensures ExportsAs(rules, fmt, s, disk, files) <==>
            Exportable(rules, fmt, s, disk) && files == MaterialOf(fmt, s, disk)
  {
    if ExportsAs(rules, fmt, s, disk, files) {
      ExportsAsExportable(rules, fmt, s, disk, files);
    }
    if Exportable(rules, fmt, s, disk) {
      ExportableExportsAs(rules, fmt, s, disk);
    }
  }
}
