// The session store: an append-only history of snapshots and events with content-addressed
// blobs, changed only by transactions that compare against the snapshot the writer last read.
module SessionStore {
  import opened Outcomes
  import opened Blobs

  const MAX_ARTIFACT_BYTES := 256 * 1024

  datatype Schema = Legacy | Older | Current

  datatype ImportRow = ImportRow(digest: Digest, source: string, bytes: nat, plan: Digest)

  // The files a run keeps: intent.json, control/run.py, evidence/report.json, and the evidence
  // files results.xml, model-results.json, waves.vcd, runner.log and toolchain.json.
  datatype RunName =
    | Intent | Runner | ReportJson | Results | ModelResults | Waves | RunnerLog | Toolchain | Other(name: string)

  // Paths of the portable layout: records.json, blobs/<digest>.txt and runs/<run>/<name>.
  datatype FileKey = RecordsFile | BlobFile(digest: Digest) | RunFile(run: string, name: RunName)

  // A digest-bound evidence file of a run.
  datatype Artifact = Artifact(path: FileKey, digest: Digest, bytes: nat)

  // The report a retained simulation binds; `rest` stands for fields no operation here looks at.
  datatype Report = Report(
    runtimeBound: bool, runId: string, input: Digest, profile: Digest, runner: Digest,
    artifacts: map<RunName, Artifact>, passed: bool, rest: Digest)

  // A snapshot. `rest` stands for the engineering fields no operation here looks at.
  datatype State = State(
    schema: Schema, revision: nat, active: Option<string>, approvedSpec: Digest, manifest: Digest,
    files: map<string, Digest>, imports: map<string, ImportRow>,
    simulation: Option<Report>, rest: Digest)

  datatype Event = Event(sequence: nat, name: string, fields: Digest)

  // The two tables, in insertion order, and the blobs.
  datatype Store = Store(snapshots: seq<(nat, State)>, events: seq<(nat, Event)>, blobs: map<Digest, Bytes>)

  // Bytes a writer supplies; an import also names the digest it was reviewed under.
  datatype Item = Item(path: string, content: Bytes, reviewed: Option<(Digest, string, Digest)>)

  // Validation rules of the domain, which the store only calls.
  datatype Rules = Rules(
    valid: State -> bool,               // validate_state
    path: string -> bool,               // source_path
    text: Bytes -> bool,                // text
    event: (string, Digest) -> bool,    // event code and bounded fields
    upgraded: (Schema, Digest) -> Digest)  // the fields a schema upgrade adds

  datatype Update = Update(previous: State, updated: State, event: string, fields: Digest, items: seq<Item>)

  // ---- Reading ------------------------------------------------------------------------

  // The row with the greatest revision.
  function LatestRow(rows: seq<(nat, State)>): (nat, State)
    requires rows != []
  {
    var last := rows[|rows| - 1];
    if |rows| == 1 then last else
    var other := LatestRow(rows[..|rows| - 1]);
    if other.0 > last.0 then other else last
  }

  function Read(rules: Rules, s: Store): Result<State> {
    if s.snapshots == [] then Err("session_snapshot_missing") else
    var state := LatestRow(s.snapshots).1;
    if rules.valid(state) then Ok(state) else Err("session_state_invalid")
  }

  predicate HasRow<T>(rows: seq<(nat, T)>, key: nat) {
    exists k :: 0 <= k < |rows| && rows[k].0 == key
  }

  // ---- One item of an update ----------------------------------------------------------

  function AddItem(rules: Rules, blobs: map<Digest, Bytes>, current: State,
                   item: Item): Result<(map<Digest, Bytes>, State)> {
    var digest := Sha256(item.content);
    if !rules.path(item.path) then Err("source_path_invalid")
    else if !rules.text(item.content) then Err("text_invalid")
    else if |item.content| > MAX_ARTIFACT_BYTES then Err("artifact_too_large")
    else if digest in blobs && blobs[digest] != item.content then Err("artifact_digest_collision")
    else
      var grown := if digest in blobs then blobs else blobs[digest := item.content];
      if item.reviewed.None? then Ok((grown, current.(files := current.files[item.path := digest])))
      else if item.reviewed.value.0 != digest || item.path in current.imports
        then Err("import_binding_or_collision_invalid")
      else
        var row := ImportRow(digest, item.reviewed.value.1, |item.content|, item.reviewed.value.2);
        Ok((grown, current.(imports := current.imports[item.path := row])))
  }

  function AddItems(rules: Rules, blobs: map<Digest, Bytes>, current: State,
                    items: seq<Item>): Result<(map<Digest, Bytes>, State)> {
    if items == [] then Ok((blobs, current)) else
    var before := AddItems(rules, blobs, current, items[..|items| - 1]);
    if before.Err? then before else AddItem(rules, before.value.0, before.value.1, items[|items| - 1])
  }

  // ---- One transaction ----------------------------------------------------------------

  function Save(rules: Rules, s: Store, u: Update): Result<(Store, State)> {
    if !rules.event(u.event, u.fields) then Err("event_invalid")
    else if Read(rules, s) != Ok(u.previous) then Err("session_concurrent_change")
    else
      var added := AddItems(rules, s.blobs, u.updated, u.items);
      if added.Err? then Err(added.code) else
      var revision := u.previous.revision + 1;
      var current := added.value.1.(revision := revision);
      if !rules.valid(current) then Err("session_state_invalid")
      else if HasRow(s.snapshots, revision) || HasRow(s.events, revision) then Err("UNIQUE constraint failed")
      else Ok((Store(s.snapshots + [(revision, current)],
                     s.events + [(revision, Event(revision, u.event, u.fields))], added.value.0), current))
  }

  // An explicit upgrade appends a snapshot of the current schema; a current session is left alone.
  function UpgradeOf(rules: Rules, state: State, fields: Digest): Update {
    Update(state, state.(schema := Current, rest := rules.upgraded(state.schema, state.rest)), "session.upgraded",
           fields, [])
  }

  datatype Call = Saving(update: Update) | Upgrading(fields: Digest)

  // What a call leaves behind: a failing transaction rolls back.
  function Perform(rules: Rules, s: Store, c: Call): Store {
    match c
    case Saving(u) => (var r := Save(rules, s, u); if r.Ok? then r.value.0 else s)
    case Upgrading(fields) =>
      var state := Read(rules, s);
      if state.Err? || state.value.schema == Current then s
      else (var r := Save(rules, s, UpgradeOf(rules, state.value, fields)); if r.Ok? then r.value.0 else s)
  }

  function PerformAll(rules: Rules, s: Store, calls: seq<Call>): Store {
    if calls == [] then s
    else Perform(rules, PerformAll(rules, s, calls[..|calls| - 1]), calls[|calls| - 1])
  }

  function Created(initial: State): Store {
    Store([(0, initial)], [], map[])
  }

  // ---- The history invariant ----------------------------------------------------------

  // Revisions run 0, 1, 2, ... in insertion order; event k belongs to snapshot k for k >= 1.
  ghost predicate Contiguous(s: Store) {
    && |s.snapshots| >= 1 && |s.events| == |s.snapshots| - 1
    && (forall k :: 0 <= k < |s.snapshots| ==> s.snapshots[k].0 == k && s.snapshots[k].1.revision == k)
    && (forall k :: 0 <= k < |s.events| ==> s.events[k].0 == k + 1 && s.events[k].1.sequence == k + 1)
  }

  // Blobs are filed under their own digest.
  ghost predicate Addressed(blobs: map<Digest, Bytes>) {
    forall d :: d in blobs ==> Sha256(blobs[d]) == d
  }

  lemma {:induction false} LatestIsLast(rows: seq<(nat, State)>)
    requires rows != [] && forall k :: 0 <= k < |rows| ==> rows[k].0 == k
    ensures LatestRow(rows) == rows[|rows| - 1]
  {
    if |rows| > 1 {
      LatestIsLast(rows[..|rows| - 1]);
    }
  }

  lemma {:induction false} ItemsKeepBlobs(rules: Rules, blobs: map<Digest, Bytes>, current: State, items: seq<Item>)
    requires AddItems(rules, blobs, current, items).Ok?
    ensures var (grown, after) := AddItems(rules, blobs, current, items).value;
            && (Addressed(blobs) ==> Addressed(grown))
            && (forall d :: d in blobs ==> d in grown && grown[d] == blobs[d])
            && after.revision == current.revision && after.active == current.active && after.schema == current.schema
            && after.simulation == current.simulation && after.rest == current.rest
            && after.approvedSpec == current.approvedSpec && after.manifest == current.manifest
  {
    if items != [] {
      ItemsKeepBlobs(rules, blobs, current, items[..|items| - 1]);
    }
  }

  // What one call may do to the history: nothing, or append one snapshot and one event, keeping
  // every earlier row and blob.
  ghost predicate Appends(s: Store, n: Store) {
    && (forall d :: d in s.blobs ==> d in n.blobs && n.blobs[d] == s.blobs[d])
    && (n == s || (|n.snapshots| == |s.snapshots| + 1 && s.snapshots <= n.snapshots && s.events <= n.events))
  }

  lemma SaveAppends(rules: Rules, s: Store, u: Update)
    requires Contiguous(s) && Addressed(s.blobs) && Save(rules, s, u).Ok?
    ensures var n := Save(rules, s, u).value.0;
            && Contiguous(n) && Addressed(n.blobs) && Appends(s, n)
            && u.previous == s.snapshots[|s.snapshots| - 1].1
  {
    LatestIsLast(s.snapshots);
    ItemsKeepBlobs(rules, s.blobs, u.updated, u.items);
  }

  // Nothing but a stale writer, a refused item or an invalid result stops a save: with a contiguous
  // history the insertions never collide.
  lemma NoCollision(rules: Rules, s: Store, u: Update)
    requires Contiguous(s) && Read(rules, s) == Ok(u.previous)
    ensures !HasRow(s.snapshots, u.previous.revision + 1) && !HasRow(s.events, u.previous.revision + 1)
  {
    LatestIsLast(s.snapshots);
  }

  lemma PerformKeeps(rules: Rules, s: Store, c: Call)
    requires Contiguous(s) && Addressed(s.blobs)
    ensures var n := Perform(rules, s, c); Contiguous(n) && Addressed(n.blobs) && Appends(s, n)
  {
    match c
    case Saving(u) =>
      if Save(rules, s, u).Ok? {
        SaveAppends(rules, s, u);
      }
    case Upgrading(fields) =>
      if Read(rules, s).Ok? {
        var u := UpgradeOf(rules, Read(rules, s).value, fields);
        if Save(rules, s, u).Ok? {
          SaveAppends(rules, s, u);
        }
      }
  }

  // After any sequence of successful and failing calls the history is contiguous, pairs event k
  // with snapshot k, files every blob under its digest, and extends every earlier history.
  lemma {:induction false} HistoryInvariant(rules: Rules, initial: State, calls: seq<Call>, n: nat)
    requires initial.revision == 0 && n <= |calls|
    ensures var earlier, later :=
            PerformAll(rules, Created(initial), calls[..n]), PerformAll(rules, Created(initial), calls);
            && Contiguous(later) && Addressed(later.blobs)
            && earlier.snapshots <= later.snapshots && earlier.events <= later.events
            && (forall d :: d in earlier.blobs ==> d in later.blobs && later.blobs[d] == earlier.blobs[d])
    decreases |calls|
  {
    if calls == [] {
      assert calls[..n] == calls;
    } else {
      var prefix := calls[..|calls| - 1];
      if n == |calls| {
        assert calls[..n] == calls;
        HistoryInvariant(rules, initial, prefix, 0);
        PerformKeeps(rules, PerformAll(rules, Created(initial), prefix), calls[|calls| - 1]);
      } else {
        assert prefix[..n] == calls[..n];
        HistoryInvariant(rules, initial, prefix, n);
        PerformKeeps(rules, PerformAll(rules, Created(initial), prefix), calls[|calls| - 1]);
      }
    }
  }

  // No lost update: of two writers that read the same snapshot, the second one fails and changes
  // nothing, whatever happened in between, once the first succeeded.
  lemma NoLostUpdate(rules: Rules, s: Store, first: Update, between: seq<Call>, second: Update)
    requires Contiguous(s) && Addressed(s.blobs) && Save(rules, s, first).Ok? && second.previous == first.previous
    ensures var n := PerformAll(rules, Save(rules, s, first).value.0, between);
            Save(rules, n, second).Err? && Perform(rules, n, Saving(second)) == n
  {
    SaveAppends(rules, s, first);
    var n := Save(rules, s, first).value.0;
    OnlyLater(rules, n, between);
    var m := PerformAll(rules, n, between);
    LatestIsLast(m.snapshots);
    assert |m.snapshots| > |s.snapshots|;
    assert s.snapshots[|s.snapshots| - 1].1.revision == |s.snapshots| - 1;
  }

  lemma {:induction false} OnlyLater(rules: Rules, s: Store, calls: seq<Call>)
    requires Contiguous(s) && Addressed(s.blobs)
    ensures var n := PerformAll(rules, s, calls);
            Contiguous(n) && Addressed(n.blobs) && |n.snapshots| >= |s.snapshots| && s.snapshots <= n.snapshots
  {
    if calls != [] {
      OnlyLater(rules, s, calls[..|calls| - 1]);
      PerformKeeps(rules, PerformAll(rules, s, calls[..|calls| - 1]), calls[|calls| - 1]);
    }
  }

  // ---- What a second read sees --------------------------------------------------------

  // A call that writes; every other one leaves the tables alone.
  predicate Commits(rules: Rules, s: Store, c: Call) {
    match c
    case Saving(u) => Save(rules, s, u).Ok?
    case Upgrading(fields) =>
      var state := Read(rules, s);
      state.Ok? && state.value.schema != Current && Save(rules, s, UpgradeOf(rules, state.value, fields)).Ok?
  }

  predicate NoneCommits(rules: Rules, s: Store, calls: seq<Call>) {
    |calls| == 0 ||
    (NoneCommits(rules, s, calls[..|calls| - 1]) &&
     !Commits(rules, PerformAll(rules, s, calls[..|calls| - 1]), calls[|calls| - 1]))
  }

  // The latest row is filed under its own revision.
  ghost predicate Leading(s: Store) {
    |s.snapshots| > 0 && LatestRow(s.snapshots).0 == LatestRow(s.snapshots).1.revision
  }

  function LatestRevision(s: Store): nat
    requires |s.snapshots| > 0
  {
    LatestRow(s.snapshots).1.revision
  }

  lemma SaveLeads(rules: Rules, s: Store, u: Update)
    requires Leading(s) && Save(rules, s, u).Ok?
    ensures var n := Save(rules, s, u).value.0; Leading(n) && LatestRevision(n) > LatestRevision(s)
  {
    var n := Save(rules, s, u).value.0;
    assert n.snapshots[..|n.snapshots| - 1] == s.snapshots;
  }

  lemma CommitLeads(rules: Rules, s: Store, c: Call)
    requires Leading(s)
    ensures var n := Perform(rules, s, c);
            Leading(n) && (if Commits(rules, s, c) then LatestRevision(n) > LatestRevision(s) else n == s)
  {
    if Commits(rules, s, c) {
      SaveLeads(rules, s, if c.Saving? then c.update else UpgradeOf(rules, Read(rules, s).value, c.fields));
    }
  }

  // A later read gives the snapshot read before if and only if no call in between wrote.
  lemma {:induction false} RereadIffUntouched(rules: Rules, s: Store, calls: seq<Call>)
    requires Leading(s) && Read(rules, s).Ok?
    ensures var n := PerformAll(rules, s, calls);
            && Leading(n) && LatestRevision(n) >= LatestRevision(s)
            && (NoneCommits(rules, s, calls) ==> n == s)
            && (!NoneCommits(rules, s, calls) ==> LatestRevision(n) > LatestRevision(s))
            && (Read(rules, n) == Read(rules, s) <==> NoneCommits(rules, s, calls))
  {
    if |calls| > 0 {
      RereadIffUntouched(rules, s, calls[..|calls| - 1]);
      CommitLeads(rules, PerformAll(rules, s, calls[..|calls| - 1]), calls[|calls| - 1]);
    }
  }

  // ---- Digests that resolve -----------------------------------------------------------

  predicate Resolves(blobs: map<Digest, Bytes>, d: Digest) {
    d in blobs && Sha256(blobs[d]) == d
  }

  ghost predicate StateResolves(blobs: map<Digest, Bytes>, state: State) {
    && (forall p :: p in state.files ==> Resolves(blobs, state.files[p]))
    && (forall p :: p in state.imports ==> Resolves(blobs, state.imports[p].digest))
  }

  ghost predicate HistoryResolves(s: Store) {
    forall k :: 0 <= k < |s.snapshots| ==> StateResolves(s.blobs, s.snapshots[k].1)
  }

  // The update supplies bytes for this source path.
  predicate Supplied(items: seq<Item>, path: string) {
    exists k :: 0 <= k < |items| && items[k].path == path && items[k].reviewed.None?
  }

  // The digests an update carries over instead of supplying all resolve already.
  ghost predicate CarriesOver(s: Store, u: Update) {
    && (forall p :: p in u.updated.files && !Supplied(u.items, p) ==>
          Resolves(s.blobs, u.updated.files[p]) || SuppliesDigest(u.items, u.updated.files[p]))
    && (forall p :: p in u.updated.imports ==>
          Resolves(s.blobs, u.updated.imports[p].digest) || SuppliesDigest(u.items, u.updated.imports[p].digest))
  }

  predicate SuppliesDigest(items: seq<Item>, d: Digest) {
    exists k :: 0 <= k < |items| && Sha256(items[k].content) == d
  }

  // Which blobs exist after the items are inserted, and where each file digest comes from.
  ghost predicate Accounted(blobs: map<Digest, Bytes>, current: State, items: seq<Item>, grown: map<Digest, Bytes>,
                            after: State) {
    && BlobsAccounted(blobs, items, grown)
    && FilesAccounted(current.files, items, after.files)
    && ImportsAccounted(current.imports, items, after.imports)
  }

  ghost predicate BlobsAccounted(blobs: map<Digest, Bytes>, items: seq<Item>, grown: map<Digest, Bytes>) {
    forall d :: d in grown <==> d in blobs || SuppliesDigest(items, d)
  }

  ghost predicate FilesAccounted(files: map<string, Digest>, items: seq<Item>, after: map<string, Digest>) {
    && (forall p :: p in after <==> p in files || Supplied(items, p))
    && (forall p :: p in after && Supplied(items, p) ==> SuppliesDigest(items, after[p]))
    && (forall p :: p in after && !Supplied(items, p) ==> after[p] == files[p])
  }

  ghost predicate ImportsAccounted(imports: map<string, ImportRow>, items: seq<Item>, after: map<string, ImportRow>) {
    && (forall p :: p in imports ==> p in after && after[p] == imports[p])
    && (forall p :: p in after && p !in imports ==> SuppliesDigest(items, after[p].digest))
  }

  // One more item supplies its digest, and its path unless it is an import.
  lemma OneMoreSupplied(items: seq<Item>, last: Item)
    ensures forall d :: SuppliesDigest(items + [last], d) <==> SuppliesDigest(items, d) || Sha256(last.content) == d
    ensures forall p :: Supplied(items + [last], p) <==> Supplied(items, p) || (last.path == p && last.reviewed.None?)
  {
    forall d
      ensures SuppliesDigest(items + [last], d) <==> SuppliesDigest(items, d) || Sha256(last.content) == d
    {
      SuppliesGrows(items, last, d);
    }
    forall p
      ensures Supplied(items + [last], p) <==> Supplied(items, p) || (last.path == p && last.reviewed.None?)
    {
      SuppliedGrows(items, last, p);
    }
  }

  lemma OneMoreItem(rules: Rules, blobs: map<Digest, Bytes>, current: State, items: seq<Item>, last: Item,
                    grown: map<Digest, Bytes>, after: State)
    requires Accounted(blobs, current, items, grown, after) && AddItem(rules, grown, after, last).Ok?
    ensures var (more, next) := AddItem(rules, grown, after, last).value;
            Accounted(blobs, current, items + [last], more, next)
  {
    var (more, next) := AddItem(rules, grown, after, last).value;
    OneMoreFile(current.files, items, last, after.files, next.files);
    OneMoreImport(current.imports, items, last, after.imports, next.imports);
    OneMoreBlob(blobs, items, last, grown, more);
  }

  lemma OneMoreBlob(blobs: map<Digest, Bytes>, items: seq<Item>, last: Item, grown: map<Digest, Bytes>,
                    more: map<Digest, Bytes>)
    requires BlobsAccounted(blobs, items, grown) && more.Keys == grown.Keys + {Sha256(last.content)}
    ensures BlobsAccounted(blobs, items + [last], more)
  {
    OneMoreSupplied(items, last);
  }

  lemma OneMoreFile(files: map<string, Digest>, items: seq<Item>, last: Item, after: map<string, Digest>,
                    next: map<string, Digest>)
    requires FilesAccounted(files, items, after)
    requires next == if last.reviewed.None? then after[last.path := Sha256(last.content)] else after
    ensures FilesAccounted(files, items + [last], next)
  {
    OneMoreSupplied(items, last);
  }

  lemma OneMoreImport(imports: map<string, ImportRow>, items: seq<Item>, last: Item, after: map<string, ImportRow>,
                      next: map<string, ImportRow>)
    requires ImportsAccounted(imports, items, after)
    requires last.path in next && last.path !in after ==> next[last.path].digest == Sha256(last.content)
    requires next == after || (last.path !in after && last.path in next && next == after[last.path := next[last.path]])
    ensures ImportsAccounted(imports, items + [last], next)
  {
    OneMoreSupplied(items, last);
  }

  lemma {:induction false} ItemsResolve(rules: Rules, blobs: map<Digest, Bytes>, current: State, items: seq<Item>)
    requires AddItems(rules, blobs, current, items).Ok?
    ensures var (grown, after) := AddItems(rules, blobs, current, items).value;
            Accounted(blobs, current, items, grown, after)
  {
    if |items| > 0 {
      var prefix, last := items[..|items| - 1], items[|items| - 1];
      ItemsResolve(rules, blobs, current, prefix);
      var (grown, after) := AddItems(rules, blobs, current, prefix).value;
      OneMoreItem(rules, blobs, current, prefix, last, grown, after);
      assert items == prefix + [last];
    }
  }

  lemma SuppliesGrows(items: seq<Item>, last: Item, d: Digest)
    ensures SuppliesDigest(items + [last], d) <==> SuppliesDigest(items, d) || Sha256(last.content) == d
  {
    var all := items + [last];
    if SuppliesDigest(items, d) {
      var k :| 0 <= k < |items| && Sha256(items[k].content) == d;
      assert all[k] == items[k];
    }
    assert all[|items|] == last;
    if SuppliesDigest(all, d) && Sha256(last.content) != d {
      var k :| 0 <= k < |all| && Sha256(all[k].content) == d;
      assert all[k] == items[k];
    }
  }

  lemma SuppliedGrows(items: seq<Item>, last: Item, path: string)
    ensures Supplied(items + [last], path) <==> Supplied(items, path) || (last.path == path && last.reviewed.None?)
  {
    var all := items + [last];
    if Supplied(items, path) {
      var k :| 0 <= k < |items| && items[k].path == path && items[k].reviewed.None?;
      assert all[k] == items[k];
    }
    assert all[|items|] == last;
    if Supplied(all, path) && !(last.path == path && last.reviewed.None?) {
      var k :| 0 <= k < |all| && all[k].path == path && all[k].reviewed.None?;
      assert all[k] == items[k];
    }
  }

  // The exact condition: a save keeps every digest of every snapshot resolvable if and only if
  // the update carries over nothing that does not resolve.
  lemma SaveResolvesIff(rules: Rules, s: Store, u: Update)
    requires Contiguous(s) && Addressed(s.blobs) && HistoryResolves(s) && Save(rules, s, u).Ok?
    ensures HistoryResolves(Save(rules, s, u).value.0) <==> CarriesOver(s, u)
  {
    var (n, current) := Save(rules, s, u).value;
    SaveAppends(rules, s, u);
    ItemsResolve(rules, s.blobs, u.updated, u.items);
    ItemsKeepBlobs(rules, s.blobs, u.updated, u.items);
    assert n.snapshots[|s.snapshots|].1 == current;
    forall k | 0 <= k < |s.snapshots|
      ensures StateResolves(n.blobs, n.snapshots[k].1)
    {
      assert n.snapshots[k] == s.snapshots[k];
      assert StateResolves(s.blobs, s.snapshots[k].1);
    }
    assert HistoryResolves(n) <==> StateResolves(n.blobs, current);
    CurrentResolvesIff(s, u, n.blobs, current);
  }

  lemma CurrentResolvesIff(s: Store, u: Update, grown: map<Digest, Bytes>, current: State)
    requires Addressed(s.blobs) && Addressed(grown)
    requires Accounted(s.blobs, u.updated, u.items, grown, current)
    ensures StateResolves(grown, current) <==> CarriesOver(s, u)
  {
  }

  // Whatever the rules, a save that is accepted and carries over one import whose bytes are in no
  // blob leaves a digest that resolves to nothing: the store checks the shape of a carried-over
  // digest, not its bytes.
  lemma UnbackedImportDangles(rules: Rules, s: Store, u: Update, path: string)
    requires Contiguous(s) && Addressed(s.blobs) && HistoryResolves(s) && Save(rules, s, u).Ok?
    requires u.items == [] && path in u.updated.imports && u.updated.imports[path].digest !in s.blobs
    ensures !CarriesOver(s, u) && !HistoryResolves(Save(rules, s, u).value.0)
  {
    assert !SuppliesDigest(u.items, u.updated.imports[path].digest);
    SaveResolvesIff(rules, s, u);
  }

  // Rules under which a session without an approved specification keeps no files.
  function DiscoveryRules(discovery: Digest): Rules {
    Rules((s: State) => s.rest == discovery ==> s.files == map[],
          _ => true, _ => true, (_, _) => true, (_, rest) => rest)
  }

  // Two saves of a new session, an approval and then a file nobody supplied, both succeed.
  lemma SaveCanDangle(initial: State, approved: Digest, name: string, missing: Digest)
    requires initial.revision == 0 && initial.files == map[] && initial.imports == map[] && approved != initial.rest
    ensures var rules := DiscoveryRules(initial.rest);
            var first := Update(initial, initial.(approvedSpec := approved, rest := approved), "spec.approved",
                                approved, []);
            var before := Save(rules, Created(initial), first);
            && before.Ok? && HistoryResolves(before.value.0)
            && var second :=
              Update(before.value.1, before.value.1.(files := map[name := missing]), "operation.completed", approved,
                     []);
            var after := Save(rules, before.value.0, second);
            && after.Ok? && !CarriesOver(before.value.0, second) && !HistoryResolves(after.value.0)
  {
    var rules := DiscoveryRules(initial.rest);
    var first := Update(initial, initial.(approvedSpec := approved, rest := approved), "spec.approved", approved, []);
    var (s, state) := Save(rules, Created(initial), first).value;
    assert s.snapshots == [(0, initial), (1, state)] && s.blobs == map[];
    assert s.snapshots[..1] == [(0, initial)];
    var second := Update(state, state.(files := map[name := missing]), "operation.completed", approved, []);
    assert name in second.updated.files && !Supplied(second.items, name) && !SuppliesDigest(second.items, missing);
    SaveResolvesIff(rules, s, second);
  }

  // Every save of the run that succeeds carries over only what resolves when it is made.
  ghost predicate Honest(rules: Rules, s: Store, calls: seq<Call>) {
    |calls| == 0 ||
    var prefix, last := calls[..|calls| - 1], calls[|calls| - 1];
    var before := PerformAll(rules, s, prefix);
    && Honest(rules, s, prefix)
    && (last.Saving? && Save(rules, before, last.update).Ok? ==> CarriesOver(before, last.update))
  }

  // Over every run of such calls, each snapshot's files and imports resolve to matching bytes;
  // upgrades and failing calls need no condition.
  lemma {:induction false} RunResolves(rules: Rules, s: Store, calls: seq<Call>)
    requires Contiguous(s) && Addressed(s.blobs) && HistoryResolves(s) && Honest(rules, s, calls)
    ensures HistoryResolves(PerformAll(rules, s, calls))
  {
    if |calls| > 0 {
      var prefix, last := calls[..|calls| - 1], calls[|calls| - 1];
      OnlyLater(rules, s, prefix);
      var before := PerformAll(rules, s, prefix);
      RunResolves(rules, s, prefix);
      if last.Saving? {
        if Save(rules, before, last.update).Ok? {
          SaveResolvesIff(rules, before, last.update);
        }
      } else {
        UpgradeResolves(rules, before, last.fields);
      }
    }
  }

  lemma UpgradeResolves(rules: Rules, s: Store, fields: Digest)
    requires Contiguous(s) && Addressed(s.blobs) && HistoryResolves(s)
    ensures HistoryResolves(Perform(rules, s, Upgrading(fields)))
  {
    var state := Read(rules, s);
    if state.Ok? {
      var u := UpgradeOf(rules, state.value, fields);
      if Save(rules, s, u).Ok? {
        LatestIsLast(s.snapshots);
        assert StateResolves(s.blobs, s.snapshots[|s.snapshots| - 1].1);
        SaveResolvesIff(rules, s, u);
      }
    }
  }

  // ---- The transaction, statement by statement ----------------------------------------

  // The operations this writer started and has not seen finish.
  function Owned(owned: set<string>, u: Update, current: State): set<string>
    requires u.event == "operation.started" ==> current.active.Some?
  {
    if u.event == "operation.started" then owned + {current.active.value}
    else if u.previous.active.Some? && current.active.None? then owned - {u.previous.active.value}
    else owned
  }

  class DesignSessionStore {
    const rules: Rules
    const exclusive: bool
    var store: Store
    var owned: set<string>

    constructor (rules: Rules, initial: State, exclusive: bool)
      ensures this.rules == rules && this.exclusive == exclusive && store == Created(initial) && owned == {}
    {
      this.rules, this.exclusive, store, owned := rules, exclusive, Created(initial), {};
    }

    // The loop over supplied files and imports, inside the transaction.
    method InsertItems(updated: State, items: seq<Item>) returns (r: Result<State>)
      modifies this`store
      ensures var added := AddItems(rules, old(store).blobs, updated, items);
              && (r.Ok? <==> added.Ok?)
              && (r.Ok? ==> r.value == added.value.1 && store == old(store).(blobs := added.value.0))
              && (r.Err? ==> added == Err(r.code))
    {
      var current := updated;
      ghost var before := store;
      for k := 0 to |items|
        invariant AddItems(rules, before.blobs, updated, items[..k]) == Ok((store.blobs, current))
        invariant store == before.(blobs := store.blobs)
      {
        assert items[..k + 1][..k] == items[..k];
        var added := AddItem(rules, store.blobs, current, items[k]);
        if added.Err? {
          FirstError(rules, before.blobs, updated, items, k);
          return Err(added.code);
        }
        store := store.(blobs := added.value.0);
        current := added.value.1;
      }
      assert items[..|items|] == items;
      return Ok(current);
    }

    // A started operation names itself: the source indexes the new snapshot's active operation.
    method SaveSnapshot(u: Update) returns (r: Result<State>)
      requires u.event == "operation.started" ==> u.updated.active.Some?
      modifies this`store, this`owned
      ensures !exclusive ==> r.Err? && store == old(store)
      ensures exclusive ==>
        var saved := Save(rules, old(store), u);
        && (r.Ok? <==> saved.Ok?)
        && (r.Ok? ==> r.value == saved.value.1 && store == saved.value.0)
        && (r.Err? ==> store == old(store))
      ensures r.Err? ==> owned == old(owned)
      ensures r.Ok? ==> r.value.active == u.updated.active && owned == Owned(old(owned), u, r.value)
    {
      if !rules.event(u.event, u.fields) {
        return Err("event_invalid");
      }
      if !exclusive {
        return Err("session_read_only");
      }
      var begun := store;   // BEGIN IMMEDIATE
      if Read(rules, store) != Ok(u.previous) {
        return Err("session_concurrent_change");
      }
      var inserted := InsertItems(u.updated, u.items);
      if inserted.Err? {
        store := begun;     // ROLLBACK
        return Err(inserted.code);
      }
      ItemsKeepBlobs(rules, begun.blobs, u.updated, u.items);
      var revision := u.previous.revision + 1;
      var current := inserted.value.(revision := revision);
      if !rules.valid(current) || HasRow(store.snapshots, revision) || HasRow(store.events, revision) {
        store := begun;     // ROLLBACK
        return Err("session_state_invalid");
      }
      store := store.(snapshots := store.snapshots + [(revision, current)],
                      events := store.events + [(revision, Event(revision, u.event, u.fields))]);
      if u.event == "operation.started" {
        owned := owned + {current.active.value};
      } else if u.previous.active.Some? && current.active.None? {
        owned := owned - {u.previous.active.value};
      }
      return Ok(current);
    }
  }

  lemma {:induction false} FirstError(rules: Rules, blobs: map<Digest, Bytes>, current: State, items: seq<Item>, k: nat)
    requires k < |items| && AddItems(rules, blobs, current, items[..k]).Ok?
    requires var before := AddItems(rules, blobs, current, items[..k]).value;
             AddItem(rules, before.0, before.1, items[k]).Err?
    ensures var before := AddItems(rules, blobs, current, items[..k]).value;
            AddItems(rules, blobs, current, items) == Err(AddItem(rules, before.0, before.1, items[k]).code)
    decreases |items|
  {
    if k == |items| - 1 {
      assert items[..k] == items[..|items| - 1];
    } else {
      var prefix := items[..|items| - 1];
      assert prefix[..k] == items[..k] && prefix[k] == items[k];
      FirstError(rules, blobs, current, prefix, k);
    }
  }
}
