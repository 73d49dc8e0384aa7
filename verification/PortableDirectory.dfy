// A portable directory on disk: what the export writer leaves behind, whenever it stops, is either
// refused by the reader or holds the whole export.
module PortableDirectory {
  import opened Outcomes
  import opened Blobs
  import opened SessionStore
  import opened Portable
  import opened PortableBackup
  import opened PortableRestore
  import Writer = ExportWriter

  // How the files of the layout are named and its manifest is written.
  datatype Layout = Layout(path: FileKey -> string, manifest: string, write: Plan -> Bytes, read: Bytes -> Option<Plan>)

  // The files of this plan have different paths, and its manifest reads back as what was written.
  ghost predicate Renders(layout: Layout, plan: Plan) {
    && (forall a, b :: a in plan.files && b in plan.files && a != b ==>
          Writer.Parts(layout.path(a)) != Writer.Parts(layout.path(b)))
    && layout.read(layout.write(plan)) == Some(plan)
  }

  // What writing a portable directory plans to write.
  ghost function WritePlan(layout: Layout, plan: Plan, files: map<FileKey, Bytes>): Writer.Plan
    requires Renders(layout, plan) && files.Keys <= plan.files.Keys
  {
    Writer.Plan(map k | k in files :: layout.path(k) := files[k], layout.manifest, layout.write(plan))
  }

  predicate HasFile(entries: map<Writer.Path, Writer.Node>, path: string) {
    Writer.Parts(path) in entries && entries[Writer.Parts(path)].File?
  }

  function ReadPlan(layout: Layout, entries: map<Writer.Path, Writer.Node>): Option<Plan> {
    if HasFile(entries, layout.manifest) then layout.read(entries[Writer.Parts(layout.manifest)].data) else None
  }

  // The files a reader finds for the rows of a plan.
  function Found(layout: Layout, entries: map<Writer.Path, Writer.Node>, keys: set<FileKey>): map<FileKey, Bytes> {
    map k | k in keys && HasFile(entries, layout.path(k)) :: entries[Writer.Parts(layout.path(k))].data
  }

  // A reader accepts the directory: no marker, a readable manifest, and rows that check out.
  ghost predicate ReaderTakes(rules: Rules, fmt: Formats, layout: Layout, entries: map<Writer.Path, Writer.Node>,
                              plan: Plan, files: map<FileKey, Bytes>, states: seq<State>) {
    && ReadPlan(layout, entries) == Some(plan)
    && Accepted(rules, fmt, [Writer.MARKER] in entries, plan, Found(layout, entries, plan.files.Keys), files, states)
  }

  lemma CompleteHolds(layout: Layout, plan: Plan, files: map<FileKey, Bytes>, entries: map<Writer.Path, Writer.Node>,
                      k: FileKey)
    requires Renders(layout, plan) && files.Keys <= plan.files.Keys
             && Writer.Complete(entries, WritePlan(layout, plan, files)) && k in files
    ensures HasFile(entries, layout.path(k)) && entries[Writer.Parts(layout.path(k))].data == files[k]
  {
    var planned := WritePlan(layout, plan, files);
    assert layout.path(k) in planned.files && planned.files[layout.path(k)] == files[k];
    assert Writer.Holds(entries, layout.path(k), files[k]);
  }

  lemma FoundHolds(layout: Layout, plan: Plan, files: map<FileKey, Bytes>, entries: map<Writer.Path, Writer.Node>)
    requires Renders(layout, plan) && files.Keys <= plan.files.Keys
             && Writer.Complete(entries, WritePlan(layout, plan, files))
    ensures var found := Found(layout, entries, plan.files.Keys);
            forall k :: k in files ==> k in found && found[k] == files[k]
  {
    forall k | k in files
      ensures var found := Found(layout, entries, plan.files.Keys); k in found && found[k] == files[k]
    {
      CompleteHolds(layout, plan, files, entries, k);
    }
  }

  lemma UnmarkedIsComplete(layout: Layout, plan: Plan, files: map<FileKey, Bytes>,
                           entries: map<Writer.Path, Writer.Node>)
    requires Renders(layout, plan) && files.Keys <= plan.files.Keys
             && Writer.Safe(entries, WritePlan(layout, plan, files))
    requires ReadPlan(layout, entries).Some? && [Writer.MARKER] !in entries
    ensures Writer.Complete(entries, WritePlan(layout, plan, files)) && ReadPlan(layout, entries) == Some(plan)
  {
    Writer.AcceptedIsComplete(entries, WritePlan(layout, plan, files), layout.manifest);
    assert Writer.Holds(entries, layout.manifest, layout.write(plan));
  }

  lemma RowsAreFiles(fmt: Formats, layout: Layout, plan: Plan, files: map<FileKey, Bytes>, state: State,
                     entries: map<Writer.Path, Writer.Node>, read: map<FileKey, Bytes>)
    requires Renders(layout, plan) && plan == PlanOf(fmt, files, state)
             && Writer.Complete(entries, WritePlan(layout, plan, files))
    requires RowsRead(plan, Found(layout, entries, plan.files.Keys), read)
    ensures read == files
  {
    assert read.Keys == plan.files.Keys == files.Keys;
    forall k | k in files
      ensures read[k] == files[k]
    {
      CompleteHolds(layout, plan, files, entries, k);
    }
  }

  // Whenever the writer stopped, a directory that a reader accepts was written to the end: the
  // reader gets the exported plan and exactly the exported files.
  lemma ReadsOnlyComplete(rules: Rules, fmt: Formats, layout: Layout, plan: Plan, files: map<FileKey, Bytes>,
                          state: State, entries: map<Writer.Path, Writer.Node>, found: Plan, read: map<FileKey, Bytes>,
                          states: seq<State>)
    requires Renders(layout, plan) && plan == PlanOf(fmt, files, state)
    requires Writer.Safe(entries, WritePlan(layout, plan, files))
    requires ReaderTakes(rules, fmt, layout, entries, found, read, states)
    ensures Writer.Complete(entries, WritePlan(layout, plan, files)) && found == plan && read == files
  {
    UnmarkedIsComplete(layout, plan, files, entries);
    RowsAreFiles(fmt, layout, plan, files, state, entries, read);
  }

  // And a directory written to the end is accepted.
  lemma CompleteReadsBack(rules: Rules, fmt: Formats, layout: Layout, s: Store, disk: map<FileKey, Bytes>,
                          entries: map<Writer.Path, Writer.Node>)
    requires ReadsBack(fmt, RecordsOf(s)) && Exportable(rules, fmt, s, disk)
    requires var files := MaterialOf(fmt, s, disk); var plan := PlanOf(fmt, files, LastOf(s).value);
             Renders(layout, plan) && Writer.Complete(entries, WritePlan(layout, plan, files))
    ensures var files := MaterialOf(fmt, s, disk);
            ReaderTakes(rules, fmt, layout, entries, PlanOf(fmt, files, LastOf(s).value), files, RecordsOf(s).snapshots)
  {
    var files := MaterialOf(fmt, s, disk);
    var plan := PlanOf(fmt, files, LastOf(s).value);
    var found := Found(layout, entries, plan.files.Keys);
    assert Writer.Holds(entries, layout.manifest, layout.write(plan));
    FoundHolds(layout, plan, files, entries);
    ExportReadsBack(rules, fmt, s, disk, found);
  }
}
