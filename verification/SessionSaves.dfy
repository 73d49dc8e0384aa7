// What a save does, said without the loop that does it: which updates succeed, and what the snapshot,
// the event and the blobs of a successful one are.
module SessionSaves {
  import opened Outcomes
  import opened Blobs
  import opened SessionStore

  // ---- The supplied items -------------------------------------------------------------

  // The last item that supplies bytes for a file.
  ghost predicate LastSupplier(items: seq<Item>, path: string, k: nat) {
    && k < |items| && items[k].path == path && items[k].reviewed.None?
    && forall j :: k < j < |items| && items[j].reviewed.None? ==> items[j].path != path
  }

  predicate Imported(items: seq<Item>, path: string) {
    exists k :: 0 <= k < |items| && items[k].path == path && items[k].reviewed.Some?
  }

  // The row an import leaves.
  function RowOf(item: Item): ImportRow
    requires item.reviewed.Some?
  {
    ImportRow(Sha256(item.content), item.reviewed.value.1, |item.content|, item.reviewed.value.2)
  }

  // Every file holds what was last supplied for it, or what it held before.
  ghost predicate FilesOf(files: map<string, Digest>, items: seq<Item>, after: map<string, Digest>) {
    && (forall p :: p in after <==> p in files || Supplied(items, p))
    && (forall k {:trigger items[k]} :: 0 <= k < |items| && LastSupplier(items, items[k].path, k) ==>
          items[k].path in after && after[items[k].path] == Sha256(items[k].content))
    && (forall p :: p in after && !Supplied(items, p) ==> after[p] == files[p])
  }

  // Every import is one made before, unchanged, or the row of an item.
  ghost predicate ImportsOf(imports: map<string, ImportRow>, items: seq<Item>, after: map<string, ImportRow>) {
    && (forall p :: p in after <==> p in imports || Imported(items, p))
    && (forall p :: p in imports && p in after ==> after[p] == imports[p])
    && (forall k {:trigger items[k]} :: 0 <= k < |items| && items[k].reviewed.Some? ==>
          items[k].path in after && after[items[k].path] == RowOf(items[k]))
  }

  // The blobs are the old ones and the supplied contents, each under its own digest.
  ghost predicate BlobsOf(blobs: map<Digest, Bytes>, items: seq<Item>, grown: map<Digest, Bytes>) {
    && (forall d :: d in grown <==> d in blobs || SuppliesDigest(items, d))
    && (forall d :: d in blobs && d in grown ==> grown[d] == blobs[d])
    && Addressed(grown)
  }

  // What one item must meet by itself.
  predicate ItemFits(rules: Rules, item: Item) {
    && rules.path(item.path) && rules.text(item.content) && |item.content| <= MAX_ARTIFACT_BYTES
    && (item.reviewed.Some? ==> item.reviewed.value.0 == Sha256(item.content))
  }

  predicate AllFit(rules: Rules, items: seq<Item>) {
    forall k :: 0 <= k < |items| ==> ItemFits(rules, items[k])
  }

  // No path is imported twice.
  predicate ImportsAreNew(imports: map<string, ImportRow>, items: seq<Item>) {
    forall k :: 0 <= k < |items| && items[k].reviewed.Some? ==>
      items[k].path !in imports && !Imported(items[..k], items[k].path)
  }

  lemma ImportedGrows(items: seq<Item>, last: Item, path: string)
    ensures Imported(items + [last], path) <==> Imported(items, path) || (last.path == path && last.reviewed.Some?)
  {
    var all := items + [last];
    if Imported(items, path) {
      var k :| 0 <= k < |items| && items[k].path == path && items[k].reviewed.Some?;
      assert all[k] == items[k];
    }
    assert all[|items|] == last;
  }

  lemma ImportsAreNewGrows(imports: map<string, ImportRow>, items: seq<Item>, last: Item)
    ensures ImportsAreNew(imports, items + [last]) <==>
            ImportsAreNew(imports, items)
              && (last.reviewed.Some? ==> last.path !in imports && !Imported(items, last.path))
  {
    var all := items + [last];
    assert all[..|items|] == items;
    forall k | 0 <= k < |items|
      ensures all[k] == items[k] && all[..k] == items[..k]
    {
    }
    if ImportsAreNew(imports, all) {
      forall k | 0 <= k < |items| && items[k].reviewed.Some?
        ensures items[k].path !in imports && !Imported(items[..k], items[k].path)
      {
        assert all[k] == items[k];
      }
      assert last.reviewed.Some? ==> all[|items|].reviewed.Some?;
    }
  }

  lemma FilesGrow(files: map<string, Digest>, items: seq<Item>, last: Item, after: map<string, Digest>)
    requires FilesOf(files, items, after)
    ensures FilesOf(files, items + [last], if last.reviewed.None? then after[last.path := Sha256(last.content)]
                    else after)
  {
    var all, next := items + [last], if last.reviewed.None? then after[last.path := Sha256(last.content)] else after;
    forall p
      ensures Supplied(all, p) <==> Supplied(items, p) || (last.path == p && last.reviewed.None?)
    {
      SuppliedGrows(items, last, p);
    }
    forall k {:trigger all[k]} | 0 <= k < |all| && LastSupplier(all, all[k].path, k)
      ensures all[k].path in next && next[all[k].path] == Sha256(all[k].content)
    {
      if k < |items| {
        assert all[k] == items[k] && all[|items|] == last;
        assert LastSupplier(items, items[k].path, k) by {
          forall j | k < j < |items| && items[j].reviewed.None?
            ensures items[j].path != items[k].path
          {
            assert all[j] == items[j];
          }
        }
      }
    }
  }

  lemma ImportsGrow(imports: map<string, ImportRow>, items: seq<Item>, last: Item, after: map<string, ImportRow>)
    requires ImportsOf(imports, items, after) && (last.reviewed.Some? ==> last.path !in after)
    ensures ImportsOf(imports, items + [last], if last.reviewed.Some? then after[last.path := RowOf(last)] else after)
  {
    var all, next := items + [last], if last.reviewed.Some? then after[last.path := RowOf(last)] else after;
    forall p
      ensures Imported(all, p) <==> Imported(items, p) || (last.path == p && last.reviewed.Some?)
    {
      ImportedGrows(items, last, p);
    }
    forall k {:trigger all[k]} | 0 <= k < |all| && all[k].reviewed.Some?
      ensures all[k].path in next && next[all[k].path] == RowOf(all[k])
    {
      if k < |items| {
        assert all[k] == items[k];
      }
    }
  }

  lemma BlobsGrow(blobs: map<Digest, Bytes>, items: seq<Item>, last: Item, grown: map<Digest, Bytes>)
    requires BlobsOf(blobs, items, grown)
    ensures BlobsOf(blobs, items + [last], grown[Sha256(last.content) := last.content])
  {
    forall d
      ensures SuppliesDigest(items + [last], d) <==> SuppliesDigest(items, d) || Sha256(last.content) == d
    {
      SuppliesGrows(items, last, d);
    }
  }

  // The state the items leave, and the fields they do not touch.
  ghost predicate ItemsOf(current: State, items: seq<Item>, after: State) {
    && FilesOf(current.files, items, after.files) && ImportsOf(current.imports, items, after.imports)
    && after.(files := current.files, imports := current.imports) == current
  }

  // With the blobs addressed, one item is refused only for itself or for an import made before.
  lemma OneItemFits(rules: Rules, grown: map<Digest, Bytes>, after: State, last: Item)
    requires Addressed(grown)
    ensures AddItem(rules, grown, after, last).Ok? <==>
            ItemFits(rules, last) && (last.reviewed.Some? ==> last.path !in after.imports)
  {
  }

  lemma OneItemAdds(rules: Rules, grown: map<Digest, Bytes>, after: State, last: Item)
    requires Addressed(grown) && AddItem(rules, grown, after, last).Ok?
    ensures var (more, next) := AddItem(rules, grown, after, last).value;
            && more == grown[Sha256(last.content) := last.content]
            && next.files ==
              (if last.reviewed.None? then after.files[last.path := Sha256(last.content)] else after.files)
            && next.imports == (if last.reviewed.Some? then after.imports[last.path := RowOf(last)] else after.imports)
            && next.(files := after.files, imports := after.imports) == after
  {
    var (more, next) := AddItem(rules, grown, after, last).value;
    if Sha256(last.content) in grown {
      assert grown[Sha256(last.content)] == last.content;
      assert more == grown[Sha256(last.content) := last.content];
    }
  }

  lemma OneItem(rules: Rules, blobs: map<Digest, Bytes>, current: State, items: seq<Item>, last: Item,
                grown: map<Digest, Bytes>, after: State)
    requires BlobsOf(blobs, items, grown) && ItemsOf(current, items, after) && AddItem(rules, grown, after, last).Ok?
    requires last.reviewed.Some? ==> last.path !in after.imports
    ensures var (more, next) := AddItem(rules, grown, after, last).value;
            BlobsOf(blobs, items + [last], more) && ItemsOf(current, items + [last], next)
  {
    OneItemAdds(rules, grown, after, last);
    BlobsGrow(blobs, items, last, grown);
    FilesGrow(current.files, items, last, after.files);
    ImportsGrow(current.imports, items, last, after.imports);
  }

  // The outcome of the loop over the items.
  ghost predicate Adds(rules: Rules, blobs: map<Digest, Bytes>, current: State, items: seq<Item>,
                       r: Result<(map<Digest, Bytes>, State)>) {
    && (r.Ok? <==> AllFit(rules, items) && ImportsAreNew(current.imports, items))
    && (r.Ok? ==> BlobsOf(blobs, items, r.value.0) && ItemsOf(current, items, r.value.1))
  }

  lemma AllFitGrows(rules: Rules, items: seq<Item>, last: Item)
    ensures AllFit(rules, items + [last]) <==> AllFit(rules, items) && ItemFits(rules, last)
  {
    var all := items + [last];
    if AllFit(rules, all) {
      forall k | 0 <= k < |items|
        ensures ItemFits(rules, items[k])
      {
        assert all[k] == items[k];
      }
      assert all[|items|] == last;
    }
  }

  lemma OneMoreAdds(rules: Rules, blobs: map<Digest, Bytes>, current: State, items: seq<Item>, last: Item,
                    r: Result<(map<Digest, Bytes>, State)>)
    requires Adds(rules, blobs, current, items, r)
    ensures Adds(rules, blobs, current, items + [last],
                 if r.Err? then r else AddItem(rules, r.value.0, r.value.1, last))
  {
    ImportsAreNewGrows(current.imports, items, last);
    AllFitGrows(rules, items, last);
    if r.Ok? {
      var (grown, after) := r.value;
      OneItemFits(rules, grown, after, last);
      assert last.path in after.imports <==> last.path in current.imports || Imported(items, last.path);
      if AddItem(rules, grown, after, last).Ok? {
        OneItem(rules, blobs, current, items, last, grown, after);
      }
    }
  }

  lemma NoItems(rules: Rules, blobs: map<Digest, Bytes>, current: State)
    requires Addressed(blobs)
    ensures Adds(rules, blobs, current, [], Ok((blobs, current)))
  {
  }

  // The loop over the items, for all inputs: when it succeeds, and what it leaves.
  lemma {:induction false} ItemsAreAdded(rules: Rules, blobs: map<Digest, Bytes>, current: State, items: seq<Item>)
    requires Addressed(blobs)
    ensures Adds(rules, blobs, current, items, AddItems(rules, blobs, current, items))
  {
    if |items| == 0 {
      assert items == [];
      NoItems(rules, blobs, current);
    } else {
      var prefix, last := items[..|items| - 1], items[|items| - 1];
      ItemsAreAdded(rules, blobs, current, prefix);
      OneMoreAdds(rules, blobs, current, prefix, last, AddItems(rules, blobs, current, prefix));
      assert items == prefix + [last];
    }
  }

  // ---- The save -----------------------------------------------------------------------

  // The snapshot an update leaves: the updated state with the items in it, one revision on.
  ghost predicate SnapshotOf(u: Update, current: State) {
    && current.revision == u.previous.revision + 1
    && FilesOf(u.updated.files, u.items, current.files) && ImportsOf(u.updated.imports, u.items, current.imports)
    && current.schema == u.updated.schema && current.active == u.updated.active
    && current.approvedSpec == u.updated.approvedSpec && current.manifest == u.updated.manifest
    && current.simulation == u.updated.simulation && current.rest == u.updated.rest
  }

  lemma LastSupplierExists(items: seq<Item>, path: string) returns (k: nat)
    requires Supplied(items, path)
    ensures LastSupplier(items, path, k)
    decreases |items|
  {
    var last := items[|items| - 1];
    if last.path == path && last.reviewed.None? {
      k := |items| - 1;
    } else {
      var prefix := items[..|items| - 1];
      assert items == prefix + [last];
      SuppliedGrows(prefix, last, path);
      k := LastSupplierExists(prefix, path);
    }
  }

  // That decides it.
  lemma SnapshotIsUnique(u: Update, one: State, other: State)
    requires SnapshotOf(u, one) && SnapshotOf(u, other)
    ensures one == other
  {
    forall p | p in one.files
      ensures p in other.files && one.files[p] == other.files[p]
    {
      if Supplied(u.items, p) {
        var k := LastSupplierExists(u.items, p);
        assert u.items[k].path == p;
      }
    }
    forall p | p in one.imports
      ensures p in other.imports && one.imports[p] == other.imports[p]
    {
      if p !in u.updated.imports {
        var k :| 0 <= k < |u.items| && u.items[k].path == p && u.items[k].reviewed.Some?;
        assert one.imports[p] == RowOf(u.items[k]) == other.imports[p];
      }
    }
    assert one.files == other.files && one.imports == other.imports;
  }

  // What a successful save leaves: every earlier row, the snapshot of the update, its event, and the
  // supplied bytes.
  lemma SavedRows(rules: Rules, s: Store, u: Update)
    requires Contiguous(s) && Addressed(s.blobs) && Save(rules, s, u).Ok?
    ensures var (n, current) := Save(rules, s, u).value; var revision := u.previous.revision + 1;
            && SnapshotOf(u, current)
            && n.snapshots == s.snapshots + [(revision, current)]
            && n.events == s.events + [(revision, Event(revision, u.event, u.fields))]
            && BlobsOf(s.blobs, u.items, n.blobs)
  {
    ItemsAreAdded(rules, s.blobs, u.updated, u.items);
  }

  // The snapshot the update leaves is valid.
  ghost predicate LeavesValid(rules: Rules, u: Update) {
    forall current :: SnapshotOf(u, current) ==> rules.valid(current)
  }

  lemma ValidIff(rules: Rules, u: Update, after: State)
    requires SnapshotOf(u, after)
    ensures LeavesValid(rules, u) <==> rules.valid(after)
  {
    forall current | SnapshotOf(u, current)
      ensures current == after
    {
      SnapshotIsUnique(u, current, after);
    }
  }

  lemma AddedIsSnapshot(rules: Rules, s: Store, u: Update)
    requires Addressed(s.blobs) && AddItems(rules, s.blobs, u.updated, u.items).Ok?
    ensures SnapshotOf(u, AddItems(rules, s.blobs, u.updated, u.items).value.1.(revision := u.previous.revision + 1))
  {
    ItemsAreAdded(rules, s.blobs, u.updated, u.items);
  }

  // A save whose event is known and whose snapshot is the one read.
  lemma SaveComesTo(rules: Rules, s: Store, u: Update)
    requires Read(rules, s) == Ok(u.previous) && rules.event(u.event, u.fields)
    requires !HasRow(s.snapshots, u.previous.revision + 1) && !HasRow(s.events, u.previous.revision + 1)
    ensures var added := AddItems(rules, s.blobs, u.updated, u.items);
            Save(rules, s, u).Ok? <==> added.Ok? && rules.valid(added.value.1.(revision := u.previous.revision + 1))
  {
  }

  // The checks of such a save.
  lemma SaveFrom(rules: Rules, s: Store, u: Update)
    requires Addressed(s.blobs) && Read(rules, s) == Ok(u.previous) && rules.event(u.event, u.fields)
    requires !HasRow(s.snapshots, u.previous.revision + 1) && !HasRow(s.events, u.previous.revision + 1)
    ensures Save(rules, s, u).Ok? <==>
            AllFit(rules, u.items) && ImportsAreNew(u.updated.imports, u.items) && LeavesValid(rules, u)
  {
    SaveComesTo(rules, s, u);
    var added := AddItems(rules, s.blobs, u.updated, u.items);
    ItemsAreAdded(rules, s.blobs, u.updated, u.items);
    if added.Ok? {
      AddedIsSnapshot(rules, s, u);
      ValidIff(rules, u, added.value.1.(revision := u.previous.revision + 1));
    }
  }

  // Exactly which updates are saved: a known event, from the snapshot that is still the last one,
  // with items that fit and imports that are new, whose snapshot is valid.
  lemma SaveSucceedsIff(rules: Rules, s: Store, u: Update)
    requires Contiguous(s) && Addressed(s.blobs)
    ensures Save(rules, s, u).Ok? <==>
      && rules.event(u.event, u.fields)
      && u.previous == s.snapshots[|s.snapshots| - 1].1 && rules.valid(u.previous)
      && AllFit(rules, u.items) && ImportsAreNew(u.updated.imports, u.items) && LeavesValid(rules, u)
  {
    LatestIsLast(s.snapshots);
    if Read(rules, s) == Ok(u.previous) && rules.event(u.event, u.fields) {
      NoCollision(rules, s, u);
      SaveFrom(rules, s, u);
    }
  }

  // An upgrade that commits changes nothing but the schema, the fields it adds, and the revision.
  lemma UpgradeKeepsTheRest(rules: Rules, s: Store, fields: Digest)
    requires Contiguous(s) && Addressed(s.blobs) && Perform(rules, s, Upgrading(fields)) != s
    ensures var n := Perform(rules, s, Upgrading(fields));
            var last := s.snapshots[|s.snapshots| - 1].1;
            && last.schema != Current
            && n.snapshots == s.snapshots + [(|s.snapshots|, last.(revision := |s.snapshots|, schema := Current,
                                                                     rest := rules.upgraded(last.schema, last.rest)))]
            && n.events == s.events + [(|s.snapshots|, Event(|s.snapshots|, "session.upgraded", fields))]
            && n.blobs == s.blobs
  {
    LatestIsLast(s.snapshots);
  }

  // ---- The operations a writer owns ---------------------------------------------------

  function ActiveOf(s: State): set<string> {
    if s.active.Some? then {s.active.value} else {}
  }

  // An operation begins with its own event and from rest, and ends at rest.
  predicate Orderly(u: Update) {
    && (u.event == "operation.started" ==> u.previous.active.None? && u.updated.active.Some?)
    && (u.updated.active != u.previous.active ==> u.event == "operation.started" || u.updated.active.None?)
  }

  // A writer that saves orderly updates never owns more than the operation that is active, owns the
  // one it started, and gives up the one that ended.
  lemma OwnsWhatIsActive(owned: set<string>, u: Update, current: State)
    requires Orderly(u) && owned <= ActiveOf(u.previous) && current.active == u.updated.active
    ensures Owned(owned, u, current) <= ActiveOf(current)
    ensures u.event == "operation.started" ==> Owned(owned, u, current) == ActiveOf(current)
    ensures u.event != "operation.started" && current.active.Some? ==> Owned(owned, u, current) == owned
  {
  }
}
