// Writing an export: a new directory that carries an INCOMPLETE marker until every planned file
// and the manifest are in place. The process may die after any single file-system effect.
module ExportWriter {
  import opened Outcomes
  import opened Blobs

  type Path = seq<string>

  datatype Node = Dir | File(data: Bytes)

  const MARKER := "INCOMPLETE"

  // The components of a relative path: empty and "." components disappear.
  function Parts(s: string): Path {
    PartsFrom(s, "")
  }

  function PartsFrom(s: string, current: string): Path
    decreases |s|
  {
    if s == "" then Kept(current)
    else if s[0] == '/' then Kept(current) + PartsFrom(s[1..], "")
    else PartsFrom(s[1..], current + [s[0]])
  }

  function Kept(component: string): Path {
    if component == "" || component == "." then [] else [component]
  }

  lemma {:induction false} OneComponent(s: string, current: string)
    requires '/' !in s
    ensures PartsFrom(s, current) == Kept(current + s)
    decreases |s|
  {
    if s == "" {
      assert current + s == current;
    } else {
      assert forall c :: c in s[1..] ==> c in s;
      OneComponent(s[1..], current + [s[0]]);
      assert current + s == current + [s[0]] + s[1..];
    }
  }

  // Without a slash a path is one component, or none if it is empty or the dot.
  lemma PartsOfComponent(s: string)
    requires '/' !in s
    ensures Parts(s) == if s == "" || s == "." then [] else [s]
  {
    OneComponent(s, "");
    assert "" + s == s;
  }

  // A slash separates the components before it from those after it.
  lemma PartsConcat(a: string, b: string)
    ensures Parts(a + "/" + b) == Parts(a) + Parts(b)
  {
    FromConcat(a, b, "");
  }

  lemma {:induction false} FromConcat(a: string, b: string, current: string)
    ensures PartsFrom(a + "/" + b, current) == PartsFrom(a, current) + PartsFrom(b, "")
    decreases |a|
  {
    var s := a + "/" + b;
    if |a| == 0 {
      assert s == "/" + b && s[1..] == b;
    } else {
      assert s[0] == a[0] && s[1..] == a[1..] + "/" + b;
      if a[0] == '/' {
        FromConcat(a[1..], b, "");
      } else {
        FromConcat(a[1..], b, current + [a[0]]);
      }
    }
  }

  lemma MarkerParts()
    ensures Parts(MARKER) == [MARKER]
  {
    OneComponent(MARKER, "");
    assert "" + MARKER == MARKER;
  }

  predicate Writable(relative: string) {
    var parts := Parts(relative);
    parts != [] && relative[..1] != "/" && ".." !in parts
  }

  datatype Outcome = Done | Raised | Died

  // What the export plans to write, besides the marker.
  datatype Plan = Plan(files: map<string, Bytes>, manifestName: string, manifest: Bytes)

  ghost predicate Holds(entries: map<Path, Node>, relative: string, data: Bytes) {
    Parts(relative) in entries && entries[Parts(relative)] == File(data)
  }

  ghost predicate Complete(entries: map<Path, Node>, plan: Plan) {
    && (forall relative :: relative in plan.files ==> Holds(entries, relative, plan.files[relative]))
    && Holds(entries, plan.manifestName, plan.manifest)
    && [MARKER] !in entries
  }

  // An interrupted export is empty or still marked; anything else is complete.
  ghost predicate Safe(entries: map<Path, Node>, plan: Plan) {
    entries == map[] || [MARKER] in entries || Complete(entries, plan)
  }

  // A reader looks for the marker first and then opens a file it needs.
  ghost predicate ReaderAccepts(entries: map<Path, Node>, needed: string) {
    [MARKER] !in entries && Parts(needed) in entries && entries[Parts(needed)].File?
  }

  // Whatever a reader accepts is complete, whichever planned file it opens.
  lemma AcceptedIsComplete(entries: map<Path, Node>, plan: Plan, needed: string)
    requires Safe(entries, plan) && ReaderAccepts(entries, needed)
    ensures Complete(entries, plan)
  {
  }

  // Files once written are never changed by later effects.
  ghost predicate Extends(before: map<Path, Node>, after: map<Path, Node>) {
    forall p :: p in before ==> p in after && after[p] == before[p]
  }

  // ---- Plans that cannot collide ------------------------------------------------------

  // No planned path is another one or a directory of another one.
  ghost predicate Apart(paths: set<Path>) {
    forall p, q :: p in paths && q in paths && p <= q ==> p == q
  }

  // A plan whose names can all be written, each to a path of its own beside the marker.
  ghost predicate Achievable(plan: Plan, marker: string) {
    && plan.manifestName !in plan.files && marker !in plan.files
    && (forall relative :: relative in plan.files ==> Writable(relative)) && Writable(plan.manifestName)
    && (forall a, b :: a in plan.files && b in plan.files && Parts(a) == Parts(b) ==> a == b)
    && (forall relative :: relative in plan.files ==>
        Parts(relative) != Parts(plan.manifestName) && Parts(relative) != Parts(marker))
    && Parts(plan.manifestName) != Parts(marker) && Apart(Planned(plan, marker))
  }

  ghost function Planned(plan: Plan, marker: string): set<Path> {
    {Parts(marker), Parts(plan.manifestName)} + set relative | relative in plan.files :: Parts(relative)
  }

  ghost predicate Above(p: Path, written: set<Path>) {
    exists q :: q in written && p < q
  }

  // Every entry is a written file or a directory on the way to one.
  ghost predicate Laid(entries: map<Path, Node>, written: set<Path>) {
    forall p :: p in entries ==> if entries[p].File? then p in written else Above(p, written)
  }

  lemma LaidGrows(entries: map<Path, Node>, written: set<Path>, more: set<Path>)
    requires Laid(entries, written) && written <= more
    ensures Laid(entries, more)
  {
    forall p | p in entries && !entries[p].File?
      ensures Above(p, more)
    {
      var q :| q in written && p < q;
      assert q in more;
    }
  }

  // ---- What an export costs -----------------------------------------------------------

  // File-system effects: one for each directory, two for the file.
  function Cost(relative: string): nat {
    |Parts(relative)| + 1
  }

  function CostOf(order: seq<string>, n: nat): nat
    requires n <= |order|
  {
    if n == 0 then 0 else CostOf(order, n - 1) + Cost(order[n - 1])
  }

  // The directory, the marker, the files, the manifest, and the marker again.
  function TotalCost(plan: Plan, order: seq<string>): nat {
    1 + Cost(MARKER) + CostOf(order, |order|) + Cost(plan.manifestName) + 1
  }

  // The paths written once the first n files of an order have joined `done`.
  ghost function Written(done: set<Path>, order: seq<string>, n: nat): set<Path>
    requires n <= |order|
  {
    if n == 0 then done else Written(done, order, n - 1) + {Parts(order[n - 1])}
  }

  lemma {:induction false} WrittenMembers(done: set<Path>, order: seq<string>, n: nat, p: Path)
    requires n <= |order|
    ensures p in Written(done, order, n) <==> p in done || exists j :: 0 <= j < n && p == Parts(order[j])
  {
    if n > 0 {
      WrittenMembers(done, order, n - 1, p);
    }
  }

  lemma {:induction false} WrittenGrows(done: set<Path>, order: seq<string>, m: nat, n: nat)
    requires m <= n <= |order|
    ensures Written(done, order, m) <= Written(done, order, n)
  {
    if m < n {
      WrittenGrows(done, order, m, n - 1);
    }
  }

  // The files of an order can be laid out beside what is written already.
  ghost predicate Placeable(order: seq<string>, done: set<Path>) {
    && (forall j :: 0 <= j < |order| ==> Writable(order[j]) && Parts(order[j]) !in done)
    && (forall i, j :: 0 <= i < j < |order| ==> Parts(order[i]) != Parts(order[j]))
    && Apart(Written(done, order, |order|))
  }

  // What the next file of a placeable order needs.
  lemma NextIsPlaceable(order: seq<string>, done: set<Path>, k: nat)
    requires k < |order| && Placeable(order, done)
    ensures Parts(order[k]) !in Written(done, order, k)
    ensures Apart(Written(done, order, k) + {Parts(order[k])})
  {
    WrittenMembers(done, order, k, Parts(order[k]));
    WrittenGrows(done, order, k + 1, |order|);
    ApartWithin(Written(done, order, k + 1), Written(done, order, |order|));
  }

  lemma ApartWithin(paths: set<Path>, all: set<Path>)
    requires Apart(all) && paths <= all
    ensures Apart(paths)
  {
  }

  lemma WrittenIsPlanned(plan: Plan, marker: string, order: seq<string>, p: Path)
    requires Achievable(plan, marker) && forall relative :: relative in plan.files <==> relative in order
    requires p in Written({Parts(marker)}, order, |order|)
    ensures p in Planned(plan, marker) && p != Parts(plan.manifestName)
  {
    WrittenMembers({Parts(marker)}, order, |order|, p);
    if p != Parts(marker) {
      var j :| 0 <= j < |order| && p == Parts(order[j]);
      assert order[j] in plan.files;
    }
  }

  lemma AchievableIsPlaceable(plan: Plan, marker: string, order: seq<string>)
    requires Achievable(plan, marker) && forall relative :: relative in plan.files <==> relative in order
    requires forall i, j :: 0 <= i < j < |order| ==> order[i] != order[j]
    ensures Placeable(order, {Parts(marker)})
    ensures Apart(Written({Parts(marker)}, order, |order|) + {Parts(plan.manifestName)})
    ensures Parts(plan.manifestName) !in Written({Parts(marker)}, order, |order|)
  {
    var paths, all := Written({Parts(marker)}, order, |order|), Planned(plan, marker);
    forall p | p in paths
      ensures p in all && p != Parts(plan.manifestName)
    {
      WrittenIsPlanned(plan, marker, order, p);
    }
    ApartWithin(paths, all);
    ApartWithin(paths + {Parts(plan.manifestName)}, all);
    forall j | 0 <= j < |order|
      ensures order[j] in plan.files
    {
    }
  }

  lemma {:induction false} CostGrows(order: seq<string>, m: nat, n: nat)
    requires m <= n <= |order|
    ensures CostOf(order, m) <= CostOf(order, n)
  {
    if m < n {
      CostGrows(order, m, n - 1);
    }
  }

  lemma PlannedLaid(plan: Plan, order: seq<string>, entries: map<Path, Node>)
    requires Achievable(plan, MARKER) && forall relative :: relative in plan.files <==> relative in order
    requires Laid(entries, Written({Parts(MARKER)}, order, |order|) + {Parts(plan.manifestName)})
    ensures Laid(entries, Planned(plan, MARKER))
  {
    var written := Written({Parts(MARKER)}, order, |order|);
    forall p | p in written
      ensures p in Planned(plan, MARKER)
    {
      WrittenIsPlanned(plan, MARKER, order, p);
    }
    LaidGrows(entries, written + {Parts(plan.manifestName)}, Planned(plan, MARKER));
  }

  class Target {
    var exists_: bool
    var entries: map<Path, Node>
    var life: nat          // file-system effects left before the process dies

    method Live() returns (dead: bool)
      modifies this`life
      ensures dead <==> old(life) == 0
      ensures !dead ==> life == old(life) - 1
      ensures dead ==> life == 0
    {
      dead := life == 0;
      life := if dead then 0 else life - 1;
    }

    // An existing directory is accepted, an existing file in its place is not.
    method MakeDirectory(p: Path) returns (o: Outcome)
      modifies this`entries, this`life
      ensures Extends(old(entries), entries)
      ensures entries.Keys <= old(entries).Keys + {p}
      ensures o == Done ==> p in entries && entries[p] == Dir
      ensures entries == old(entries) || entries == old(entries)[p := Dir]
      ensures o == Died ==> life == 0
      ensures life + 1 >= old(life) && (o == Died <==> old(life) == 0)
      ensures o == Raised ==> p in old(entries) && old(entries)[p].File?
    {
      var dead := Live();
      if dead {
        return Died;
      }
      if p in entries {
        return if entries[p].Dir? then Done else Raised;
      }
      entries := entries[p := Dir];
      return Done;
    }

    // Exclusive creation, then the content; dying in between leaves a shorter file.
    method CreateFile(p: Path, data: Bytes, written: nat) returns (o: Outcome)
      modifies this`entries, this`life
      ensures Extends(old(entries), entries)
      ensures entries.Keys <= old(entries).Keys + {p}
      ensures o == Done ==> p !in old(entries) && entries == old(entries)[p := File(data)]
      ensures p in old(entries) ==> o != Done && entries == old(entries)
      ensures o == Died ==> life == 0
      ensures life + 2 >= old(life) && (old(life) >= 2 ==> o != Died)
      ensures o == Raised ==> p in old(entries)
    {
      var dead := Live();
      if dead {
        return Died;
      }
      if p in entries {
        return Raised;
      }
      entries := entries[p := File([])];
      dead := Live();
      if dead {
        entries := entries[p := File(if written <= |data| then data[..written] else data)];
        return Died;
      }
      entries := entries[p := File(data)];
      return Done;
    }

    method Write(relative: string, data: Bytes, written: nat, ghost done: set<Path>) returns (o: Outcome)
      modifies this`entries, this`life
      ensures o == Died ==> life == 0
      ensures life + Cost(relative) >= old(life) && (old(life) >= Cost(relative) ==> o != Died)
      ensures Laid(old(entries), done) && Apart(done + {Parts(relative)}) && Parts(relative) !in done &&
              Writable(relative) ==>
              o != Raised
      ensures Laid(old(entries), done) && o == Done ==> Laid(entries, done + {Parts(relative)})
      // A path that is empty, absolute or leaves the directory is refused before any effect.
      ensures |Parts(relative)| == 0 || relative[..1] == "/" || ".." in Parts(relative) ==>
                o == Raised && entries == old(entries) && life == old(life)
      ensures Extends(old(entries), entries)
      ensures o == Done ==> Writable(relative) && Holds(entries, relative, data) && Parts(relative) !in old(entries)
      ensures [MARKER] in old(entries) ==> [MARKER] in entries
      ensures Parts(relative) == [MARKER] && old(entries) == map[] ==> entries == map[] || [MARKER] in entries
    {
      if !Writable(relative) {
        return Raised;
      }
      var parts := Parts(relative);
      for k := 1 to |parts|
        invariant Extends(old(entries), entries)
        invariant k == 1 ==> entries == old(entries)
        invariant life + k - 1 >= old(life)
        invariant Laid(old(entries), done) ==> Laid(entries, done + {parts})
        invariant parts !in old(entries) ==> parts !in entries
      {
        assert parts[..k] < parts;
        o := MakeDirectory(parts[..k]);
        if o != Done {
          return;
        }
      }
      o := CreateFile(parts, data, written);
    }

    method WriteNext(plan: Plan, order: seq<string>, k: nat, written: nat, ghost done: set<Path>) returns (o: Outcome)
      requires k < |order| && order[k] in plan.files && [MARKER] in entries
      modifies this`entries, this`life
      ensures Extends(old(entries), entries) && [MARKER] in entries
      ensures o == Done ==> Holds(entries, order[k], plan.files[order[k]]) && Parts(order[k]) != [MARKER]
      ensures o == Died ==> life == 0
      ensures life + Cost(order[k]) >= old(life) && (old(life) >= Cost(order[k]) ==> o != Died)
      ensures Laid(old(entries), Written(done, order, k)) && Placeable(order, done) ==> o != Raised
      ensures Laid(old(entries), Written(done, order, k)) && o == Done ==> Laid(entries, Written(done, order, k + 1))
    {
      if Placeable(order, done) {
        NextIsPlaceable(order, done, k);
      }
      o := Write(order[k], plan.files[order[k]], written, Written(done, order, k));
    }

    // Every planned file, with the marker in place throughout.
    method WriteAll(plan: Plan, order: seq<string>, written: nat, ghost done: set<Path>) returns (o: Outcome)
      requires [MARKER] in entries && forall relative :: relative in order ==> relative in plan.files
      modifies this`entries, this`life
      ensures [MARKER] in entries
      ensures o == Done ==> forall relative :: relative in order ==>
                Holds(entries, relative, plan.files[relative]) && Parts(relative) != [MARKER]
      ensures o == Died ==> life == 0
      ensures life + CostOf(order, |order|) >= old(life) && (old(life) >= CostOf(order, |order|) ==> o != Died)
      ensures Laid(old(entries), done) && Placeable(order, done) ==> o != Raised
      ensures Laid(old(entries), done) && o == Done ==> Laid(entries, Written(done, order, |order|))
    {
      for k := 0 to |order|
        invariant Laid(old(entries), done) ==> Laid(entries, Written(done, order, k))
        invariant [MARKER] in entries
        invariant life + CostOf(order, k) >= old(life)
        invariant forall j :: 0 <= j < k ==>
                  Holds(entries, order[j], plan.files[order[j]]) && Parts(order[j]) != [MARKER]
      {
        CostGrows(order, k + 1, |order|);
        o := WriteNext(plan, order, k, written, done);
        if o != Done {
          return;
        }
      }
      return Done;
    }

    // The manifest last, then the marker goes.
    method Finish(plan: Plan, written: nat, ghost done: set<Path>) returns (o: Outcome)
      requires [MARKER] in entries
      requires forall relative :: relative in plan.files ==>
               Holds(entries, relative, plan.files[relative]) && Parts(relative) != [MARKER]
      modifies this`entries, this`life
      ensures Safe(entries, plan) && (o == Done ==> Complete(entries, plan))
      ensures o == Died ==> life == 0
      ensures old(life) >= Cost(plan.manifestName) + 1 ==> o != Died
      ensures Laid(old(entries), done) && o == Done ==> Laid(entries, done + {Parts(plan.manifestName)})
      ensures (&& Laid(old(entries), done) && Apart(done + {Parts(plan.manifestName)})
               && Parts(plan.manifestName) !in done && Writable(plan.manifestName)) ==> o != Raised
    {
      o := Write(plan.manifestName, plan.manifest, written, done);
      if o != Done {
        return;
      }
      var dead := Live();
      if dead {
        return Died;
      }
      assert Parts(plan.manifestName) != [MARKER];
      entries := entries - {[MARKER]};
      return Done;
    }

    // Everything written into the new directory.
    method Fill(plan: Plan, order: seq<string>, written: nat) returns (o: Outcome)
      requires forall relative :: relative in plan.files <==> relative in order
      requires forall i, j :: 0 <= i < j < |order| ==> order[i] != order[j]
      requires entries == map[]
      modifies this`entries, this`life
      ensures Safe(entries, plan) && (o == Done ==> Complete(entries, plan))
      ensures o == Died ==> life == 0
      ensures old(life) >= TotalCost(plan, order) - 1 ==> o != Died
      ensures Achievable(plan, MARKER) ==> o != Raised && (o == Done ==> Laid(entries, Planned(plan, MARKER)))
    {
      MarkerParts();
      if Achievable(plan, MARKER) {
        AchievableIsPlaceable(plan, MARKER, order);
      }
      assert {} + {Parts(MARKER)} == {Parts(MARKER)};
      o := Write(MARKER, [], written, {});
      if o != Done {
        return;
      }
      o := WriteAll(plan, order, written, {Parts(MARKER)});
      if o != Done {
        return;
      }
      o := Finish(plan, written, Written({Parts(MARKER)}, order, |order|));
      if Achievable(plan, MARKER) && o == Done {
        PlannedLaid(plan, order, entries);
      }
    }

    // `order` lists the planned files; the source sorts them. Only a death, or a plan whose names
    // cannot be laid out, keeps a new export from completing.
    method WriteExport(plan: Plan, order: seq<string>, parentReady: bool, written: nat) returns (o: Outcome)
      requires forall relative :: relative in plan.files <==> relative in order
      requires forall i, j :: 0 <= i < j < |order| ==> order[i] != order[j]
      requires !exists_ ==> entries == map[]
      modifies this
      ensures old(exists_) ==> o == Raised && exists_ && entries == old(entries)
      ensures !old(exists_) ==> Safe(entries, plan)
      ensures o == Done ==> exists_ && Complete(entries, plan)
      ensures o == Died ==> life == 0
      ensures !old(exists_) && parentReady && Achievable(plan, MARKER) ==> o != Raised
      // It completes as soon as the plan can be laid out and the process lives long enough, and holds
      // nothing but the planned files and the directories above them.
      ensures !old(exists_) && parentReady && Achievable(plan, MARKER) && old(life) >= TotalCost(plan, order) ==>
              o == Done
      ensures o == Done && Achievable(plan, MARKER) ==> Laid(entries, Planned(plan, MARKER))
      ensures !parentReady ==> o == Raised && exists_ == old(exists_) && entries == old(entries)
      ensures plan.manifestName in plan.files || MARKER in plan.files ==> o == Raised && entries == old(entries)
    {
      if plan.manifestName in plan.files || MARKER in plan.files || exists_ || !parentReady {
        return Raised;
      }
      var dead := Live();
      if dead {
        return Died;
      }
      exists_ := true;
      o := Fill(plan, order, written);
    }
  }
}
