// Repair proposals over monitor reports: grouping findings by the category in their identity,
// and the waveform window that shows all of them.
module FifoRepair {
  import opened Outcomes
  import opened Numerals
  import opened Sequences
  import opened FifoMonitor
  import opened MonitorWindows

  // ---- Small list operations the source takes from its library ------------------------

  // Splitting at the last dot.
  function LastDot(s: string): (r: (string, bool, string))
    ensures !r.1 ==> r.0 == "" && r.2 == s
    ensures r.1 ==> s == r.0 + "." + r.2
    ensures '.' !in r.2
  {
    if s == "" then ("", false, "") else
    var last := s[|s| - 1];
    if last == '.' then (s[..|s| - 1], true, "") else
    var (before, found, after) := LastDot(s[..|s| - 1]);
    (before, found, after + [last])
  }

  // Keeping the first occurrence of every element.
  function Dedupe<T(==,!new)>(s: seq<T>): (d: seq<T>)
    ensures forall x :: x in d <==> x in s
    ensures forall i, j :: 0 <= i < j < |d| ==> d[i] != d[j]
  {
    if s == [] then [] else
    var d, last := Dedupe(s[..|s| - 1]), s[|s| - 1];
    assert s == s[..|s| - 1] + [last];
    if last in d then d else d + [last]
  }

  function Insert(x: nat, s: seq<nat>): seq<nat> {
    if s == [] || x < s[0] then [x] + s
    else if x == s[0] then s
    else [s[0]] + Insert(x, s[1..])
  }

  ghost predicate Increasing(s: seq<nat>) {
    forall i, j :: 0 <= i < j < |s| ==> s[i] < s[j]
  }

  lemma {:induction false} InsertSorts(x: nat, s: seq<nat>)
    requires Increasing(s)
    ensures Increasing(Insert(x, s)) && forall y :: y in Insert(x, s) <==> y == x || y in s
  {
    if |s| > 0 && x > s[0] {
      InsertSorts(x, s[1..]);
      HeadAndTail(s);
      Prepended(s[0], Insert(x, s[1..]));
      assert Insert(x, s) == [s[0]] + Insert(x, s[1..]);
    }
  }

  lemma HeadAndTail(s: seq<nat>)
    requires |s| > 0 && Increasing(s)
    ensures Increasing(s[1..]) && forall y :: y in s <==> y == s[0] || y in s[1..]
    ensures forall y :: y in s[1..] ==> y > s[0]
  {
    assert s == [s[0]] + s[1..];
  }

  lemma Prepended(x: nat, s: seq<nat>)
    requires Increasing(s) && forall y :: y in s ==> y > x
    ensures Increasing([x] + s)
  {
    forall i, j | 0 <= i < j < |s| + 1
      ensures ([x] + s)[i] < ([x] + s)[j]
    {
      assert ([x] + s)[j] == s[j - 1] && s[j - 1] in s;
    }
  }

  function SortedSet(s: seq<nat>): (r: seq<nat>)
    ensures Increasing(r) && forall y :: y in r <==> y in s
  {
    if s == [] then [] else
    var r := SortedSet(s[..|s| - 1]);
    InsertSorts(s[|s| - 1], r);
    assert s == s[..|s| - 1] + [s[|s| - 1]];
    Insert(s[|s| - 1], r)
  }

  // ---- The category inside a finding identity -----------------------------------------

  function Category(session: string, id: string): Result<string> {
    var prefix := session + ".";
    if !(prefix <= id) then Err("FIFO finding identity is not scoped to its debug session") else
    var (category, separator, timestamp) := LastDot(id[|prefix|..]);
    if !separator || category == "" || timestamp == "" || !AllDigits(timestamp)
    then Err("FIFO finding identity lacks its category and timestamp")
    else Ok(category)
  }

  lemma {:induction false} LastDotOf(before: string, after: string)
    requires '.' !in after
    ensures LastDot(before + "." + after) == (before, true, after)
  {
    var s := before + "." + after;
    if after == "" {
      assert s[..|s| - 1] == before;
    } else {
      var shorter := after[..|after| - 1];
      assert s[..|s| - 1] == before + "." + shorter;
      assert forall c :: c in shorter ==> c in after;
      LastDotOf(before, shorter);
      assert after == shorter + [after[|after| - 1]];
    }
  }

  // The category parsed out of an identity is the kind it was built with, for every session
  // name and every timestamp.
  lemma CategoryIsKind(session: string, kind: Kind, t: nat)
    ensures Category(session, FindingId(session, kind, t)) == Ok(KindName(kind))
  {
    var stamp := Decimal(t);
    assert FindingId(session, kind, t) == (session + ".") + (KindName(kind) + "." + stamp);
    KindNamed(kind);
    CategoryOfScoped(session, KindName(kind), stamp);
  }

  lemma KindNamed(kind: Kind)
    ensures |KindName(kind)| > 0
  {
  }

  // Whatever was put between the session and a decimal stamp comes out again.
  lemma CategoryOfScoped(session: string, category: string, stamp: string)
    requires |category| > 0 && |stamp| > 0 && AllDigits(stamp)
    ensures Category(session, (session + ".") + (category + "." + stamp)) == Ok(category)
  {
    var prefix, rest := session + ".", category + "." + stamp;
    var id := prefix + rest;
    assert id[..|prefix|] == prefix && id[|prefix|..] == rest;
    assert forall c :: c in stamp ==> IsDigit(c);
    LastDotOf(category, stamp);
  }

  // Hence identities never collide: same identity, same kind and same time.
  lemma FindingIdInjective(session: string, k1: Kind, t1: nat, k2: Kind, t2: nat)
    requires FindingId(session, k1, t1) == FindingId(session, k2, t2)
    ensures k1 == k2 && t1 == t2
  {
    CategoryIsKind(session, k1, t1);
    CategoryIsKind(session, k2, t2);
    assert KindName(k1) == KindName(k2);
    KindNameInjective(k1, k2);
    var id, head := FindingId(session, k1, t1), session + "." + KindName(k1) + ".";
    assert id[|head|..] == Decimal(t1) && id[|head|..] == Decimal(t2);
    DecimalInjective(t1, t2);
  }

  lemma KindNameInjective(k1: Kind, k2: Kind)
    requires KindName(k1) == KindName(k2)
    ensures k1 == k2
  {
    assert |KindName(k1)| == |KindName(k2)| && KindName(k1)[0] == KindName(k2)[0] && KindName(k1)[2] == KindName(k2)[2];
  }

  // ---- Grouping -----------------------------------------------------------------------

  function CategoryOf(session: string, f: Finding): string {
    if Category(session, f.id).Ok? then Category(session, f.id).value else ""
  }

  ghost predicate Parsable(session: string, findings: seq<Finding>) {
    forall k :: 0 <= k < |findings| ==> Category(session, findings[k].id).Ok?
  }

  function Categories(session: string, findings: seq<Finding>): seq<string> {
    seq(|findings|, k requires 0 <= k < |findings| => CategoryOf(session, findings[k]))
  }

  // The items whose key is one category, in order.
  function Group<T>(items: seq<T>, keys: seq<string>, category: string): seq<T>
    requires |items| == |keys|
  {
    if items == [] then [] else
    var last := |items| - 1;
    Group(items[..last], keys[..last], category) + (if keys[last] == category then [items[last]] else [])
  }

  lemma GroupGrows<T>(items: seq<T>, keys: seq<string>, item: T, key: string, category: string)
    requires |items| == |keys|
    ensures Group(items + [item], keys + [key], category)
         == Group(items, keys, category) + (if key == category then [item] else [])
  {
    assert (items + [item])[..|items|] == items;
    assert (keys + [key])[..|keys|] == keys;
  }

  // Grouping keeps exactly the items of the category.
  lemma {:induction false} GroupMembers<T(!new)>(items: seq<T>, keys: seq<string>, c: string)
    requires |items| == |keys|
    ensures forall x :: x in Group(items, keys, c) ==> exists n :: 0 <= n < |items| && keys[n] == c && items[n] == x
    ensures forall n :: 0 <= n < |items| && keys[n] == c ==> items[n] in Group(items, keys, c)
  {
    if items != [] {
      var last := |items| - 1;
      GroupMembers(items[..last], keys[..last], c);
      forall x | x in Group(items, keys, c)
        ensures exists n :: 0 <= n < |items| && keys[n] == c && items[n] == x
      {
        if x in Group(items[..last], keys[..last], c) {
          var n :| 0 <= n < last && keys[..last][n] == c && items[..last][n] == x;
          assert keys[n] == c && items[n] == x;
        } else {
          assert keys[last] == c && items[last] == x;
        }
      }
      forall n | 0 <= n < |items| && keys[n] == c
        ensures items[n] in Group(items, keys, c)
      {
        if n < last {
          assert keys[..last][n] == c && items[..last][n] == items[n];
        }
      }
    }
  }

  lemma DedupeGrows<T(!new)>(s: seq<T>, x: T)
    ensures Dedupe(s + [x]) == if x in s then Dedupe(s) else Dedupe(s) + [x]
  {
    assert (s + [x])[..|s|] == s;
  }

  function GroupOr<T>(grouped: map<string, seq<T>>, category: string): seq<T> {
    if category in grouped then grouped[category] else []
  }

  // The dictionary of groups and the order in which its keys first appeared.
  ghost predicate Grouped<T>(items: seq<T>, keys: seq<string>, order: seq<string>, grouped: map<string, seq<T>>)
    requires |items| == |keys|
  {
    && order == Dedupe(keys)
    && (forall c :: c in order <==> c in grouped)
    && forall c :: GroupOr(grouped, c) == Group(items, keys, c)
  }

  lemma GroupOrGrows<T>(items: seq<T>, keys: seq<string>, grouped: map<string, seq<T>>, item: T, key: string, c: string)
    requires |items| == |keys|
    requires GroupOr(grouped, c) == Group(items, keys, c) && GroupOr(grouped, key) == Group(items, keys, key)
    ensures GroupOr(grouped[key := GroupOr(grouped, key) + [item]], c) == Group(items + [item], keys + [key], c)
  {
    var after := grouped[key := GroupOr(grouped, key) + [item]];
    GroupGrows(items, keys, item, key, c);
    if c == key {
      assert after[key] == GroupOr(grouped, key) + [item];
    } else {
      assert c in after <==> c in grouped;
      assert GroupOr(after, c) == GroupOr(grouped, c) + [];
    }
  }

  lemma OneMoreGrouped<T>(items: seq<T>, keys: seq<string>, order: seq<string>, grouped: map<string, seq<T>>, item: T,
                          key: string)
    requires |items| == |keys| && Grouped(items, keys, order, grouped)
    ensures Grouped(items + [item], keys + [key], if key in grouped then order else order + [key],
                    grouped[key := GroupOr(grouped, key) + [item]])
  {
    DedupeGrows(keys, key);
    forall c
      ensures GroupOr(grouped[key := GroupOr(grouped, key) + [item]], c) == Group(items + [item], keys + [key], c)
    {
      GroupOrGrows(items, keys, grouped, item, key, c);
    }
  }

  function Joined<T>(groups: (seq<string>, map<string, seq<T>>), item: T, key: string)
    : (seq<string>, map<string, seq<T>>)
  {
    (if key in groups.1 then groups.0 else groups.0 + [key], groups.1[key := GroupOr(groups.1, key) + [item]])
  }

  // The order of the categories and the dictionary after the first k items.
  ghost function GroupsAfter<T>(items: seq<T>, keys: seq<string>, k: nat): (seq<string>, map<string, seq<T>>)
    requires k <= |items| == |keys|
  {
    if k == 0 then ([], map[]) else Joined(GroupsAfter(items, keys, k - 1), items[k - 1], keys[k - 1])
  }

  lemma {:induction false} GroupsAfterGrouped<T>(items: seq<T>, keys: seq<string>, k: nat)
    requires k <= |items| == |keys|
    ensures GroupedPrefix(items, keys, k, GroupsAfter(items, keys, k))
  {
    if k > 0 {
      GroupsAfterGrouped(items, keys, k - 1);
      NextGrouped(items, keys, k);
    } else {
      NoneGrouped(items, keys);
    }
  }

  lemma NextGrouped<T>(items: seq<T>, keys: seq<string>, k: nat)
    requires 0 < k <= |items| == |keys| && GroupedPrefix(items, keys, k - 1, GroupsAfter(items, keys, k - 1))
    ensures GroupedPrefix(items, keys, k, GroupsAfter(items, keys, k))
  {
    OneMoreOfPrefix(items, keys, k - 1, GroupsAfter(items, keys, k - 1));
  }

  ghost predicate GroupedPrefix<T>(items: seq<T>, keys: seq<string>, k: nat, groups: (seq<string>, map<string, seq<T>>))
    requires k <= |items| == |keys|
  {
    Grouped(items[..k], keys[..k], groups.0, groups.1)
  }

  lemma NoneGrouped<T>(items: seq<T>, keys: seq<string>)
    requires |items| == |keys|
    ensures GroupedPrefix(items, keys, 0, GroupsAfter(items, keys, 0))
  {
  }

  lemma OneMoreOfPrefix<T>(items: seq<T>, keys: seq<string>, k: nat, groups: (seq<string>, map<string, seq<T>>))
    requires k < |items| == |keys| && GroupedPrefix(items, keys, k, groups)
    ensures GroupedPrefix(items, keys, k + 1, Joined(groups, items[k], keys[k]))
  {
    PrefixGrows(items, k);
    PrefixGrows(keys, k);
    OneMoreGrouped(items[..k], keys[..k], groups.0, groups.1, items[k], keys[k]);
  }

  lemma AllGrouped<T>(items: seq<T>, keys: seq<string>)
    requires |items| == |keys|
    ensures var (order, grouped) := GroupsAfter(items, keys, |items|); Grouped(items, keys, order, grouped)
  {
    GroupsAfterGrouped(items, keys, |items|);
    assert GroupedPrefix(items, keys, |items|, GroupsAfter(items, keys, |items|));
    WholePrefix(items);
    WholePrefix(keys);
  }

  predicate Parses(parsed: seq<Result<string>>, keys: seq<string>, k: nat)
    requires k < |parsed| == |keys|
  {
    parsed[k] == Ok(keys[k])
  }

  // The grouping loop over the parsed categories; the first identity that does not parse stops it.
  method GroupParsed<T>(findings: seq<T>, parsed: seq<Result<string>>, ghost keys: seq<string>)
    returns (r: Result<(seq<string>, map<string, seq<T>>)>)
    requires |parsed| == |findings| == |keys|
    requires forall k :: 0 <= k < |parsed| && parsed[k].Ok? ==> Parses(parsed, keys, k)
    ensures r.Ok? <==> forall k :: 0 <= k < |parsed| ==> Parses(parsed, keys, k)
    ensures r.Ok? ==> r.value == GroupsAfter(findings, keys, |findings|)
  {
    var order: seq<string> := [];
    var grouped: map<string, seq<T>> := map[];
    for k := 0 to |findings|
      invariant forall j :: 0 <= j < k ==> Parses(parsed, keys, j)
      invariant (order, grouped) == GroupsAfter(findings, keys, k)
    {
      if parsed[k].Err? {
        assert !Parses(parsed, keys, k);
        return Err(parsed[k].code);
      }
      assert Parses(parsed, keys, k);
      var finding, category := findings[k], parsed[k].value;
      if category !in grouped {
        order := order + [category];
      }
      grouped := grouped[category := GroupOr(grouped, category) + [finding]];
    }
    return Ok((order, grouped));
  }

  method GroupByCategory(session: string, findings: seq<Finding>)
    returns (r: Result<(seq<string>, map<string, seq<Finding>>)>)
    ensures r.Ok? <==> Parsable(session, findings)
    ensures r.Ok? ==> Grouped(findings, Categories(session, findings), r.value.0, r.value.1)
  {
    var parsed := seq(|findings|, k requires 0 <= k < |findings| => Category(session, findings[k].id));
    ghost var keys := Categories(session, findings);
    forall k | 0 <= k < |findings|
      ensures Parses(parsed, keys, k) <==> Category(session, findings[k].id).Ok?
      ensures parsed[k].Ok? ==> Parses(parsed, keys, k)
    {
      assert keys[k] == CategoryOf(session, findings[k]);
    }
    r := GroupParsed(findings, parsed, keys);
    AllGrouped(findings, keys);
  }

  // ---- The proposal -------------------------------------------------------------------

  datatype Change = Change(
    id: string, findingIds: seq<string>, requirementIds: seq<string>,
    sourceAnchors: seq<string>, waveformAnchors: seq<Anchor>)

  datatype Proposal = Proposal(changes: seq<Change>, confidencePercent: nat)

  // Which anchors of the RTL source each known category of repair points at.
  const STRATEGIES: map<string, string> := map[
    "write-handshake" := "combinational", "read-handshake" := "combinational",
    "backpressure" := "combinational", "read-valid" := "combinational", "level" := "sequential",
    "full" := "combinational", "empty" := "combinational", "write-pointer" := "sequential",
    "read-pointer" := "sequential", "underflow" := "sequential", "ordering" := "sequential"]

  // An unknown category points at every anchor.
  function AnchorGroup(strategies: map<string, string>, category: string): string {
    if category in strategies then strategies[category] else "all"
  }

  function SourceAnchors(anchors: seq<string>, group: string): seq<string> {
    if group == "combinational" && |anchors| >= 3 then anchors[..3]
    else if group == "sequential" && |anchors| >= 2 then anchors[|anchors| - 2..]
    else anchors
  }

  function Ids(findings: seq<Finding>): seq<string> {
    seq(|findings|, k requires 0 <= k < |findings| => findings[k].id)
  }

  function Requirements(findings: seq<Finding>): seq<string> {
    seq(|findings|, k requires 0 <= k < |findings| => findings[k].requirement)
  }

  function Anchors(findings: seq<Finding>): seq<Anchor> {
    seq(|findings|, k requires 0 <= k < |findings| => findings[k].anchor)
  }

  function ChangeFor(strategies: map<string, string>, category: string, group: seq<Finding>,
                     anchors: seq<string>): Change {
    Change("repair.change." + category, Ids(group), Dedupe(Requirements(group)),
           SourceAnchors(anchors, AnchorGroup(strategies, category)), Dedupe(Anchors(group)))
  }

  function ChangesFor(strategies: map<string, string>, findings: seq<Finding>, keys: seq<string>, anchors: seq<string>,
                      order: seq<string>): (r: seq<Change>)
    requires |findings| == |keys|
    ensures |r| == |order|
  {
    seq(|order|, k requires 0 <= k < |order| => ChangeFor(strategies, order[k], Group(findings, keys, order[k]),
                                                          anchors))
  }

  function Linked(changes: seq<Change>): seq<string> {
    if changes == [] then [] else Linked(changes[..|changes| - 1]) + changes[|changes| - 1].findingIds
  }

  // The checks that bind a proposal to its report: the changes cover every finding, each exactly
  // once, and name only its anchors and exactly its requirements.
  ghost predicate Covers(findings: seq<Finding>, anchors: seq<string>, changes: seq<Change>) {
    && (forall id :: id in Linked(changes) <==> id in Ids(findings))
    && (forall i, j :: 0 <= i < j < |Linked(changes)| ==> Linked(changes)[i] != Linked(changes)[j])
    && forall c :: c in changes ==> ChangeCovers(findings, anchors, c)
  }

  predicate KnownUpTo(strategies: map<string, string>, order: seq<string>, n: nat)
    requires n <= |order|
  {
    n == 0 || (KnownUpTo(strategies, order, n - 1) && order[n - 1] in strategies)
  }

  // The changes of the first k categories, one each.
  ghost function Built(strategies: map<string, string>, order: seq<string>, grouped: map<string, seq<Finding>>,
                       anchors: seq<string>, k: nat): (r: seq<Change>)
    requires k <= |order| && forall c :: c in order ==> c in grouped
    ensures |r| == k
  {
    if k == 0 then [] else
    Built(strategies, order, grouped, anchors, k - 1) +
    [ChangeFor(strategies, order[k - 1], grouped[order[k - 1]], anchors)]
  }

  lemma {:induction false} BuiltAt(strategies: map<string, string>, order: seq<string>,
                                   grouped: map<string, seq<Finding>>, anchors: seq<string>, k: nat, j: nat)
    requires j < k <= |order| && forall c :: c in order ==> c in grouped
    ensures Built(strategies, order, grouped, anchors, k)[j] ==
            ChangeFor(strategies, order[j], grouped[order[j]], anchors)
  {
    if j < k - 1 {
      BuiltAt(strategies, order, grouped, anchors, k - 1, j);
    }
  }

  // The second loop: one change a category, in first-appearance order.
  method BuildChanges(strategies: map<string, string>, order: seq<string>, grouped: map<string, seq<Finding>>,
                      anchors: seq<string>)
    returns (r: Result<seq<Change>>, allKnown: bool)
    requires forall c :: c in order ==> c in grouped
    ensures r.Ok? <==> |order| == 0 || |anchors| > 0
    ensures r.Ok? ==> r.value == Built(strategies, order, grouped, anchors, |order|)
    ensures r.Ok? ==> (allKnown <==> KnownUpTo(strategies, order, |order|))
  {
    var changes: seq<Change> := [];
    allKnown := true;
    for k := 0 to |order|
      invariant k > 0 ==> |anchors| > 0
      invariant changes == Built(strategies, order, grouped, anchors, k)
      invariant allKnown <==> KnownUpTo(strategies, order, k)
    {
      var category := order[k];
      if category !in strategies {
        allKnown := false;
      }
      if |anchors| == 0 {
        return Err("FIFO repair proposal requires RTL source anchors"), allKnown;
      }
      changes := changes + [ChangeFor(strategies, category, grouped[category], anchors)];
    }
    return Ok(changes), allKnown;
  }

  lemma BuiltIsChangesFor(strategies: map<string, string>, order: seq<string>, grouped: map<string, seq<Finding>>,
                          anchors: seq<string>, findings: seq<Finding>, keys: seq<string>)
    requires |findings| == |keys| && Grouped(findings, keys, order, grouped)
    ensures Built(strategies, order, grouped, anchors, |order|) ==
            ChangesFor(strategies, findings, keys, anchors, order)
  {
    var built := Built(strategies, order, grouped, anchors, |order|);
    forall j | 0 <= j < |order|
      ensures built[j] == ChangeFor(strategies, order[j], Group(findings, keys, order[j]), anchors)
    {
      BuiltAt(strategies, order, grouped, anchors, |order|, j);
      assert GroupOr(grouped, order[j]) == Group(findings, keys, order[j]);
    }
  }

  method Propose(strategies: map<string, string>, session: string, findings: seq<Finding>, anchors: seq<string>)
    returns (r: Result<Proposal>)
    ensures r.Ok? <==> Parsable(session, findings) && findings != [] && anchors != []
    ensures r.Ok? ==>
      var keys := Categories(session, findings);
      var order := Dedupe(keys);
      && r.value.changes == ChangesFor(strategies, findings, keys, anchors, order)
      && r.value.confidencePercent == (if KnownUpTo(strategies, order, |order|) then 90 else 60)
  {
    var grouping := GroupByCategory(session, findings);
    if grouping.Err? {
      return Err(grouping.code);
    }
    var (order, grouped) := grouping.value;
    var built, allKnown := BuildChanges(strategies, order, grouped, anchors);
    ghost var keys := Categories(session, findings);
    assert findings != [] ==> keys[0] in order;
    if built.Err? {
      return Err(built.code);
    }
    if findings == [] {
      return Err("repair proposal requires a failing debug session");
    }
    BuiltIsChangesFor(strategies, order, grouped, anchors, findings, keys);
    return Ok(Proposal(built.value, if allKnown then 90 else 60));
  }

  // ---- Nothing lost, nothing twice ----------------------------------------------------

  function Within<T>(items: seq<T>, keys: seq<string>, order: seq<string>): seq<T>
    requires |items| == |keys|
  {
    if items == [] then [] else
    var last := |items| - 1;
    Within(items[..last], keys[..last], order) + (if keys[last] in order then [items[last]] else [])
  }

  function Concatenated<T>(items: seq<T>, keys: seq<string>, order: seq<string>): seq<T>
    requires |items| == |keys|
  {
    if order == [] then [] else
    Concatenated(items, keys, order[..|order| - 1]) + Group(items, keys, order[|order| - 1])
  }

  lemma {:induction false} WithinSplits<T>(items: seq<T>, keys: seq<string>, order: seq<string>, c: string)
    requires |items| == |keys| && c !in order
    ensures multiset(Within(items, keys, order + [c])) ==
            multiset(Within(items, keys, order)) + multiset(Group(items, keys, c))
  {
    if items != [] {
      var last := |items| - 1;
      assert keys[last] in order + [c] <==> keys[last] in order || keys[last] == c;
      WithinSplits(items[..last], keys[..last], order, c);
    }
  }

  lemma {:induction false} ConcatenatedIsWithin<T>(items: seq<T>, keys: seq<string>, order: seq<string>)
    requires |items| == |keys|
    requires forall i, j :: 0 <= i < j < |order| ==> order[i] != order[j]
    ensures multiset(Concatenated(items, keys, order)) == multiset(Within(items, keys, order))
  {
    if order == [] {
      WithinNothing(items, keys);
    } else {
      var before, c := order[..|order| - 1], order[|order| - 1];
      ConcatenatedIsWithin(items, keys, before);
      assert order == before + [c];
      WithinSplits(items, keys, before, c);
    }
  }

  lemma {:induction false} WithinNothing<T>(items: seq<T>, keys: seq<string>)
    requires |items| == |keys|
    ensures Within(items, keys, []) == []
  {
    if items != [] {
      WithinNothing(items[..|items| - 1], keys[..|items| - 1]);
    }
  }

  lemma {:induction false} WithinEverything<T>(items: seq<T>, keys: seq<string>, order: seq<string>)
    requires |items| == |keys| && forall k :: 0 <= k < |keys| ==> keys[k] in order
    ensures Within(items, keys, order) == items
  {
    if items != [] {
      WithinEverything(items[..|items| - 1], keys[..|items| - 1], order);
    }
  }

  lemma {:induction false} IdsOfGroup(findings: seq<Finding>, keys: seq<string>, c: string)
    requires |findings| == |keys|
    ensures Ids(Group(findings, keys, c)) == Group(Ids(findings), keys, c)
  {
    if findings != [] {
      var last := |findings| - 1;
      IdsOfGroup(findings[..last], keys[..last], c);
      assert Ids(findings)[..last] == Ids(findings[..last]);
    }
  }

  lemma {:induction false} LinkedIsConcatenated(strategies: map<string, string>, findings: seq<Finding>,
                                                keys: seq<string>, anchors: seq<string>, order: seq<string>)
    requires |findings| == |keys|
    ensures Linked(ChangesFor(strategies, findings, keys, anchors, order)) == Concatenated(Ids(findings), keys, order)
  {
    if order != [] {
      var before, c := order[..|order| - 1], order[|order| - 1];
      LinkedIsConcatenated(strategies, findings, keys, anchors, before);
      assert ChangesFor(strategies, findings, keys, anchors, order)[..|order| - 1] ==
             ChangesFor(strategies, findings, keys, anchors, before);
      IdsOfGroup(findings, keys, c);
    }
  }

  // The changes partition the findings: the linked identities are the report's identities,
  // none lost and none duplicated.
  lemma ChangesPartition(strategies: map<string, string>, findings: seq<Finding>, keys: seq<string>,
                         anchors: seq<string>)
    requires |findings| == |keys|
    ensures multiset(Linked(ChangesFor(strategies, findings, keys, anchors, Dedupe(keys)))) == multiset(Ids(findings))
  {
    LinkedIsConcatenated(strategies, findings, keys, anchors, Dedupe(keys));
    GroupsPartition(Ids(findings), keys);
  }

  lemma GroupsPartition<T>(items: seq<T>, keys: seq<string>)
    requires |items| == |keys|
    ensures multiset(Concatenated(items, keys, Dedupe(keys))) == multiset(items)
  {
    ConcatenatedIsWithin(items, keys, Dedupe(keys));
    WithinEverything(items, keys, Dedupe(keys));
  }

  lemma DistinctFromMultiset(a: seq<string>, b: seq<string>)
    requires multiset(a) == multiset(b)
    requires forall i, j :: 0 <= i < j < |b| ==> b[i] != b[j]
    ensures forall x :: x in a <==> x in b
    ensures forall i, j :: 0 <= i < j < |a| ==> a[i] != a[j]
  {
    forall x
      ensures x in a <==> x in b
    {
      assert x in a <==> x in multiset(a);
      assert x in b <==> x in multiset(b);
    }
    forall i, j | 0 <= i < j < |a|
      ensures a[i] != a[j]
    {
      if a[i] == a[j] {
        assert a == a[..i] + [a[i]] + a[i + 1..j] + [a[j]] + a[j + 1..];
        assert multiset(a)[a[i]] >= 2;
        AtMostOnce(b, a[i]);
      }
    }
  }

  lemma {:induction false} AtMostOnce(b: seq<string>, x: string)
    requires forall i, j :: 0 <= i < j < |b| ==> b[i] != b[j]
    ensures multiset(b)[x] <= 1
  {
    if b != [] {
      var prefix := b[..|b| - 1];
      AtMostOnce(prefix, x);
      assert b == prefix + [b[|b| - 1]];
      if b[|b| - 1] == x {
        assert x !in prefix;
        assert multiset(prefix)[x] == 0;
      }
    }
  }

  ghost predicate LinkedRequirement(findings: seq<Finding>, ids: seq<string>, q: string) {
    exists k :: 0 <= k < |findings| && findings[k].id in ids && findings[k].requirement == q
  }

  lemma {:induction false} AnchorsOfGroup(findings: seq<Finding>, keys: seq<string>, c: string)
    requires |findings| == |keys|
    ensures Anchors(Group(findings, keys, c)) == Group(Anchors(findings), keys, c)
  {
    if findings != [] {
      var last := |findings| - 1;
      AnchorsOfGroup(findings[..last], keys[..last], c);
      assert Anchors(findings)[..last] == Anchors(findings[..last]);
    }
  }

  lemma {:induction false} RequirementsOfGroup(findings: seq<Finding>, keys: seq<string>, c: string)
    requires |findings| == |keys|
    ensures Requirements(Group(findings, keys, c)) == Group(Requirements(findings), keys, c)
  {
    if findings != [] {
      var last := |findings| - 1;
      RequirementsOfGroup(findings[..last], keys[..last], c);
      assert Requirements(findings)[..last] == Requirements(findings[..last]);
    }
  }

  lemma GroupRequirement(findings: seq<Finding>, keys: seq<string>, c: string, q: string)
    requires |findings| == |keys|
    requires forall i, j :: 0 <= i < j < |findings| ==> findings[i].id != findings[j].id
    ensures q in Group(Requirements(findings), keys, c) <==>
            LinkedRequirement(findings, Group(Ids(findings), keys, c), q)
  {
    if q in Group(Requirements(findings), keys, c) {
      GroupMembers(Requirements(findings), keys, c);
      var n :| 0 <= n < |findings| && keys[n] == c && Requirements(findings)[n] == q;
      IdInGroup(findings, keys, c, n);
      assert findings[n].requirement == q;
    }
    if LinkedRequirement(findings, Group(Ids(findings), keys, c), q) {
      var k :| 0 <= k < |findings| && findings[k].id in Group(Ids(findings), keys, c) && findings[k].requirement == q;
      IdInGroup(findings, keys, c, k);
      GroupMembers(Requirements(findings), keys, c);
      assert Requirements(findings)[k] == q;
    }
  }

  // An identity is in a group if and only if its own finding is.
  lemma IdInGroup(findings: seq<Finding>, keys: seq<string>, c: string, k: nat)
    requires |findings| == |keys| && k < |findings|
    requires forall i, j :: 0 <= i < j < |findings| ==> findings[i].id != findings[j].id
    ensures findings[k].id in Group(Ids(findings), keys, c) <==> keys[k] == c
  {
    var ids := Ids(findings);
    GroupMembers(ids, keys, c);
    if findings[k].id in Group(ids, keys, c) {
      var n :| 0 <= n < |ids| && keys[n] == c && ids[n] == findings[k].id;
      assert findings[n].id == findings[k].id;
    }
    assert ids[k] == findings[k].id;
  }

  lemma GroupNonempty(findings: seq<Finding>, keys: seq<string>, c: string)
    requires |findings| == |keys| && c in Dedupe(keys)
    ensures var group := Group(findings, keys, c);
            Ids(group) != [] && Dedupe(Requirements(group)) != [] && Dedupe(Anchors(group)) != []
  {
    var group := Group(findings, keys, c);
    IdsOfGroup(findings, keys, c);
    GroupMembers(Ids(findings), keys, c);
    var n :| 0 <= n < |keys| && keys[n] == c;
    assert Ids(findings)[n] in Ids(group);
    assert Requirements(group)[0] in Dedupe(Requirements(group)) && Anchors(group)[0] in Dedupe(Anchors(group));
  }

  lemma GroupAnchorsKnown(findings: seq<Finding>, keys: seq<string>, c: string)
    requires |findings| == |keys|
    ensures forall a :: a in Anchors(Group(findings, keys, c)) ==> a in Anchors(findings)
  {
    AnchorsOfGroup(findings, keys, c);
    GroupMembers(Anchors(findings), keys, c);
  }

  ghost predicate ChangeCovers(findings: seq<Finding>, anchors: seq<string>, c: Change) {
    && c.findingIds != [] && c.requirementIds != [] && c.waveformAnchors != []
    && (forall a :: a in c.sourceAnchors ==> a in anchors)
    && (forall a :: a in c.waveformAnchors ==> a in Anchors(findings))
    && (forall q :: q in c.requirementIds <==> LinkedRequirement(findings, c.findingIds, q))
  }

  lemma ChangeFacts(strategies: map<string, string>, findings: seq<Finding>, keys: seq<string>, anchors: seq<string>,
                    c: string)
    requires |findings| == |keys| && c in Dedupe(keys)
    requires forall i, j :: 0 <= i < j < |findings| ==> findings[i].id != findings[j].id
    ensures ChangeCovers(findings, anchors, ChangeFor(strategies, c, Group(findings, keys, c), anchors))
  {
    var change := ChangeFor(strategies, c, Group(findings, keys, c), anchors);
    GroupNonempty(findings, keys, c);
    GroupAnchorsKnown(findings, keys, c);
    forall q
      ensures q in change.requirementIds <==> LinkedRequirement(findings, change.findingIds, q)
    {
      IdsOfGroup(findings, keys, c);
      RequirementsOfGroup(findings, keys, c);
      GroupRequirement(findings, keys, c, q);
    }
  }

  lemma EveryChangeCovers(strategies: map<string, string>, findings: seq<Finding>, keys: seq<string>,
                          anchors: seq<string>, c: Change)
    requires |findings| == |keys| && c in ChangesFor(strategies, findings, keys, anchors, Dedupe(keys))
    requires forall i, j :: 0 <= i < j < |findings| ==> findings[i].id != findings[j].id
    ensures ChangeCovers(findings, anchors, c)
  {
    var order := Dedupe(keys);
    var changes := ChangesFor(strategies, findings, keys, anchors, order);
    var k :| 0 <= k < |changes| && c == changes[k];
    ChangeFacts(strategies, findings, keys, anchors, order[k]);
  }

  // Every proposal the grouping makes passes the checks of the proposal builder.
  lemma ProposalAlwaysCovers(strategies: map<string, string>, findings: seq<Finding>, keys: seq<string>,
                             anchors: seq<string>)
    requires |findings| == |keys|
    requires forall i, j :: 0 <= i < j < |findings| ==> findings[i].id != findings[j].id
    ensures Covers(findings, anchors, ChangesFor(strategies, findings, keys, anchors, Dedupe(keys)))
  {
    var changes := ChangesFor(strategies, findings, keys, anchors, Dedupe(keys));
    LinksAreIds(strategies, findings, keys, anchors);
    forall c | c in changes
      ensures ChangeCovers(findings, anchors, c)
    {
      EveryChangeCovers(strategies, findings, keys, anchors, c);
    }
  }

  lemma LinksAreIds(strategies: map<string, string>, findings: seq<Finding>, keys: seq<string>, anchors: seq<string>)
    requires |findings| == |keys|
    requires forall i, j :: 0 <= i < j < |findings| ==> findings[i].id != findings[j].id
    ensures var linked := Linked(ChangesFor(strategies, findings, keys, anchors, Dedupe(keys)));
            (forall id :: id in linked <==> id in Ids(findings)) && forall i, j :: 0 <= i < j < |linked| ==>
              linked[i] != linked[j]
  {
    ChangesPartition(strategies, findings, keys, anchors);
    DistinctFromMultiset(Linked(ChangesFor(strategies, findings, keys, anchors, Dedupe(keys))), Ids(findings));
  }

  // ---- The window that shows every finding --------------------------------------------

  datatype Focus = Focus(startFs: int, endFs: int, signals: seq<string>, markers: seq<nat>)

  const FIFO_SIGNALS := [
    "clk", "rst_n", "wr_valid", "wr_ready", "write_accepted", "wr_data", "rd_valid", "rd_ready",
    "read_accepted", "rd_data", "level", "full", "empty", "write_pointer", "read_pointer"]

  const CAUSAL_SUFFIXES := {
    "clk", "rst_n", "wr_valid", "wr_ready", "write_accepted", "rd_valid", "rd_ready",
    "read_accepted", "level", "full", "empty"}

  function Causal(signals: seq<string>, suffixes: set<string>): seq<string> {
    if signals == [] then [] else
    var last := signals[|signals| - 1];
    Causal(signals[..|signals| - 1], suffixes) + (if LastDot(last).2 in suffixes then [last] else [])
  }

  function FindingSignals(findings: seq<Finding>): seq<string> {
    if findings == [] then [] else
    FindingSignals(findings[..|findings| - 1]) + findings[|findings| - 1].anchor.signals
  }

  function Markers(findings: seq<Finding>): seq<nat> {
    if findings == [] then [] else
    Markers(findings[..|findings| - 1]) + findings[|findings| - 1].anchor.markers
  }

  function EarliestStart(findings: seq<Finding>): int
    requires findings != []
  {
    var last := findings[|findings| - 1].anchor.startFs;
    if |findings| == 1 then last else Min(EarliestStart(findings[..|findings| - 1]), last)
  }

  function LatestEnd(findings: seq<Finding>): int
    requires findings != []
  {
    var last := findings[|findings| - 1].anchor.endFs;
    if |findings| == 1 then last else Max(LatestEnd(findings[..|findings| - 1]), last)
  }

  function Times(observations: seq<Observation>): seq<nat> {
    seq(|observations|, k requires 0 <= k < |observations| => observations[k].t)
  }

  // The smallest distance between two successive times, if there are two.
  function SmallestGap(times: seq<nat>): nat
    requires Increasing(times)
  {
    if |times| < 2 then 0 else
    var gap := times[|times| - 1] - times[|times| - 2];
    if |times| == 2 then gap else Min(SmallestGap(times[..|times| - 1]), gap)
  }

  function FocusOf(report: Report, signals: seq<string>, suffixes: set<string>): Result<Focus> {
    if report.findings == [] then Err("repair focus requires debug findings") else
    var padding := SmallestGap(SortedSet(Times(report.observations))) / 2;
    Ok(Focus(
      Max(report.window.startFs, EarliestStart(report.findings) - padding),
      Min(report.window.endFs, LatestEnd(report.findings) + padding),
      Dedupe(Causal(signals, suffixes) + FindingSignals(report.findings)),
      SortedSet(Markers(report.findings))))
  }

  lemma {:induction false} Extremes(findings: seq<Finding>)
    requires findings != []
    ensures forall k :: 0 <= k < |findings| ==>
              EarliestStart(findings) <= findings[k].anchor.startFs && findings[k].anchor.endFs <= LatestEnd(findings)
  {
    if |findings| > 1 {
      Extremes(findings[..|findings| - 1]);
    }
  }

  lemma {:induction false} Collected(findings: seq<Finding>)
    ensures forall t :: t in Markers(findings) <==> exists k :: 0 <= k < |findings| && t in findings[k].anchor.markers
    ensures forall k :: 0 <= k < |findings| ==> forall s :: s in findings[k].anchor.signals ==>
            s in FindingSignals(findings)
  {
    if findings != [] {
      var last := |findings| - 1;
      var prefix := findings[..last];
      Collected(prefix);
      forall t
        ensures t in Markers(findings) <==> exists k :: 0 <= k < |findings| && t in findings[k].anchor.markers
      {
        if k :| 0 <= k < |findings| && t in findings[k].anchor.markers {
          assert k < last ==> t in prefix[k].anchor.markers;
        }
        if t in Markers(prefix) {
          var k :| 0 <= k < last && t in prefix[k].anchor.markers;
          assert t in findings[k].anchor.markers;
        }
      }
      forall k | 0 <= k < |findings|
        ensures forall s :: s in findings[k].anchor.signals ==> s in FindingSignals(findings)
      {
        assert k < last ==> findings[k] == prefix[k];
      }
    }
  }

  ghost predicate Shows(report: Report, focus: Focus) {
    && report.window.startFs <= focus.startFs <= focus.endFs <= report.window.endFs
    && (forall t :: t in focus.markers ==> focus.startFs <= t <= focus.endFs)
    && Increasing(focus.markers) && focus.signals != []
    && forall k :: 0 <= k < |report.findings| ==>
         var a := report.findings[k].anchor;
         && focus.startFs <= a.startFs && a.endFs <= focus.endFs
         && (forall t :: t in a.markers ==> t in focus.markers)
         && (forall s :: s in a.signals ==> s in focus.signals)
  }

  // The focus shows every finding: its anchor, its markers and its signals, and it stays inside
  // the report's window.
  lemma FocusShowsEverything(report: Report, signals: seq<string>, suffixes: set<string>)
    requires report.findings != []
    requires forall k :: 0 <= k < |report.findings| ==> AnchorSound(report.window, report.findings[k].anchor)
    ensures var focus := FocusOf(report, signals, suffixes); focus.Ok? && Shows(report, focus.value)
  {
    var findings := report.findings;
    var focus := FocusOf(report, signals, suffixes).value;
    Extremes(findings);
    Collected(findings);
    assert findings[0].anchor.signals[0] in FindingSignals(findings);
    forall t | t in focus.markers
      ensures focus.startFs <= t <= focus.endFs
    {
      var k :| 0 <= k < |findings| && t in findings[k].anchor.markers;
      assert AnchorSound(report.window, findings[k].anchor);
    }
    assert AnchorSound(report.window, findings[0].anchor);
  }

  // ---- Identities in a report are unique ----------------------------------------------

  function Rank(k: Kind): nat {
    match k
    case WriteHandshake => 0 case ReadHandshake => 1 case Backpressure => 2 case ReadValid => 3
    case Level => 4 case Full => 5 case Empty => 6 case WritePointer => 7 case ReadPointer => 8
    case Underflow => 9 case Ordering => 10
  }

  // In report order the kinds of one edge go up through this range.
  ghost predicate Ranked(vs: seq<Violation>, lo: nat, hi: nat) {
    && (forall i :: 0 <= i < |vs| ==> lo <= Rank(vs[i].kind) < hi)
    && forall i, j :: 0 <= i < j < |vs| ==> Rank(vs[i].kind) < Rank(vs[j].kind)
  }

  lemma RankedConcat(a: seq<Violation>, b: seq<Violation>, lo: nat, mid: nat, hi: nat)
    requires Ranked(a, lo, mid) && Ranked(b, mid, hi) && lo <= mid <= hi
    ensures Ranked(a + b, lo, hi)
  {
  }

  lemma RankedSix(a: seq<Violation>, b: seq<Violation>, c: seq<Violation>, d: seq<Violation>, e: seq<Violation>,
                  f: seq<Violation>)
    requires Ranked(a, 0, 2) && Ranked(b, 2, 4) && Ranked(c, 4, 5) && Ranked(d, 5, 7) && Ranked(e, 7, 9)
             && Ranked(f, 9, 11)
    ensures Ranked(a + b + c + d + e + f, 0, 11)
  {
    RankedConcat(a, b, 0, 2, 4);
    RankedConcat(a + b, c, 0, 4, 5);
    RankedConcat(a + b + c, d, 0, 5, 7);
    RankedConcat(a + b + c + d, e, 0, 7, 9);
    RankedConcat(a + b + c + d + e, f, 0, 9, 11);
  }

  lemma HandshakesRanked(e: Edge) ensures Ranked(HandshakeViolations(e), 0, 2) {}
  lemma ReadinessRanked(e: Edge) ensures Ranked(ReadinessViolations(e), 2, 4) {}
  lemma LevelRanked(e: Edge) ensures Ranked(LevelViolations(e), 4, 5) {}
  lemma StatusRanked(depth: nat, e: Edge) ensures Ranked(StatusViolations(depth, e), 5, 7) {}
  lemma PointersRanked(depth: nat, e: Edge) requires depth >= 2 ensures Ranked(PointerViolations(depth, e), 7, 9)
  {
    var w, r := WritePointerViolations(depth, e), ReadPointerViolations(depth, e);
    assert PointerViolations(depth, e) == w + r;
    RankedConcat(w, r, 7, 8, 9);
  }
  lemma DataRanked(m: Monitor, e: Edge) ensures Ranked(DataViolations(m, e), 9, 11) {}

  lemma EdgeKindsAscend(depth: nat, m: Monitor, e: Edge)
    requires depth >= 2
    ensures Ranked(EdgeViolations(depth, m, e), 0, 11)
  {
    HandshakesRanked(e);
    ReadinessRanked(e);
    LevelRanked(e);
    StatusRanked(depth, e);
    PointersRanked(depth, e);
    DataRanked(Synced(m, e), e);
    RankedSix(HandshakeViolations(e), ReadinessViolations(e), LevelViolations(e), StatusViolations(depth, e),
              PointerViolations(depth, e), DataViolations(Synced(m, e), e));
  }

  ghost predicate DistinctFrom(startFs: nat, edges: seq<Edge>) {
    forall i, j :: 0 <= i < j < |edges| && edges[i].t >= startFs && edges[j].t >= startFs ==> edges[i].t != edges[j].t
  }

  ghost predicate DistinctRaised(startFs: nat, raised: seq<Raised>) {
    forall i, j :: 0 <= i < j < |raised| && raised[i].t >= startFs && raised[j].t >= startFs ==>
      raised[i].t != raised[j].t || raised[i].violation.kind != raised[j].violation.kind
  }

  ghost predicate HasTime(edges: seq<Edge>, t: nat) {
    exists k :: 0 <= k < |edges| && edges[k].t == t
  }

  // Every raised violation carries the time of some edge.
  ghost predicate TimedBy(raised: seq<Raised>, edges: seq<Edge>) {
    forall i :: 0 <= i < |raised| ==> HasTime(edges, raised[i].t)
  }

  lemma HasTimeGrows(edges: seq<Edge>, e: Edge, t: nat)
    requires HasTime(edges, t) || e.t == t
    ensures HasTime(edges + [e], t)
  {
    if e.t == t {
      assert (edges + [e])[|edges|].t == t;
    } else {
      var k :| 0 <= k < |edges| && edges[k].t == t;
      assert (edges + [e])[k].t == t;
    }
  }

  lemma TimedByGrows(before: seq<Raised>, here: seq<Violation>, edges: seq<Edge>, e: Edge)
    requires TimedBy(before, edges)
    ensures TimedBy(before + Timed(e.t, here), edges + [e])
  {
    var raised := before + Timed(e.t, here);
    forall i | 0 <= i < |raised|
      ensures HasTime(edges + [e], raised[i].t)
    {
      HasTimeGrows(edges, e, raised[i].t);
    }
  }

  lemma DistinctRaisedGrows(startFs: nat, before: seq<Raised>, here: seq<Violation>, edges: seq<Edge>, e: Edge)
    requires TimedBy(before, edges) && DistinctRaised(startFs, before) && Ranked(here, 0, 11)
    requires forall k :: 0 <= k < |edges| && edges[k].t >= startFs && e.t >= startFs ==> edges[k].t != e.t
    ensures DistinctRaised(startFs, before + Timed(e.t, here))
  {
    forall i | 0 <= i < |before| && before[i].t >= startFs && e.t >= startFs
      ensures before[i].t != e.t
    {
      assert HasTime(edges, before[i].t);
      var k :| 0 <= k < |edges| && edges[k].t == before[i].t;
    }
  }

  lemma {:induction false} RaisedDistinct(startFs: nat, depth: nat, edges: seq<Edge>)
    requires depth >= 2 && DistinctFrom(startFs, edges)
    ensures DistinctRaised(startFs, RaisedBy(depth, edges)) && TimedBy(RaisedBy(depth, edges), edges)
  {
    if edges != [] {
      var last := |edges| - 1;
      var prefix, e, here := edges[..last], edges[last], ViolationsAt(depth, edges, last);
      LastEdge(depth, edges);
      EdgeKindsAscend(depth, After(prefix), e);
      RaisedDistinct(startFs, depth, prefix);
      DistinctRaisedGrows(startFs, RaisedBy(depth, prefix), here, prefix, e);
      TimedByGrows(RaisedBy(depth, prefix), here, prefix, e);
      PrefixGrows(edges, last);
      WholePrefix(edges);
    }
  }

  ghost predicate Names(w: Window, raised: seq<Raised>, id: string) {
    exists k :: 0 <= k < |raised| && raised[k].t >= w.startFs
      && id == FindingId(w.session, raised[k].violation.kind, raised[k].t)
  }

  ghost predicate IdsFrom(w: Window, ids: seq<string>, raised: seq<Raised>) {
    forall i :: 0 <= i < |ids| ==> Names(w, raised, ids[i])
  }

  lemma NamesGrows(w: Window, raised: seq<Raised>, r: Raised, id: string)
    requires Names(w, raised, id) || (r.t >= w.startFs && id == FindingId(w.session, r.violation.kind, r.t))
    ensures Names(w, raised + [r], id)
  {
    var after := raised + [r];
    if Names(w, raised, id) {
      var k :| 0 <= k < |raised| && raised[k].t >= w.startFs
        && id == FindingId(w.session, raised[k].violation.kind, raised[k].t);
      assert after[k] == raised[k];
    } else {
      assert after[|raised|] == r;
    }
  }

  lemma IdsFromGrows(w: Window, ids: seq<string>, raised: seq<Raised>, r: Raised)
    requires IdsFrom(w, ids, raised)
    ensures IdsFrom(w, ids, raised + [r])
    ensures r.t >= w.startFs ==> IdsFrom(w, ids + [FindingId(w.session, r.violation.kind, r.t)], raised + [r])
  {
    forall i | 0 <= i < |ids|
      ensures Names(w, raised + [r], ids[i])
    {
      NamesGrows(w, raised, r, ids[i]);
    }
    if r.t >= w.startFs {
      NamesGrows(w, raised, r, FindingId(w.session, r.violation.kind, r.t));
    }
  }

  lemma NewId(w: Window, ids: seq<string>, raised: seq<Raised>, r: Raised)
    requires IdsFrom(w, ids, raised) && DistinctRaised(w.startFs, raised + [r]) && r.t >= w.startFs
    ensures FindingId(w.session, r.violation.kind, r.t) !in ids
  {
    var id := FindingId(w.session, r.violation.kind, r.t);
    if id in ids {
      assert Names(w, raised, id);
      var k :| 0 <= k < |raised| && raised[k].t >= w.startFs
        && id == FindingId(w.session, raised[k].violation.kind, raised[k].t);
      assert (raised + [r])[k] == raised[k] && (raised + [r])[|raised|] == r;
      FindingIdInjective(w.session, r.violation.kind, r.t, raised[k].violation.kind, raised[k].t);
      assert false;
    }
  }

  lemma RenderLast(w: Window, raised: seq<Raised>)
    requires raised != []
    ensures var last := raised[|raised| - 1];
            Ids(Render(w, raised)) == Ids(Render(w, raised[..|raised| - 1]))
              + (if last.t < w.startFs then [] else [FindingId(w.session, last.violation.kind, last.t)])
  {
    var prefix, last := raised[..|raised| - 1], raised[|raised| - 1];
    if last.t < w.startFs {
      IdsConcat(Render(w, prefix), []);
    } else {
      var f := FindingOf(w, last.t, last.violation);
      IdsConcat(Render(w, prefix), [f]);
      IdsOne(f);
    }
  }

  lemma IdsOne(f: Finding)
    ensures Ids([f]) == [f.id]
  {
  }

  lemma IdsConcat(a: seq<Finding>, b: seq<Finding>)
    ensures Ids(a + b) == Ids(a) + Ids(b)
  {
  }

  lemma {:induction false} RenderedIdsDistinct(w: Window, raised: seq<Raised>)
    requires DistinctRaised(w.startFs, raised)
    ensures var ids := Ids(Render(w, raised));
            IdsFrom(w, ids, raised) && forall i, j :: 0 <= i < j < |ids| ==> ids[i] != ids[j]
  {
    if raised != [] {
      var prefix, last := raised[..|raised| - 1], raised[|raised| - 1];
      WholePrefix(raised);
      PrefixGrows(raised, |raised| - 1);
      RenderedIdsDistinct(w, prefix);
      RenderLast(w, raised);
      var before := Ids(Render(w, prefix));
      IdsFromGrows(w, before, prefix, last);
      if last.t >= w.startFs {
        NewId(w, before, prefix, last);
      }
    }
  }

  // A report over edges whose windowed times differ never repeats a finding identity.
  lemma FindingIdsUnique(w: Window, depth: nat, edges: seq<Edge>)
    requires depth >= 2 && DistinctFrom(w.startFs, edges)
    ensures var ids := Ids(Findings(w, depth, edges)); forall i, j :: 0 <= i < j < |ids| ==> ids[i] != ids[j]
  {
    RaisedDistinct(w.startFs, depth, edges);
    RenderedIdsDistinct(w, RaisedBy(depth, edges));
    FindingsAreRendered(w, depth, edges);
  }

  lemma {:induction false} FindingsParse(w: Window, raised: seq<Raised>)
    ensures Parsable(w.session, Render(w, raised))
  {
    if raised != [] {
      var last := raised[|raised| - 1];
      FindingsParse(w, raised[..|raised| - 1]);
      CategoryIsKind(w.session, last.violation.kind, last.t);
    }
  }

  // Every identity the monitor makes has a category, so every report with findings gets a proposal.
  lemma ReportParses(w: Window, depth: nat, edges: seq<Edge>)
    requires depth >= 2
    ensures Parsable(w.session, Findings(w, depth, edges))
  {
    FindingsParse(w, RaisedBy(depth, edges));
    FindingsAreRendered(w, depth, edges);
  }

  lemma DistinctById(findings: seq<Finding>)
    requires forall i, j :: 0 <= i < j < |Ids(findings)| ==> Ids(findings)[i] != Ids(findings)[j]
    ensures forall i, j :: 0 <= i < j < |findings| ==> findings[i].id != findings[j].id
  {
    assert forall k :: 0 <= k < |findings| ==> Ids(findings)[k] == findings[k].id;
  }

  // And that proposal covers each finding of the report exactly once.
  lemma ReportIsCovered(w: Window, depth: nat, edges: seq<Edge>, findings: seq<Finding>, keys: seq<string>,
                        strategies: map<string, string>, anchors: seq<string>)
    requires depth >= 2 && DistinctFrom(w.startFs, edges)
    requires findings == Findings(w, depth, edges) && |keys| == |findings|
    ensures Covers(findings, anchors, ChangesFor(strategies, findings, keys, anchors, Dedupe(keys)))
  {
    FindingIdsUnique(w, depth, edges);
    DistinctById(findings);
    ProposalAlwaysCovers(strategies, findings, keys, anchors);
  }
}
