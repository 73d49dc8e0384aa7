// Bounding a private trace payload: a recursive walk with shared counters that redacts, cuts and
// stops, whose own output the reader walks again.
module BoundedTrace {
  import opened Outcomes

  const MAX_NODES := 4096
  const MAX_DEPTH := 16
  const MAX_KEY := 256
  const MAX_CONTENT_BYTES := 256 * 1024

  // A payload. The fields of an object are listed in the order a walk meets them; `Opaque` is a
  // value JSON cannot carry.
  datatype Tree = Null | Flag(on: bool) | Number(value: real) | Text(text: string) | Opaque
                | Array(items: Items) | Object(fields: Fields)
  datatype Items = NoItems | Item(head: Tree, tail: Items)
  datatype Fields = NoFields | Field(key: string, value: Tree, rest: Fields)

  // What the walk is given: the texts it writes, which keys are secret, and the text scrubber.
  datatype Policy = Policy(
    omitted: string,              // "[omitted: trace structure limit]"
    redacted: string,             // "[redacted]"
    why: (string, string),        // the field "omitted" of a preview and its text "record_size_limit"
    shown: string,                // the field "preview"
    secret: string -> bool,
    scrub: string -> string,
    redact: Tree -> Tree,         // the library's own pass, before every walk
    encode: Tree -> string)       // canonical text, with sorted keys, all ASCII

  // ---- Text ---------------------------------------------------------------------------

  function Width(c: char): (n: nat)
    ensures 1 <= n <= 4
  {
    if c as int < 0x80 then 1 else if c as int < 0x800 then 2 else if c as int < 0x10000 then 3 else 4
  }

  function ByteLength(s: string): nat {
    if |s| == 0 then 0 else Width(s[0]) + ByteLength(s[1..])
  }

  // The longest prefix that encodes into the budget: cutting bytes and dropping a torn character.
  function Cut(s: string, budget: nat): (r: string)
    ensures r <= s && ByteLength(r) <= budget
  {
    if |s| == 0 || Width(s[0]) > budget then "" else [s[0]] + Cut(s[1..], budget - Width(s[0]))
  }

  lemma {:induction false} CutKeepsWhatFits(s: string, budget: nat)
    ensures Cut(s, budget) == s <==> ByteLength(s) <= budget
  {
    if |s| > 0 && Width(s[0]) <= budget {
      CutKeepsWhatFits(s[1..], budget - Width(s[0]));
      assert s == [s[0]] + s[1..];
    }
  }

  function CleanText(p: Policy, s: string): string {
    Cut(p.scrub(s), MAX_CONTENT_BYTES)
  }

  // The omission marker passes through the scrubber unchanged.
  ghost predicate Words(p: Policy) {
    CleanText(p, p.omitted) == p.omitted && ByteLength(p.scrub(p.omitted)) <= MAX_CONTENT_BYTES
  }

  // ---- The walk -----------------------------------------------------------------------

  datatype Walk<T> = Walk(value: T, visited: nat, truncated: bool)

  function Clean(p: Policy, v: Tree, depth: nat, visited: nat): Result<Walk<Tree>>
    decreases v
  {
    var n := visited + 1;
    if n > MAX_NODES || depth > MAX_DEPTH then Ok(Walk(Text(p.omitted), n, true)) else
    match v
    case Object(fields) =>
      var w := CleanFields(p, fields, depth, n);
      if w.Err? then Err(w.code) else Ok(Walk(Object(w.value.value), w.value.visited, w.value.truncated))
    case Array(items) =>
      var w := CleanItems(p, items, depth, n);
      if w.Err? then Err(w.code) else Ok(Walk(Array(w.value.value), w.value.visited, w.value.truncated))
    case Text(s) => Ok(Walk(Text(CleanText(p, s)), n, ByteLength(p.scrub(s)) > MAX_CONTENT_BYTES))
    case Opaque => Err("private_trace_value_invalid")
    case _ => Ok(Walk(v, n, false))
  }

  function CleanItems(p: Policy, items: Items, depth: nat, visited: nat): Result<Walk<Items>>
    decreases items
  {
    match items
    case NoItems => Ok(Walk(NoItems, visited, false))
    case Item(head, tail) =>
      var h := Clean(p, head, depth + 1, visited);
      if h.Err? then Err(h.code)
      else if h.value.visited > MAX_NODES
        then Ok(Walk(Item(h.value.value, NoItems), h.value.visited, h.value.truncated))
      else
        var t := CleanItems(p, tail, depth, h.value.visited);
        if t.Err? then Err(t.code)
        else Ok(Walk(Item(h.value.value, t.value.value), t.value.visited, h.value.truncated || t.value.truncated))
  }

  function CleanFields(p: Policy, fields: Fields, depth: nat, visited: nat): Result<Walk<Fields>>
    decreases fields
  {
    match fields
    case NoFields => Ok(Walk(NoFields, visited, false))
    case Field(key, value, rest) =>
      if |key| > MAX_KEY then Err("private_trace_key_invalid") else
      var h := if p.secret(key) then Ok(Walk(Text(p.redacted), visited, false))
        else Clean(p, value, depth + 1, visited);
      if h.Err? then Err(h.code)
      else if h.value.visited > MAX_NODES
        then Ok(Walk(Field(key, h.value.value, NoFields), h.value.visited, h.value.truncated))
      else
        var t := CleanFields(p, rest, depth, h.value.visited);
        if t.Err? then Err(t.code)
        else Ok(Walk(Field(key, h.value.value, t.value.value), t.value.visited, h.value.truncated || t.value.truncated))
  }

  // ---- Canonical order ----------------------------------------------------------------

  // Keys by code point, the order canonical text stores them in.
  predicate Before(a: string, b: string) {
    |a| == 0 || (|b| > 0 && (a[0] < b[0] || (a[0] == b[0] && Before(a[1..], b[1..]))))
  }

  function Insert(key: string, value: Tree, fields: Fields): Fields {
    match fields
    case NoFields => Field(key, value, NoFields)
    case Field(k, v, rest) =>
      if Before(key, k) then Field(key, value, fields) else Field(k, v, Insert(key, value, rest))
  }

  // The tree that reading the canonical text gives back.
  function Canon(v: Tree): Tree {
    match v
    case Object(fields) => Object(CanonFields(fields))
    case Array(items) => Array(CanonItems(items))
    case _ => v
  }

  function CanonItems(items: Items): Items {
    match items
    case NoItems => NoItems
    case Item(head, tail) => Item(Canon(head), CanonItems(tail))
  }

  function CanonFields(fields: Fields): Fields {
    match fields
    case NoFields => NoFields
    case Field(key, value, rest) => Insert(key, Canon(value), CanonFields(rest))
  }

  // Every object of the tree lists its keys in canonical order.
  predicate Sorted(v: Tree) {
    match v
    case Object(fields) => SortedFields(fields)
    case Array(items) => SortedItems(items)
    case _ => true
  }

  predicate SortedItems(items: Items) {
    match items
    case NoItems => true
    case Item(head, tail) => Sorted(head) && SortedItems(tail)
  }

  predicate SortedFields(fields: Fields) {
    match fields
    case NoFields => true
    case Field(key, value, rest) => Sorted(value) && SortedFields(rest) && (rest.Field? ==> Before(key, rest.key))
  }

  lemma {:induction false} BeforeIsTotal(a: string, b: string)
    ensures Before(a, b) || Before(b, a)
  {
    if |a| > 0 && |b| > 0 && a[0] == b[0] {
      BeforeIsTotal(a[1..], b[1..]);
    }
  }

  lemma {:induction false} BeforeIsTransitive(a: string, b: string, c: string)
    requires Before(a, b) && Before(b, c)
    ensures Before(a, c)
  {
    if |a| > 0 && a[0] == b[0] == c[0] {
      BeforeIsTransitive(a[1..], b[1..], c[1..]);
    }
  }

  lemma {:induction false} InsertKeepsOrder(key: string, value: Tree, fields: Fields)
    requires Sorted(value) && SortedFields(fields)
    ensures SortedFields(Insert(key, value, fields))
  {
    if fields.Field? && !Before(key, fields.key) {
      BeforeIsTotal(key, fields.key);
      InsertKeepsOrder(key, value, fields.rest);
    }
  }

  // Storing sorts every object, and sorts nothing that is sorted already.
  lemma {:induction false} CanonSorts(v: Tree)
    ensures Sorted(Canon(v)) && (Sorted(v) ==> Canon(v) == v)
    decreases v
  {
    match v
    case Object(fields) => CanonSortsFields(fields);
    case Array(items) => CanonSortsItems(items);
    case _ =>
  }

  lemma {:induction false} CanonSortsItems(items: Items)
    ensures SortedItems(CanonItems(items)) && (SortedItems(items) ==> CanonItems(items) == items)
    decreases items
  {
    if items.Item? {
      CanonSorts(items.head);
      CanonSortsItems(items.tail);
    }
  }

  lemma {:induction false} CanonSortsFields(fields: Fields)
    ensures SortedFields(CanonFields(fields)) && (SortedFields(fields) ==> CanonFields(fields) == fields)
    decreases fields
  {
    if fields.Field? {
      CanonSorts(fields.value);
      CanonSortsFields(fields.rest);
      InsertKeepsOrder(fields.key, Canon(fields.value), CanonFields(fields.rest));
    }
  }

  // ---- What a walk leaves behind ------------------------------------------------------

  // Nodes a walk without a budget would visit; the child of a secret key is none of them, and
  // below the depth limit nothing is entered.
  function Nodes(p: Policy, v: Tree, depth: nat): (n: nat)
    ensures n >= 1
    decreases v
  {
    if depth > MAX_DEPTH then 1 else
    match v
    case Object(fields) => 1 + NodesOfFields(p, fields, depth)
    case Array(items) => 1 + NodesOfItems(p, items, depth)
    case _ => 1
  }

  function NodesOfItems(p: Policy, items: Items, depth: nat): nat
    decreases items
  {
    match items
    case NoItems => 0
    case Item(head, tail) => Nodes(p, head, depth + 1) + NodesOfItems(p, tail, depth)
  }

  function NodesOfFields(p: Policy, fields: Fields, depth: nat): nat
    decreases fields
  {
    match fields
    case NoFields => 0
    case Field(key, value, rest) =>
      (if p.secret(key) then 0 else Nodes(p, value, depth + 1)) + NodesOfFields(p, rest, depth)
  }

  // Nothing left for another walk to change, apart from texts and the budget.
  predicate Tidy(p: Policy, v: Tree, depth: nat)
    decreases v
  {
    if depth > MAX_DEPTH then v == Text(p.omitted) else
    match v
    case Object(fields) => TidyFields(p, fields, depth)
    case Array(items) => TidyItems(p, items, depth)
    case Opaque => false
    case _ => true
  }

  predicate TidyItems(p: Policy, items: Items, depth: nat)
    decreases items
  {
    match items
    case NoItems => true
    case Item(head, tail) => Tidy(p, head, depth + 1) && TidyItems(p, tail, depth)
  }

  predicate TidyFields(p: Policy, fields: Fields, depth: nat)
    decreases fields
  {
    match fields
    case NoFields => true
    case Field(key, value, rest) =>
      && |key| <= MAX_KEY && TidyFields(p, rest, depth)
      && (if p.secret(key) then value == Text(p.redacted) else Tidy(p, value, depth + 1))
  }

  // Some visited node lies below the depth limit.
  predicate Deep(p: Policy, v: Tree, depth: nat)
    decreases v
  {
    depth > MAX_DEPTH ||
    match v
    case Object(fields) => DeepFields(p, fields, depth)
    case Array(items) => DeepItems(p, items, depth)
    case _ => false
  }

  predicate DeepItems(p: Policy, items: Items, depth: nat)
    decreases items
  {
    match items
    case NoItems => false
    case Item(head, tail) => Deep(p, head, depth + 1) || DeepItems(p, tail, depth)
  }

  predicate DeepFields(p: Policy, fields: Fields, depth: nat)
    decreases fields
  {
    match fields
    case NoFields => false
    case Field(key, value, rest) => (!p.secret(key) && Deep(p, value, depth + 1)) || DeepFields(p, rest, depth)
  }

  // The very last entry of the tree, in order, is a visited omission marker.
  predicate EndsOmitted(p: Policy, v: Tree) {
    match v
    case Object(fields) => FieldsEndOmitted(p, fields)
    case Array(items) => ItemsEndOmitted(p, items)
    case _ => v == Text(p.omitted)
  }

  predicate ItemsEndOmitted(p: Policy, items: Items) {
    match items
    case NoItems => false
    case Item(head, tail) => if tail.NoItems? then EndsOmitted(p, head) else ItemsEndOmitted(p, tail)
  }

  predicate FieldsEndOmitted(p: Policy, fields: Fields) {
    match fields
    case NoFields => false
    case Field(key, value, rest) =>
      if rest.NoFields? then !p.secret(key) && EndsOmitted(p, value) else FieldsEndOmitted(p, rest)
  }

  // Every text of the tree has the property; nothing is entered below the depth limit.
  predicate All(p: Policy, q: string -> bool, v: Tree, depth: nat)
    decreases v
  {
    depth > MAX_DEPTH ||
    match v
    case Object(fields) => AllOfFields(p, q, fields, depth)
    case Array(items) => AllOfItems(p, q, items, depth)
    case Text(s) => q(s)
    case _ => true
  }

  predicate AllOfItems(p: Policy, q: string -> bool, items: Items, depth: nat)
    decreases items
  {
    match items
    case NoItems => true
    case Item(head, tail) => All(p, q, head, depth + 1) && AllOfItems(p, q, tail, depth)
  }

  predicate AllOfFields(p: Policy, q: string -> bool, fields: Fields, depth: nat)
    decreases fields
  {
    match fields
    case NoFields => true
    case Field(key, value, rest) => (!p.secret(key) ==> All(p, q, value, depth + 1)) && AllOfFields(p, q, rest, depth)
  }

  // ---- What a payload will meet -------------------------------------------------------

  // Every text the walk meets before its budget runs out has the property.
  predicate AllMet(p: Policy, q: string -> bool, v: Tree, depth: nat, visited: nat)
    decreases v
  {
    visited >= MAX_NODES || depth > MAX_DEPTH ||
    match v
    case Object(fields) => AllMetInFields(p, q, fields, depth, visited + 1)
    case Array(items) => AllMetInItems(p, q, items, depth, visited + 1)
    case Text(s) => q(s)
    case _ => true
  }

  predicate AllMetInItems(p: Policy, q: string -> bool, items: Items, depth: nat, visited: nat)
    decreases items
  {
    match items
    case NoItems => true
    case Item(head, tail) =>
      var n := visited + Nodes(p, head, depth + 1);
      AllMet(p, q, head, depth + 1, visited) && (n <= MAX_NODES ==> AllMetInItems(p, q, tail, depth, n))
  }

  predicate AllMetInFields(p: Policy, q: string -> bool, fields: Fields, depth: nat, visited: nat)
    decreases fields
  {
    match fields
    case NoFields => true
    case Field(key, value, rest) =>
      var n := visited + if p.secret(key) then 0 else Nodes(p, value, depth + 1);
      && (!p.secret(key) ==> AllMet(p, q, value, depth + 1, visited))
      && (n <= MAX_NODES ==> AllMetInFields(p, q, rest, depth, n))
  }

  // Whether the entry that storage puts last, of what the walk keeps, is an omission marker: in
  // an object that is the entry with the greatest key among those met, in a list the last one
  // met. Once the budget is used up the node itself becomes a marker.
  predicate LastIsOmitted(p: Policy, v: Tree, depth: nat, visited: nat)
    decreases v
  {
    visited >= MAX_NODES || depth > MAX_DEPTH ||
    match v
    case Object(fields) => Greatest(p, fields, depth, visited + 1).Some?
      && Greatest(p, fields, depth, visited + 1).value.omitted
    case Array(items) => LastItemIsOmitted(p, items, depth, visited + 1)
    case Text(s) => CleanText(p, s) == p.omitted
    case _ => false
  }

  predicate LastItemIsOmitted(p: Policy, items: Items, depth: nat, visited: nat)
    decreases items
  {
    match items
    case NoItems => false
    case Item(head, tail) =>
      var n := visited + Nodes(p, head, depth + 1);
      if n > MAX_NODES || tail.NoItems? then LastIsOmitted(p, head, depth + 1, visited)
      else LastItemIsOmitted(p, tail, depth, n)
  }

  // A key, and whether its value is visited and ends in a marker.
  datatype Entry = Entry(key: string, omitted: bool)

  // The greatest key met, from these fields on.
  function Greatest(p: Policy, fields: Fields, depth: nat, visited: nat): Option<Entry>
    decreases fields
  {
    match fields
    case NoFields => None
    case Field(key, value, rest) =>
      var n := visited + if p.secret(key) then 0 else Nodes(p, value, depth + 1);
      var here := Entry(key, !p.secret(key) && LastIsOmitted(p, value, depth + 1, visited));
      var later := if n > MAX_NODES then None else Greatest(p, rest, depth, n);
      if later.None? || !Before(key, later.value.key) then Some(here) else later
  }

  function Steady(p: Policy): string -> bool {
    s => CleanText(p, CleanText(p, s)) == CleanText(p, s)
  }

  function Fits(p: Policy): string -> bool {
    s => ByteLength(p.scrub(s)) <= MAX_CONTENT_BYTES
  }

  function FitsAgain(p: Policy): string -> bool {
    s => ByteLength(p.scrub(CleanText(p, s))) <= MAX_CONTENT_BYTES
  }

  // Whether the walk reports truncation: too many nodes, too deep, or a text too long.
  predicate Truncates(p: Policy, v: Tree, depth: nat, visited: nat) {
    visited + Nodes(p, v, depth) > MAX_NODES || Deep(p, v, depth) || !AllMet(p, Fits(p), v, depth, visited)
  }

  predicate ItemsTruncate(p: Policy, items: Items, depth: nat, visited: nat) {
    visited + NodesOfItems(p, items, depth) > MAX_NODES || DeepItems(p, items, depth)
      || !AllMetInItems(p, Fits(p), items, depth, visited)
  }

  predicate FieldsTruncate(p: Policy, fields: Fields, depth: nat, visited: nat) {
    visited + NodesOfFields(p, fields, depth) > MAX_NODES || DeepFields(p, fields, depth)
      || !AllMetInFields(p, Fits(p), fields, depth, visited)
  }

  // ---- What a first walk produces -----------------------------------------------------

  // What a first walk promises about a finished part of its output.
  ghost predicate Left(before: nat, visited: nat, nodes: nat, kept: nat, tidy: bool, deep: bool, ends: bool,
                       sorted: bool, truncated: bool) {
    && visited == before + kept == (if before + nodes <= MAX_NODES then before + nodes else MAX_NODES + 1)
    && tidy && sorted && (deep ==> truncated) && (visited > MAX_NODES ==> truncated && ends)
  }

  // A walk's output is tidy, counts exactly what was visited, keeps the key order it was given,
  // and if the budget ran out it ends in the marker.
  lemma {:induction false} Produced(p: Policy, v: Tree, depth: nat, visited: nat)
    requires visited <= MAX_NODES && Clean(p, v, depth, visited).Ok?
    ensures var w := Clean(p, v, depth, visited).value;
            Left(visited, w.visited, Nodes(p, v, depth), Nodes(p, w.value, depth), Tidy(p, w.value, depth),
                 Deep(p, w.value, depth),
                 EndsOmitted(p, w.value), Sorted(v) ==> Sorted(w.value), w.truncated)
    decreases v
  {
    if visited < MAX_NODES && depth <= MAX_DEPTH {
      match v
      case Object(fields) => ProducedFields(p, fields, depth, visited + 1);
      case Array(items) => ProducedItems(p, items, depth, visited + 1);
      case _ =>
    }
  }

  lemma {:induction false} ProducedItems(p: Policy, items: Items, depth: nat, visited: nat)
    requires visited <= MAX_NODES && depth <= MAX_DEPTH && CleanItems(p, items, depth, visited).Ok?
    ensures var w := CleanItems(p, items, depth, visited).value;
            Left(visited, w.visited, NodesOfItems(p, items, depth), NodesOfItems(p, w.value, depth),
                 TidyItems(p, w.value, depth), DeepItems(p, w.value, depth), ItemsEndOmitted(p, w.value),
                 SortedItems(items) ==> SortedItems(w.value), w.truncated)
    decreases items
  {
    if items.Item? {
      Produced(p, items.head, depth + 1, visited);
      var h := Clean(p, items.head, depth + 1, visited).value;
      if h.visited <= MAX_NODES {
        ProducedItems(p, items.tail, depth, h.visited);
      }
    }
  }

  lemma {:induction false} ProducedFields(p: Policy, fields: Fields, depth: nat, visited: nat)
    requires visited <= MAX_NODES && depth <= MAX_DEPTH && CleanFields(p, fields, depth, visited).Ok?
    ensures var w := CleanFields(p, fields, depth, visited).value;
            Left(visited, w.visited, NodesOfFields(p, fields, depth), NodesOfFields(p, w.value, depth),
                 TidyFields(p, w.value, depth), DeepFields(p, w.value, depth), FieldsEndOmitted(p, w.value),
                 SortedFields(fields) ==> SortedFields(w.value), w.truncated)
    decreases fields
  {
    if fields.Field? {
      var next := visited;
      if !p.secret(fields.key) {
        Produced(p, fields.value, depth + 1, visited);
        next := Clean(p, fields.value, depth + 1, visited).value.visited;
      }
      if next <= MAX_NODES {
        ProducedFields(p, fields.rest, depth, next);
      }
    }
  }

  // The truncation flag of a walk, from the payload alone.
  lemma {:induction false} Flagged(p: Policy, v: Tree, depth: nat, visited: nat)
    requires visited <= MAX_NODES && Clean(p, v, depth, visited).Ok?
    ensures Clean(p, v, depth, visited).value.truncated == Truncates(p, v, depth, visited)
    decreases v
  {
    if visited < MAX_NODES && depth <= MAX_DEPTH {
      match v
      case Object(fields) => FlaggedFields(p, fields, depth, visited + 1);
      case Array(items) => FlaggedItems(p, items, depth, visited + 1);
      case _ =>
    }
  }

  lemma {:induction false} FlaggedItems(p: Policy, items: Items, depth: nat, visited: nat)
    requires visited <= MAX_NODES && depth <= MAX_DEPTH && CleanItems(p, items, depth, visited).Ok?
    ensures CleanItems(p, items, depth, visited).value.truncated == ItemsTruncate(p, items, depth, visited)
    decreases items
  {
    if items.Item? {
      Produced(p, items.head, depth + 1, visited);
      Flagged(p, items.head, depth + 1, visited);
      var h := Clean(p, items.head, depth + 1, visited).value;
      if h.visited <= MAX_NODES {
        FlaggedItems(p, items.tail, depth, h.visited);
      }
      FlagOfItems(p, items, depth, visited);
      ItemsTruncateSplits(p, items, depth, visited);
    }
  }

  lemma FlagOfItems(p: Policy, items: Items, depth: nat, visited: nat)
    requires items.Item? && CleanItems(p, items, depth, visited).Ok?
    ensures var h := Clean(p, items.head, depth + 1, visited).value;
            CleanItems(p, items, depth, visited).value.truncated ==
              (h.truncated || (h.visited <= MAX_NODES && CleanItems(p, items.tail, depth, h.visited).value.truncated))
  {
  }

  lemma ItemsTruncateSplits(p: Policy, items: Items, depth: nat, visited: nat)
    requires items.Item?
    ensures var n := visited + Nodes(p, items.head, depth + 1);
            ItemsTruncate(p, items, depth, visited) ==
              (Truncates(p, items.head, depth + 1, visited)
               || (n <= MAX_NODES && ItemsTruncate(p, items.tail, depth, n)))
  {
  }

  lemma {:induction false} FlaggedFields(p: Policy, fields: Fields, depth: nat, visited: nat)
    requires visited <= MAX_NODES && depth <= MAX_DEPTH && CleanFields(p, fields, depth, visited).Ok?
    ensures CleanFields(p, fields, depth, visited).value.truncated == FieldsTruncate(p, fields, depth, visited)
    decreases fields
  {
    if fields.Field? {
      var next := visited;
      if !p.secret(fields.key) {
        Produced(p, fields.value, depth + 1, visited);
        Flagged(p, fields.value, depth + 1, visited);
        next := Clean(p, fields.value, depth + 1, visited).value.visited;
      }
      if next <= MAX_NODES {
        FlaggedFields(p, fields.rest, depth, next);
      }
      FlagOfFields(p, fields, depth, visited);
      FieldsTruncateSplits(p, fields, depth, visited);
    }
  }

  lemma FlagOfFields(p: Policy, fields: Fields, depth: nat, visited: nat)
    requires fields.Field? && visited <= MAX_NODES && CleanFields(p, fields, depth, visited).Ok?
    ensures CleanFields(p, fields, depth, visited).value.truncated ==
              if p.secret(fields.key) then CleanFields(p, fields.rest, depth, visited).value.truncated else
              var h := Clean(p, fields.value, depth + 1, visited).value;
              h.truncated || (h.visited <= MAX_NODES && CleanFields(p, fields.rest, depth, h.visited).value.truncated)
  {
  }

  lemma FieldsTruncateSplits(p: Policy, fields: Fields, depth: nat, visited: nat)
    requires fields.Field?
    ensures var n := visited + Nodes(p, fields.value, depth + 1);
            FieldsTruncate(p, fields, depth, visited) ==
              (if p.secret(fields.key) then FieldsTruncate(p, fields.rest, depth, visited)
               else (Truncates(p, fields.value, depth + 1, visited) ||
                     (n <= MAX_NODES && FieldsTruncate(p, fields.rest, depth, n))))
  {
  }

  // What is asked of a met text is asked of its cleaned form; the marker always answers.
  ghost predicate Answers(p: Policy, q: string -> bool, met: string -> bool) {
    q(p.omitted) && forall s :: met(s) == q(CleanText(p, s))
  }

  // The texts of the output are the cleaned texts the walk met, and markers.
  lemma {:induction false} Carried(p: Policy, q: string -> bool, met: string -> bool, v: Tree, depth: nat, visited: nat)
    requires visited <= MAX_NODES && Clean(p, v, depth, visited).Ok?
    requires Answers(p, q, met)
    ensures All(p, q, Clean(p, v, depth, visited).value.value, depth) == AllMet(p, met, v, depth, visited)
    decreases v
  {
    if visited < MAX_NODES && depth <= MAX_DEPTH {
      match v
      case Object(fields) => CarriedFields(p, q, met, fields, depth, visited + 1);
      case Array(items) => CarriedItems(p, q, met, items, depth, visited + 1);
      case _ =>
    }
  }

  lemma {:induction false} CarriedItems(p: Policy, q: string -> bool, met: string -> bool, items: Items, depth: nat,
                                        visited: nat)
    requires visited <= MAX_NODES && depth <= MAX_DEPTH && CleanItems(p, items, depth, visited).Ok?
    requires Answers(p, q, met)
    ensures AllOfItems(p, q, CleanItems(p, items, depth, visited).value.value, depth) ==
            AllMetInItems(p, met, items, depth, visited)
    decreases items
  {
    if items.Item? {
      Produced(p, items.head, depth + 1, visited);
      Carried(p, q, met, items.head, depth + 1, visited);
      var h := Clean(p, items.head, depth + 1, visited).value;
      if h.visited <= MAX_NODES {
        CarriedItems(p, q, met, items.tail, depth, h.visited);
      }
      CarriedHead(p, q, met, items, depth, visited);
    }
  }

  // A list carries its texts as its head and, if the budget lasts, its tail do.
  lemma CarriedHead(p: Policy, q: string -> bool, met: string -> bool, items: Items, depth: nat, visited: nat)
    requires items.Item? && CleanItems(p, items, depth, visited).Ok?
    requires var h := Clean(p, items.head, depth + 1, visited).value;
             var n := visited + Nodes(p, items.head, depth + 1);
             && All(p, q, h.value, depth + 1) == AllMet(p, met, items.head, depth + 1, visited)
             && (h.visited > MAX_NODES <==> n > MAX_NODES) && (n <= MAX_NODES ==> h.visited == n)
             && (n <= MAX_NODES ==>
                 AllOfItems(p, q, CleanItems(p, items.tail, depth, n).value.value, depth) ==
                   AllMetInItems(p, met, items.tail, depth, n))
    ensures AllOfItems(p, q, CleanItems(p, items, depth, visited).value.value, depth) ==
            AllMetInItems(p, met, items, depth, visited)
  {
    var h := Clean(p, items.head, depth + 1, visited).value;
    if h.visited > MAX_NODES {
      assert CleanItems(p, items, depth, visited).value.value == Item(h.value, NoItems);
    }
  }

  lemma {:induction false} CarriedFields(p: Policy, q: string -> bool, met: string -> bool, fields: Fields, depth: nat,
                                         visited: nat)
    requires visited <= MAX_NODES && depth <= MAX_DEPTH && CleanFields(p, fields, depth, visited).Ok?
    requires Answers(p, q, met)
    ensures AllOfFields(p, q, CleanFields(p, fields, depth, visited).value.value, depth) ==
            AllMetInFields(p, met, fields, depth, visited)
    decreases fields
  {
    if fields.Field? {
      if p.secret(fields.key) {
        CarriedFields(p, q, met, fields.rest, depth, visited);
        CarriedSecret(p, q, met, fields, depth, visited);
      } else {
        Produced(p, fields.value, depth + 1, visited);
        Carried(p, q, met, fields.value, depth + 1, visited);
        var h := Clean(p, fields.value, depth + 1, visited).value;
        if h.visited <= MAX_NODES {
          CarriedFields(p, q, met, fields.rest, depth, h.visited);
        }
        CarriedField(p, q, met, fields, depth, visited);
      }
    }
  }

  lemma CarriedSecret(p: Policy, q: string -> bool, met: string -> bool, fields: Fields, depth: nat, visited: nat)
    requires fields.Field? && p.secret(fields.key) && visited <= MAX_NODES && CleanFields(p, fields, depth, visited).Ok?
    requires AllOfFields(p, q, CleanFields(p, fields.rest, depth, visited).value.value, depth) ==
             AllMetInFields(p, met, fields.rest, depth, visited)
    ensures AllOfFields(p, q, CleanFields(p, fields, depth, visited).value.value, depth) ==
            AllMetInFields(p, met, fields, depth, visited)
  {
  }

  lemma CarriedField(p: Policy, q: string -> bool, met: string -> bool, fields: Fields, depth: nat, visited: nat)
    requires fields.Field? && !p.secret(fields.key) && CleanFields(p, fields, depth, visited).Ok?
    requires var h := Clean(p, fields.value, depth + 1, visited).value;
             var n := visited + Nodes(p, fields.value, depth + 1);
             && All(p, q, h.value, depth + 1) == AllMet(p, met, fields.value, depth + 1, visited)
             && (h.visited > MAX_NODES <==> n > MAX_NODES) && (n <= MAX_NODES ==> h.visited == n)
             && (n <= MAX_NODES ==>
                 AllOfFields(p, q, CleanFields(p, fields.rest, depth, n).value.value, depth) ==
                   AllMetInFields(p, met, fields.rest, depth, n))
    ensures AllOfFields(p, q, CleanFields(p, fields, depth, visited).value.value, depth) ==
            AllMetInFields(p, met, fields, depth, visited)
  {
    var h := Clean(p, fields.value, depth + 1, visited).value;
    if h.visited > MAX_NODES {
      assert CleanFields(p, fields, depth, visited).value.value == Field(fields.key, h.value, NoFields);
    }
  }

  // ---- Walking a tidy tree again ------------------------------------------------------

  function Fixed(p: Policy): string -> bool {
    s => CleanText(p, s) == s
  }

  lemma {:induction false} NothingToVisit(p: Policy, items: Items, depth: nat)
    ensures NodesOfItems(p, items, depth) == 0 <==> items.NoItems?
  {
    if items.Item? {
      assert Nodes(p, items.head, depth + 1) >= 1;
    }
  }

  lemma {:induction false} OnlySecrets(p: Policy, fields: Fields, depth: nat)
    requires NodesOfFields(p, fields, depth) == 0
    ensures !FieldsEndOmitted(p, fields)
  {
    if fields.Field? {
      assert p.secret(fields.key);
      OnlySecrets(p, fields.rest, depth);
    }
  }

  // What a second walk makes of a tidy part: within the budget it changes exactly the texts that
  // are not fixed; one node beyond, the last entry must be a marker as well.
  ghost predicate Rewalked<T>(visited: nat, nodes: nat, w: Result<Walk<T>>, v: T, fixed: bool, fits: bool, deep: bool,
                              ends: bool) {
    && w.Ok? && w.value.visited == visited + nodes
    && (visited + nodes <= MAX_NODES ==> (w.value.value == v <==> fixed) && w.value.truncated == (deep || !fits))
    && (visited + nodes > MAX_NODES ==> (w.value.value == v <==> fixed && ends) && w.value.truncated)
  }

  // Where the budget is used up, the node becomes a marker.
  lemma AgainAtBudget(p: Policy, v: Tree, depth: nat)
    requires Words(p) && Tidy(p, v, depth) && Nodes(p, v, depth) == 1
    ensures Rewalked(MAX_NODES, 1, Clean(p, v, depth, MAX_NODES), v,
                     All(p, Fixed(p), v, depth), All(p, Fits(p), v, depth), Deep(p, v, depth), EndsOmitted(p, v))
  {
    if depth <= MAX_DEPTH {
      match v
      case Object(fields) => OnlySecrets(p, fields, depth);
      case Array(items) => NothingToVisit(p, items, depth);
      case _ =>
    }
  }

  lemma AgainAtLeaf(p: Policy, v: Tree, depth: nat, visited: nat)
    requires Words(p) && Tidy(p, v, depth) && visited < MAX_NODES && (depth <= MAX_DEPTH ==> !v.Object? && !v.Array?)
    ensures Rewalked(visited, Nodes(p, v, depth), Clean(p, v, depth, visited), v,
                     All(p, Fixed(p), v, depth), All(p, Fits(p), v, depth), Deep(p, v, depth), EndsOmitted(p, v))
  {
  }

  // A container is rewalked as its parts are, one node later.
  lemma ObjectAgain(p: Policy, fields: Fields, depth: nat, visited: nat)
    requires depth <= MAX_DEPTH && visited < MAX_NODES
    requires Rewalked(visited + 1, NodesOfFields(p, fields, depth), CleanFields(p, fields, depth, visited + 1), fields,
                      AllOfFields(p, Fixed(p), fields, depth), AllOfFields(p, Fits(p), fields, depth),
                        DeepFields(p, fields, depth), FieldsEndOmitted(p, fields))
    ensures var v := Object(fields);
            Rewalked(visited, Nodes(p, v, depth), Clean(p, v, depth, visited), v,
                     All(p, Fixed(p), v, depth), All(p, Fits(p), v, depth), Deep(p, v, depth), EndsOmitted(p, v))
  {
    var w := CleanFields(p, fields, depth, visited + 1).value;
    assert Clean(p, Object(fields), depth, visited) == Ok(Walk(Object(w.value), w.visited, w.truncated));
  }

  lemma ArrayAgain(p: Policy, items: Items, depth: nat, visited: nat)
    requires depth <= MAX_DEPTH && visited < MAX_NODES
    requires Rewalked(visited + 1, NodesOfItems(p, items, depth), CleanItems(p, items, depth, visited + 1), items,
                      AllOfItems(p, Fixed(p), items, depth), AllOfItems(p, Fits(p), items, depth),
                        DeepItems(p, items, depth), ItemsEndOmitted(p, items))
    ensures var v := Array(items);
            Rewalked(visited, Nodes(p, v, depth), Clean(p, v, depth, visited), v,
                     All(p, Fixed(p), v, depth), All(p, Fits(p), v, depth), Deep(p, v, depth), EndsOmitted(p, v))
  {
    var w := CleanItems(p, items, depth, visited + 1).value;
    assert Clean(p, Array(items), depth, visited) == Ok(Walk(Array(w.value), w.visited, w.truncated));
  }

  lemma {:induction false} Again(p: Policy, v: Tree, depth: nat, visited: nat)
    requires Words(p) && Tidy(p, v, depth) && visited <= MAX_NODES && visited + Nodes(p, v, depth) <= MAX_NODES + 1
    ensures Rewalked(visited, Nodes(p, v, depth), Clean(p, v, depth, visited), v,
                     All(p, Fixed(p), v, depth), All(p, Fits(p), v, depth), Deep(p, v, depth), EndsOmitted(p, v))
    decreases v
  {
    if visited == MAX_NODES {
      AgainAtBudget(p, v, depth);
    } else if depth <= MAX_DEPTH && v.Object? {
      AgainFields(p, v.fields, depth, visited + 1);
      ObjectAgain(p, v.fields, depth, visited);
    } else if depth <= MAX_DEPTH && v.Array? {
      AgainItems(p, v.items, depth, visited + 1);
      ArrayAgain(p, v.items, depth, visited);
    } else {
      AgainAtLeaf(p, v, depth, visited);
    }
  }

  lemma {:induction false} AgainItems(p: Policy, items: Items, depth: nat, visited: nat)
    requires Words(p) && depth <= MAX_DEPTH && TidyItems(p, items, depth)
    requires visited <= MAX_NODES && visited + NodesOfItems(p, items, depth) <= MAX_NODES + 1
    ensures Rewalked(visited, NodesOfItems(p, items, depth), CleanItems(p, items, depth, visited), items,
                     AllOfItems(p, Fixed(p), items, depth), AllOfItems(p, Fits(p), items, depth),
                       DeepItems(p, items, depth), ItemsEndOmitted(p, items))
    decreases items
  {
    if items.Item? {
      Again(p, items.head, depth + 1, visited);
      var h := Clean(p, items.head, depth + 1, visited).value;
      if h.visited <= MAX_NODES {
        AgainItems(p, items.tail, depth, h.visited);
        var t := CleanItems(p, items.tail, depth, h.visited).value;
        assert CleanItems(p, items, depth, visited) ==
               Ok(Walk(Item(h.value, t.value), t.visited, h.truncated || t.truncated));
      } else {
        NothingToVisit(p, items.tail, depth);
        assert CleanItems(p, items, depth, visited) == Ok(Walk(Item(h.value, NoItems), h.visited, h.truncated));
      }
    }
  }

  lemma {:induction false} AgainFields(p: Policy, fields: Fields, depth: nat, visited: nat)
    requires Words(p) && depth <= MAX_DEPTH && TidyFields(p, fields, depth)
    requires visited <= MAX_NODES && visited + NodesOfFields(p, fields, depth) <= MAX_NODES + 1
    ensures Rewalked(visited, NodesOfFields(p, fields, depth), CleanFields(p, fields, depth, visited), fields,
                     AllOfFields(p, Fixed(p), fields, depth), AllOfFields(p, Fits(p), fields, depth),
                       DeepFields(p, fields, depth), FieldsEndOmitted(p, fields))
    decreases fields
  {
    if fields.Field? {
      var n := if p.secret(fields.key) then 0 else Nodes(p, fields.value, depth + 1);
      if !p.secret(fields.key) {
        Again(p, fields.value, depth + 1, visited);
      }
      if visited + n <= MAX_NODES {
        AgainFields(p, fields.rest, depth, visited + n);
      } else if fields.rest.Field? {
        OnlySecrets(p, fields.rest, depth);
      }
    }
  }

  // ---- Storing in canonical order -----------------------------------------------------

  lemma {:induction false} InsertKeeps(p: Policy, q: string -> bool, key: string, value: Tree, fields: Fields,
                                       depth: nat)
    ensures NodesOfFields(p, Insert(key, value, fields), depth) == NodesOfFields(p, Field(key, value, fields), depth)
    ensures TidyFields(p, Insert(key, value, fields), depth) == TidyFields(p, Field(key, value, fields), depth)
    ensures DeepFields(p, Insert(key, value, fields), depth) == DeepFields(p, Field(key, value, fields), depth)
    ensures AllOfFields(p, q, Insert(key, value, fields), depth) == AllOfFields(p, q, Field(key, value, fields), depth)
  {
    if fields.Field? && !Before(key, fields.key) {
      InsertKeeps(p, q, key, value, fields.rest, depth);
    }
  }

  lemma {:induction false} CanonKeeps(p: Policy, q: string -> bool, v: Tree, depth: nat)
    requires Tidy(p, v, depth)
    ensures Tidy(p, Canon(v), depth) && Nodes(p, Canon(v), depth) == Nodes(p, v, depth)
            && Deep(p, Canon(v), depth) == Deep(p, v, depth)
    ensures All(p, q, Canon(v), depth) == All(p, q, v, depth)
    decreases v
  {
    if depth <= MAX_DEPTH {
      match v
      case Object(fields) => CanonKeepsFields(p, q, fields, depth);
      case Array(items) => CanonKeepsItems(p, q, items, depth);
      case _ =>
    }
  }

  lemma {:induction false} CanonKeepsItems(p: Policy, q: string -> bool, items: Items, depth: nat)
    requires TidyItems(p, items, depth)
    ensures TidyItems(p, CanonItems(items), depth)
            && NodesOfItems(p, CanonItems(items), depth) == NodesOfItems(p, items, depth)
    ensures DeepItems(p, CanonItems(items), depth) == DeepItems(p, items, depth)
    ensures AllOfItems(p, q, CanonItems(items), depth) == AllOfItems(p, q, items, depth)
    decreases items
  {
    if items.Item? {
      CanonKeeps(p, q, items.head, depth + 1);
      CanonKeepsItems(p, q, items.tail, depth);
    }
  }

  lemma {:induction false} CanonKeepsFields(p: Policy, q: string -> bool, fields: Fields, depth: nat)
    requires TidyFields(p, fields, depth)
    ensures TidyFields(p, CanonFields(fields), depth)
            && NodesOfFields(p, CanonFields(fields), depth) == NodesOfFields(p, fields, depth)
    ensures DeepFields(p, CanonFields(fields), depth) == DeepFields(p, fields, depth)
    ensures AllOfFields(p, q, CanonFields(fields), depth) == AllOfFields(p, q, fields, depth)
    decreases fields
  {
    if fields.Field? {
      if !p.secret(fields.key) {
        CanonKeeps(p, q, fields.value, depth + 1);
      }
      CanonKeepsFields(p, q, fields.rest, depth);
      InsertKeeps(p, q, fields.key, Canon(fields.value), CanonFields(fields.rest), depth);
    }
  }

  // The last field of a list.
  function Tail(p: Policy, fields: Fields): (e: Option<Entry>)
    ensures FieldsEndOmitted(p, fields) == (e.Some? && e.value.omitted)
    ensures fields.Field? ==> e.Some?
  {
    match fields
    case NoFields => None
    case Field(key, value, rest) =>
      if rest.NoFields? then Some(Entry(key, !p.secret(key) && EndsOmitted(p, value))) else Tail(p, rest)
  }

  lemma {:induction false} TailIsGreatest(p: Policy, fields: Fields)
    requires fields.Field? && SortedFields(fields)
    ensures Before(fields.key, Tail(p, fields).value.key)
  {
    if fields.rest.Field? {
      TailIsGreatest(p, fields.rest);
      BeforeIsTransitive(fields.key, fields.rest.key, Tail(p, fields.rest).value.key);
    } else {
      BeforeIsTotal(fields.key, fields.key);
    }
  }

  // A field put into a sorted list comes last exactly when its key is greater than the last one.
  lemma {:induction false} InsertTail(p: Policy, key: string, value: Tree, fields: Fields)
    requires SortedFields(fields)
    ensures Tail(p, Insert(key, value, fields)) ==
      (if Tail(p, fields).None? || !Before(key, Tail(p, fields).value.key)
       then Some(Entry(key, !p.secret(key) && EndsOmitted(p, value))) else Tail(p, fields))
  {
    if fields.Field? {
      if Before(key, fields.key) {
        TailIsGreatest(p, fields);
        BeforeIsTransitive(key, fields.key, Tail(p, fields).value.key);
      } else {
        InsertTail(p, key, value, fields.rest);
        assert Insert(key, value, fields.rest).Field?;
      }
    }
  }

  // The stored form of a walk's output ends in a marker exactly when the payload says so.
  lemma {:induction false} StoredEnd(p: Policy, v: Tree, depth: nat, visited: nat)
    requires visited <= MAX_NODES && Clean(p, v, depth, visited).Ok?
    ensures EndsOmitted(p, Canon(Clean(p, v, depth, visited).value.value)) == LastIsOmitted(p, v, depth, visited)
    decreases v
  {
    if visited < MAX_NODES && depth <= MAX_DEPTH {
      match v
      case Object(fields) => StoredEndOfFields(p, fields, depth, visited + 1);
      case Array(items) => StoredEndOfItems(p, items, depth, visited + 1);
      case _ =>
    }
  }

  lemma {:induction false} StoredEndOfItems(p: Policy, items: Items, depth: nat, visited: nat)
    requires visited <= MAX_NODES && depth <= MAX_DEPTH && CleanItems(p, items, depth, visited).Ok?
    ensures ItemsEndOmitted(p, CanonItems(CleanItems(p, items, depth, visited).value.value)) ==
            LastItemIsOmitted(p, items, depth, visited)
    decreases items
  {
    if items.Item? {
      Produced(p, items.head, depth + 1, visited);
      StoredEnd(p, items.head, depth + 1, visited);
      var h := Clean(p, items.head, depth + 1, visited).value;
      if h.visited <= MAX_NODES {
        StoredEndOfItems(p, items.tail, depth, h.visited);
      }
      StoredEndOfHead(p, items, depth, visited);
    }
  }

  lemma StoredEndOfHead(p: Policy, items: Items, depth: nat, visited: nat)
    requires items.Item? && CleanItems(p, items, depth, visited).Ok?
    requires var h := Clean(p, items.head, depth + 1, visited).value;
             var n := visited + Nodes(p, items.head, depth + 1);
             && EndsOmitted(p, Canon(h.value)) == LastIsOmitted(p, items.head, depth + 1, visited)
             && (h.visited > MAX_NODES <==> n > MAX_NODES) && (n <= MAX_NODES ==> h.visited == n)
             && (n <= MAX_NODES ==>
                 ItemsEndOmitted(p, CanonItems(CleanItems(p, items.tail, depth, n).value.value)) ==
                   LastItemIsOmitted(p, items.tail, depth, n))
    ensures ItemsEndOmitted(p, CanonItems(CleanItems(p, items, depth, visited).value.value)) ==
            LastItemIsOmitted(p, items, depth, visited)
  {
    var h := Clean(p, items.head, depth + 1, visited).value;
    if h.visited > MAX_NODES {
      assert CleanItems(p, items, depth, visited).value.value == Item(h.value, NoItems);
      EndOfOne(p, h.value);
    } else {
      var t := CleanItems(p, items.tail, depth, h.visited).value;
      assert CleanItems(p, items, depth, visited).value.value == Item(h.value, t.value);
      TailKept(p, items.tail, depth, h.visited);
      EndOfMore(p, h.value, t.value);
    }
  }

  lemma EndOfOne(p: Policy, v: Tree)
    ensures ItemsEndOmitted(p, CanonItems(Item(v, NoItems))) == EndsOmitted(p, Canon(v))
  {
    assert CanonItems(Item(v, NoItems)) == Item(Canon(v), NoItems);
  }

  lemma EndOfMore(p: Policy, v: Tree, t: Items)
    ensures ItemsEndOmitted(p, CanonItems(Item(v, t))) ==
            (if t.NoItems? then EndsOmitted(p, Canon(v)) else ItemsEndOmitted(p, CanonItems(t)))
  {
    assert CanonItems(Item(v, t)) == Item(Canon(v), CanonItems(t));
    assert CanonItems(t).NoItems? <==> t.NoItems?;
  }

  lemma TailKept(p: Policy, items: Items, depth: nat, visited: nat)
    requires CleanItems(p, items, depth, visited).Ok?
    ensures CleanItems(p, items, depth, visited).value.value.NoItems? <==> items.NoItems?
  {
  }

  lemma StoredTail(p: Policy, key: string, kept: Tree, rest: Fields)
    ensures var later := Tail(p, CanonFields(rest));
            Tail(p, CanonFields(Field(key, kept, rest))) ==
              if later.None? || !Before(key, later.value.key)
                then Some(Entry(key, !p.secret(key) && EndsOmitted(p, Canon(kept)))) else later
  {
    CanonSortsFields(rest);
    InsertTail(p, key, Canon(kept), CanonFields(rest));
  }

  lemma {:induction false} StoredEndOfFields(p: Policy, fields: Fields, depth: nat, visited: nat)
    requires visited <= MAX_NODES && depth <= MAX_DEPTH && CleanFields(p, fields, depth, visited).Ok?
    ensures Tail(p, CanonFields(CleanFields(p, fields, depth, visited).value.value)) ==
            Greatest(p, fields, depth, visited)
    decreases fields
  {
    if fields.Field? {
      if p.secret(fields.key) {
        StoredEndOfFields(p, fields.rest, depth, visited);
        StoredEndOfSecret(p, fields, depth, visited);
      } else {
        Produced(p, fields.value, depth + 1, visited);
        StoredEnd(p, fields.value, depth + 1, visited);
        var h := Clean(p, fields.value, depth + 1, visited).value;
        if h.visited <= MAX_NODES {
          StoredEndOfFields(p, fields.rest, depth, h.visited);
        }
        StoredEndOfField(p, fields, depth, visited);
      }
    }
  }

  lemma StoredEndOfSecret(p: Policy, fields: Fields, depth: nat, visited: nat)
    requires fields.Field? && p.secret(fields.key) && visited <= MAX_NODES && CleanFields(p, fields, depth, visited).Ok?
    requires Tail(p, CanonFields(CleanFields(p, fields.rest, depth, visited).value.value)) ==
             Greatest(p, fields.rest, depth, visited)
    ensures Tail(p, CanonFields(CleanFields(p, fields, depth, visited).value.value)) ==
            Greatest(p, fields, depth, visited)
  {
    var rest := CleanFields(p, fields.rest, depth, visited).value.value;
    assert CleanFields(p, fields, depth, visited).value.value == Field(fields.key, Text(p.redacted), rest);
    StoredTail(p, fields.key, Text(p.redacted), rest);
  }

  lemma StoredEndOfField(p: Policy, fields: Fields, depth: nat, visited: nat)
    requires fields.Field? && !p.secret(fields.key) && CleanFields(p, fields, depth, visited).Ok?
    requires var h := Clean(p, fields.value, depth + 1, visited).value;
             var n := visited + Nodes(p, fields.value, depth + 1);
             && EndsOmitted(p, Canon(h.value)) == LastIsOmitted(p, fields.value, depth + 1, visited)
             && (h.visited > MAX_NODES <==> n > MAX_NODES) && (n <= MAX_NODES ==> h.visited == n)
             && (n <= MAX_NODES ==>
                 Tail(p, CanonFields(CleanFields(p, fields.rest, depth, n).value.value)) ==
                   Greatest(p, fields.rest, depth, n))
    ensures Tail(p, CanonFields(CleanFields(p, fields, depth, visited).value.value)) ==
            Greatest(p, fields, depth, visited)
  {
    var h := Clean(p, fields.value, depth + 1, visited).value;
    var rest := if h.visited > MAX_NODES then NoFields else CleanFields(p, fields.rest, depth, h.visited).value.value;
    assert CleanFields(p, fields, depth, visited).value.value == Field(fields.key, h.value, rest);
    StoredTail(p, fields.key, h.value, rest);
  }

  // The payloads whose stored form a second walk gives back unchanged, without a new report of
  // truncation: the budget lasts or its marker comes last in stored order, every text met is
  // cleaned for good, and no cleaned text is cut on the second walk unless something already was.
  predicate Rewalkable(p: Policy, v: Tree) {
    && (Nodes(p, v, 0) <= MAX_NODES || LastIsOmitted(p, v, 0, 0))
    && AllMet(p, Steady(p), v, 0, 0)
    && (Truncates(p, v, 0, 0) || AllMet(p, FitsAgain(p), v, 0, 0))
  }

  // What the stored texts are, from the payload alone.
  lemma StoredTexts(p: Policy, v: Tree)
    requires Words(p) && Clean(p, v, 0, 0).Ok?
    ensures var stored := Canon(Clean(p, v, 0, 0).value.value);
            && All(p, Fixed(p), stored, 0) == AllMet(p, Steady(p), v, 0, 0)
            && All(p, Fits(p), stored, 0) == AllMet(p, FitsAgain(p), v, 0, 0)
  {
    Produced(p, v, 0, 0);
    Carried(p, Fixed(p), Steady(p), v, 0, 0);
    Carried(p, Fits(p), FitsAgain(p), v, 0, 0);
    CanonKeeps(p, Fixed(p), Clean(p, v, 0, 0).value.value, 0);
    CanonKeeps(p, Fits(p), Clean(p, v, 0, 0).value.value, 0);
  }

  // The exact condition, on the payload alone, under which a walk of the stored tree gives it
  // back and reports truncation only if the first walk did.
  lemma StoredTreeIff(p: Policy, v: Tree)
    requires Words(p) && Clean(p, v, 0, 0).Ok?
    ensures var w := Clean(p, v, 0, 0).value;
            var stored := Canon(w.value);
            var again := Clean(p, stored, 0, 0);
            && again.Ok?
            && ((again.value.value == stored && (again.value.truncated ==> w.truncated)) <==> Rewalkable(p, v))
  {
    var w := Clean(p, v, 0, 0).value;
    Produced(p, v, 0, 0);
    Flagged(p, v, 0, 0);
    StoredEnd(p, v, 0, 0);
    StoredTexts(p, v);
    CanonKeeps(p, Fixed(p), w.value, 0);
    Again(p, Canon(w.value), 0, 0);
  }

  // Visited in stored order, with texts that are cleaned for good, the output of a walk is a fixed
  // point of the walk, whether or not the budget ran out.
  lemma SortedIsFixed(p: Policy, v: Tree)
    requires Words(p) && Sorted(v) && Clean(p, v, 0, 0).Ok?
    ensures var w := Clean(p, v, 0, 0).value;
            var again := Clean(p, w.value, 0, 0);
            Canon(w.value) == w.value && again.Ok? && (again.value.value == w.value <==> AllMet(p, Steady(p), v, 0, 0))
  {
    var w := Clean(p, v, 0, 0).value;
    Produced(p, v, 0, 0);
    CanonSorts(w.value);
    StoredTexts(p, v);
    Again(p, w.value, 0, 0);
  }
}
