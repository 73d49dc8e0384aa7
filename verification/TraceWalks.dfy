// What the budgeted walk keeps of a payload: everything but secrets as long as the bounds last, a
// pruned copy beyond them, and nothing at all if a key it meets is too long.
module TraceWalks {
  import opened Outcomes
  import opened BoundedTrace

  // ---- Which payloads are refused -----------------------------------------------------

  // Every key and value the walk meets can be recorded.
  predicate Recordable(p: Policy, v: Tree, depth: nat, visited: nat)
    decreases v
  {
    visited >= MAX_NODES || depth > MAX_DEPTH ||
    match v
    case Object(fields) => RecordableFields(p, fields, depth, visited + 1)
    case Array(items) => RecordableItems(p, items, depth, visited + 1)
    case Opaque => false
    case _ => true
  }

  predicate RecordableItems(p: Policy, items: Items, depth: nat, visited: nat)
    decreases items
  {
    match items
    case NoItems => true
    case Item(head, tail) =>
      var n := visited + Nodes(p, head, depth + 1);
      Recordable(p, head, depth + 1, visited) && (n <= MAX_NODES ==> RecordableItems(p, tail, depth, n))
  }

  predicate RecordableFields(p: Policy, fields: Fields, depth: nat, visited: nat)
    decreases fields
  {
    match fields
    case NoFields => true
    case Field(key, value, rest) =>
      var n := visited + if p.secret(key) then 0 else Nodes(p, value, depth + 1);
      && |key| <= MAX_KEY && (p.secret(key) || Recordable(p, value, depth + 1, visited))
      && (n <= MAX_NODES ==> RecordableFields(p, rest, depth, n))
  }

  // The walk succeeds exactly on those.
  lemma {:induction false} SucceedsIffRecordable(p: Policy, v: Tree, depth: nat, visited: nat)
    requires visited <= MAX_NODES
    ensures Clean(p, v, depth, visited).Ok? <==> Recordable(p, v, depth, visited)
    decreases v
  {
    if visited < MAX_NODES && depth <= MAX_DEPTH {
      match v
      case Object(fields) => FieldsSucceed(p, fields, depth, visited + 1);
      case Array(items) => ItemsSucceed(p, items, depth, visited + 1);
      case _ =>
    }
  }

  lemma {:induction false} ItemsSucceed(p: Policy, items: Items, depth: nat, visited: nat)
    requires visited <= MAX_NODES && depth <= MAX_DEPTH
    ensures CleanItems(p, items, depth, visited).Ok? <==> RecordableItems(p, items, depth, visited)
    decreases items
  {
    if items.Item? {
      SucceedsIffRecordable(p, items.head, depth + 1, visited);
      if Clean(p, items.head, depth + 1, visited).Ok? {
        Produced(p, items.head, depth + 1, visited);
        var n := Clean(p, items.head, depth + 1, visited).value.visited;
        if n <= MAX_NODES {
          ItemsSucceed(p, items.tail, depth, n);
        }
      }
    }
  }

  lemma {:induction false} FieldsSucceed(p: Policy, fields: Fields, depth: nat, visited: nat)
    requires visited <= MAX_NODES && depth <= MAX_DEPTH
    ensures CleanFields(p, fields, depth, visited).Ok? <==> RecordableFields(p, fields, depth, visited)
    decreases fields
  {
    if fields.Field? {
      if p.secret(fields.key) {
        FieldsSucceed(p, fields.rest, depth, visited);
      } else {
        SucceedsIffRecordable(p, fields.value, depth + 1, visited);
        if Clean(p, fields.value, depth + 1, visited).Ok? {
          Produced(p, fields.value, depth + 1, visited);
          var n := Clean(p, fields.value, depth + 1, visited).value.visited;
          if n <= MAX_NODES {
            FieldsSucceed(p, fields.rest, depth, n);
          }
        }
      }
    }
  }

  // ---- What is kept -------------------------------------------------------------------

  // The payload with its texts cleaned and its secrets redacted, and nothing else changed.
  function Redacted(p: Policy, v: Tree): Tree {
    match v
    case Object(fields) => Object(RedactedFields(p, fields))
    case Array(items) => Array(RedactedItems(p, items))
    case Text(s) => Text(CleanText(p, s))
    case _ => v
  }

  function RedactedItems(p: Policy, items: Items): Items {
    match items
    case NoItems => NoItems
    case Item(head, tail) => Item(Redacted(p, head), RedactedItems(p, tail))
  }

  function RedactedFields(p: Policy, fields: Fields): Fields {
    match fields
    case NoFields => NoFields
    case Field(key, value, rest) =>
      Field(key, if p.secret(key) then Text(p.redacted) else Redacted(p, value), RedactedFields(p, rest))
  }

  // Within the bounds nothing is lost.
  lemma {:induction false} WithinBoundsAllIsKept(p: Policy, v: Tree, depth: nat, visited: nat)
    requires visited + Nodes(p, v, depth) <= MAX_NODES && !Deep(p, v, depth) && Clean(p, v, depth, visited).Ok?
    ensures Clean(p, v, depth, visited).value.value == Redacted(p, v)
    decreases v
  {
    match v
    case Object(fields) => FieldsAreKept(p, fields, depth, visited + 1);
    case Array(items) => ItemsAreKept(p, items, depth, visited + 1);
    case _ =>
  }

  lemma {:induction false} ItemsAreKept(p: Policy, items: Items, depth: nat, visited: nat)
    requires visited + NodesOfItems(p, items, depth) <= MAX_NODES && depth <= MAX_DEPTH && !DeepItems(p, items, depth)
    requires CleanItems(p, items, depth, visited).Ok?
    ensures CleanItems(p, items, depth, visited).value.value == RedactedItems(p, items)
    decreases items
  {
    if items.Item? {
      Produced(p, items.head, depth + 1, visited);
      WithinBoundsAllIsKept(p, items.head, depth + 1, visited);
      ItemsAreKept(p, items.tail, depth, Clean(p, items.head, depth + 1, visited).value.visited);
    }
  }

  lemma {:induction false} FieldsAreKept(p: Policy, fields: Fields, depth: nat, visited: nat)
    requires visited + NodesOfFields(p, fields, depth) <= MAX_NODES && depth <= MAX_DEPTH
             && !DeepFields(p, fields, depth)
    requires CleanFields(p, fields, depth, visited).Ok?
    ensures CleanFields(p, fields, depth, visited).value.value == RedactedFields(p, fields)
    decreases fields
  {
    if fields.Field? {
      if p.secret(fields.key) {
        FieldsAreKept(p, fields.rest, depth, visited);
      } else {
        Produced(p, fields.value, depth + 1, visited);
        WithinBoundsAllIsKept(p, fields.value, depth + 1, visited);
        FieldsAreKept(p, fields.rest, depth, Clean(p, fields.value, depth + 1, visited).value.visited);
      }
    }
  }

  // A copy in which subtrees may have become markers and the ends of lists and objects may be gone;
  // what is left is cleaned and redacted, under its own key and in its own place.
  predicate Pruned(p: Policy, v: Tree, kept: Tree) {
    kept == Text(p.omitted) ||
    match v
    case Object(fields) => kept.Object? && PrunedFields(p, fields, kept.fields)
    case Array(items) => kept.Array? && PrunedItems(p, items, kept.items)
    case Text(s) => kept == Text(CleanText(p, s))
    case _ => kept == v
  }

  predicate PrunedItems(p: Policy, items: Items, kept: Items) {
    match kept
    case NoItems => true
    case Item(head, tail) => items.Item? && Pruned(p, items.head, head) && PrunedItems(p, items.tail, tail)
  }

  predicate PrunedFields(p: Policy, fields: Fields, kept: Fields) {
    match kept
    case NoFields => true
    case Field(key, value, rest) =>
      && fields.Field? && key == fields.key
      && (if p.secret(key) then value == Text(p.redacted) else Pruned(p, fields.value, value))
      && PrunedFields(p, fields.rest, rest)
  }

  // Whatever the payload, the walk returns a pruned copy of it. How much is left is in `Produced`.
  lemma {:induction false} WalkPrunes(p: Policy, v: Tree, depth: nat, visited: nat)
    requires Clean(p, v, depth, visited).Ok?
    ensures Pruned(p, v, Clean(p, v, depth, visited).value.value)
    decreases v
  {
    if visited < MAX_NODES && depth <= MAX_DEPTH {
      match v
      case Object(fields) => WalkPrunesFields(p, fields, depth, visited + 1);
      case Array(items) => WalkPrunesItems(p, items, depth, visited + 1);
      case _ =>
    }
  }

  lemma {:induction false} WalkPrunesItems(p: Policy, items: Items, depth: nat, visited: nat)
    requires CleanItems(p, items, depth, visited).Ok?
    ensures PrunedItems(p, items, CleanItems(p, items, depth, visited).value.value)
    decreases items
  {
    if items.Item? {
      WalkPrunes(p, items.head, depth + 1, visited);
      var n := Clean(p, items.head, depth + 1, visited).value.visited;
      if n <= MAX_NODES {
        WalkPrunesItems(p, items.tail, depth, n);
      }
    }
  }

  lemma {:induction false} WalkPrunesFields(p: Policy, fields: Fields, depth: nat, visited: nat)
    requires CleanFields(p, fields, depth, visited).Ok?
    ensures PrunedFields(p, fields, CleanFields(p, fields, depth, visited).value.value)
    decreases fields
  {
    if fields.Field? {
      var n := visited;
      if !p.secret(fields.key) {
        WalkPrunes(p, fields.value, depth + 1, visited);
        n := Clean(p, fields.value, depth + 1, visited).value.visited;
      }
      if n <= MAX_NODES {
        WalkPrunesFields(p, fields.rest, depth, n);
      }
    }
  }

  // ---- The order of stored keys -------------------------------------------------------

  // The texts agree up to here, where the first has the smaller character.
  predicate DiffersAt(a: string, b: string, k: int) {
    0 <= k < |a| && k < |b| && a[..k] == b[..k] && a[k] < b[k]
  }

  // Keys are stored in the order of their characters: a prefix first, otherwise by the first difference.
  lemma {:induction false} BeforeIff(a: string, b: string)
    ensures Before(a, b) <==> a <= b || exists k :: DiffersAt(a, b, k)
  {
    if |a| > 0 && |b| > 0 && a[0] == b[0] {
      BeforeIff(a[1..], b[1..]);
      if k :| DiffersAt(a, b, k) {
        assert k > 0;
        assert a[..k][1..] == a[1..][..k - 1] && b[..k][1..] == b[1..][..k - 1];
        assert DiffersAt(a[1..], b[1..], k - 1);
      }
      if k :| DiffersAt(a[1..], b[1..], k) {
        assert a[..k + 1] == [a[0]] + a[1..][..k] && b[..k + 1] == [b[0]] + b[1..][..k];
        assert DiffersAt(a, b, k + 1);
      }
      if a[1..] <= b[1..] {
        assert a == [a[0]] + a[1..] && b == [b[0]] + b[1..];
      }
    } else if |a| > 0 && |b| > 0 {
      if a[0] < b[0] {
        assert DiffersAt(a, b, 0);
      }
      if k :| DiffersAt(a, b, k) {
        assert k > 0 ==> a[..k][0] == b[..k][0];
      }
    }
  }
}
