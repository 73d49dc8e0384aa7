// The private trace store: recording a bounded payload, and reading rows back only if bounding
// them again changes nothing.
module TraceStore {
  import opened Outcomes
  import opened Numerals
  import opened Sequences
  import opened BoundedTrace

  const MAX_RECORD_BYTES := 512 * 1024
  const MAX_TOTAL_BYTES := 32 * 1024 * 1024
  const MAX_RECORDS := 8192
  const MAX_OPERATIONS := 256
  const PREVIEW_BYTES := 64 * 1024

  // ---- The walk with its shared counters ----------------------------------------------

  function ConcatItems(a: Items, b: Items): Items {
    match a
    case NoItems => b
    case Item(head, tail) => Item(head, ConcatItems(tail, b))
  }

  function ConcatFields(a: Fields, b: Fields): Fields {
    match a
    case NoFields => b
    case Field(key, value, rest) => Field(key, value, ConcatFields(rest, b))
  }

  lemma {:induction false} ItemsAssociate(a: Items, b: Items, c: Items)
    ensures ConcatItems(ConcatItems(a, b), c) == ConcatItems(a, ConcatItems(b, c))
    ensures ConcatItems(a, NoItems) == a
  {
    if a.Item? {
      ItemsAssociate(a.tail, b, c);
    }
  }

  lemma {:induction false} FieldsAssociate(a: Fields, b: Fields, c: Fields)
    ensures ConcatFields(ConcatFields(a, b), c) == ConcatFields(a, ConcatFields(b, c))
    ensures ConcatFields(a, NoFields) == a
  {
    if a.Field? {
      FieldsAssociate(a.rest, b, c);
    }
  }

  // The result of a loop that has written `done` and still has a walk of the rest ahead.
  function ItemsAhead(done: Items, truncated: bool, ahead: Result<Walk<Items>>): Result<Walk<Items>> {
    if ahead.Err? then ahead
    else Ok(Walk(ConcatItems(done, ahead.value.value), ahead.value.visited, truncated || ahead.value.truncated))
  }

  function FieldsAhead(done: Fields, truncated: bool, ahead: Result<Walk<Fields>>): Result<Walk<Fields>> {
    if ahead.Err? then ahead
    else Ok(Walk(ConcatFields(done, ahead.value.value), ahead.value.visited, truncated || ahead.value.truncated))
  }

  // A method's result and the counters it leaves are those of the specified walk.
  ghost predicate Agrees<T>(w: Result<Walk<T>>, r: Result<T>, visited: nat, before: bool, truncated: bool) {
    if r.Err? then w == Err(r.code)
    else w.Ok? && w.value.value == r.value && w.value.visited == visited && truncated == (before || w.value.truncated)
  }

  class Cleaner {
    const policy: Policy
    var visited: nat
    var truncated: bool

    constructor (policy: Policy)
      ensures this.policy == policy && visited == 0 && !truncated
    {
      this.policy, visited, truncated := policy, 0, false;
    }

    method CleanValue(value: Tree, depth: nat) returns (r: Result<Tree>)
      modifies this
      ensures Agrees(Clean(policy, value, depth, old(visited)), r, visited, old(truncated), truncated)
      decreases value
    {
      visited := visited + 1;
      if visited > MAX_NODES || depth > MAX_DEPTH {
        truncated := true;
        return Ok(Text(policy.omitted));
      }
      match value
      case Object(fields) =>
        var cleaned := CleanObject(fields, depth);
        r := if cleaned.Ok? then Ok(Object(cleaned.value)) else Err(cleaned.code);
      case Array(items) =>
        var cleaned := CleanArray(items, depth);
        r := if cleaned.Ok? then Ok(Array(cleaned.value)) else Err(cleaned.code);
      case Text(s) =>
        var scrubbed := policy.scrub(s);
        if ByteLength(scrubbed) > MAX_CONTENT_BYTES {
          truncated := true;
        }
        CutKeepsWhatFits(scrubbed, MAX_CONTENT_BYTES);
        return Ok(Text(Cut(scrubbed, MAX_CONTENT_BYTES)));
      case Opaque =>
        return Err("private_trace_value_invalid");
      case _ =>
        return Ok(value);
    }

    method CleanArray(items: Items, depth: nat) returns (r: Result<Items>)
      requires visited <= MAX_NODES
      modifies this
      ensures Agrees(CleanItems(policy, items, depth, old(visited)), r, visited, old(truncated), truncated)
      decreases items
    {
      ghost var w, cut := CleanItems(policy, items, depth, visited), false;
      var output, rest := NoItems, items;
      while rest.Item?
        invariant visited <= MAX_NODES && truncated == (old(truncated) || cut)
        invariant w == ItemsAhead(output, cut, CleanItems(policy, rest, depth, visited))
        invariant rest == items || rest < items
        decreases rest
      {
        ghost var step := Clean(policy, rest.head, depth + 1, visited);
        var child := CleanValue(rest.head, depth + 1);
        if child.Err? {
          return Err(child.code);
        }
        ghost var ahead := if visited > MAX_NODES then NoItems else
          (var t := CleanItems(policy, rest.tail, depth, visited); if t.Ok? then t.value.value else NoItems);
        ItemsAssociate(output, Item(child.value, NoItems), ahead);
        output := ConcatItems(output, Item(child.value, NoItems));
        cut := cut || step.value.truncated;
        if visited > MAX_NODES {
          ItemsAssociate(output, NoItems, NoItems);
          return Ok(output);
        }
        rest := rest.tail;
      }
      ItemsAssociate(output, NoItems, NoItems);
      return Ok(output);
    }

    method CleanObject(fields: Fields, depth: nat) returns (r: Result<Fields>)
      requires visited <= MAX_NODES
      modifies this
      ensures Agrees(CleanFields(policy, fields, depth, old(visited)), r, visited, old(truncated), truncated)
      decreases fields
    {
      ghost var w, cut := CleanFields(policy, fields, depth, visited), false;
      var output, rest := NoFields, fields;
      while rest.Field?
        invariant visited <= MAX_NODES && truncated == (old(truncated) || cut)
        invariant w == FieldsAhead(output, cut, CleanFields(policy, rest, depth, visited))
        invariant rest == fields || rest < fields
        decreases rest
      {
        if |rest.key| > MAX_KEY {
          return Err("private_trace_key_invalid");
        }
        ghost var step := Clean(policy, rest.value, depth + 1, visited);
        ghost var secret := policy.secret(rest.key);
        var child := Ok(Text(policy.redacted));
        if !policy.secret(rest.key) {
          child := CleanValue(rest.value, depth + 1);
          if child.Err? {
            return Err(child.code);
          }
        }
        ghost var ahead := if visited > MAX_NODES then NoFields else
          (var t := CleanFields(policy, rest.rest, depth, visited); if t.Ok? then t.value.value else NoFields);
        FieldsAssociate(output, Field(rest.key, child.value, NoFields), ahead);
        output := ConcatFields(output, Field(rest.key, child.value, NoFields));
        cut := cut || (!secret && step.value.truncated);
        if visited > MAX_NODES {
          FieldsAssociate(output, NoFields, NoFields);
          return Ok(output);
        }
        rest := rest.rest;
      }
      FieldsAssociate(output, NoFields, NoFields);
      return Ok(output);
    }
  }

  // ---- Bounding a payload -------------------------------------------------------------

  function PreviewText(p: Policy, v: Tree): string {
    Cut(p.encode(v), PREVIEW_BYTES)
  }

  function Preview(p: Policy, text: string): Tree {
    Object(Field(p.why.0, Text(p.why.1), Field(p.shown, Text(text), NoFields)))
  }

  // Bounding what the library's pass made of a payload.
  function Capped(p: Policy, payload: Tree): Result<(Tree, bool)> {
    var w := Clean(p, payload, 0, 0);
    if w.Err? then Err(w.code)
    else if |p.encode(w.value.value)| > MAX_RECORD_BYTES then Ok((Preview(p, PreviewText(p, w.value.value)), true))
    else Ok((w.value.value, w.value.truncated))
  }

  // The whole bounding of a payload: the library's pass first.
  function Bounded(p: Policy, payload: Tree): Result<(Tree, bool)> {
    Capped(p, p.redact(payload))
  }

  method BoundedPayload(p: Policy, payload: Tree) returns (r: Result<(Tree, bool)>)
    ensures r == Bounded(p, payload)
  {
    var cleaner := new Cleaner(p);
    var cleaned := cleaner.CleanValue(p.redact(payload), 0);
    if cleaned.Err? {
      return Err(cleaned.code);
    }
    var encoded := p.encode(cleaned.value);
    if |encoded| > MAX_RECORD_BYTES {
      return Ok((Preview(p, Cut(encoded, PREVIEW_BYTES)), true));
    }
    return Ok((cleaned.value, cleaner.truncated));
  }

  // Facts about the fixed words and the text format: the marker and the words of a preview pass
  // the scrubber, canonical text depends on no key order, a preview fits a record, and the library's
  // pass makes a mapping of a mapping. Nothing is assumed of how the scrubber treats any other text.
  ghost predicate Sane(p: Policy) {
    && Words(p)
    && (forall v: Tree {:trigger p.redact(v)} :: v.Object? ==> p.redact(v).Object?)
    && (forall v {:trigger p.encode(Canon(v))} :: p.encode(Canon(v)) == p.encode(v))
    && (forall t: string {:trigger p.encode(Preview(p, t))} :: ByteLength(t) <= PREVIEW_BYTES ==>
        |p.encode(Preview(p, t))| <= MAX_RECORD_BYTES)
    && (forall t: string {:trigger p.encode(Preview(p, CleanText(p, t)))} :: ByteLength(t) <= PREVIEW_BYTES ==>
        |p.encode(Preview(p, CleanText(p, t)))| <= MAX_RECORD_BYTES)
    && !p.secret(p.why.0) && !p.secret(p.shown) && |p.why.0| <= MAX_KEY && |p.shown| <= MAX_KEY
    && Before(p.why.0, p.shown) && CleanText(p, p.why.1) == p.why.1
  }

  // These assumptions can be met.
  lemma SanePolicyExists()
    ensures exists p :: Sane(p)
  {
    var p := Policy("", "", ("a", ""), "b", _ => false, s => s, v => v, _ => "");
    assert Before("a", "b");
    assert Sane(p);
  }

  // The check a reader makes of a stored payload.
  predicate Rereads(p: Policy, content: Tree, truncated: bool) {
    var again := Bounded(p, content);
    again.Ok? && again.value.0 == content && (again.value.1 ==> truncated)
  }

  // The same check where the library's pass leaves the stored payload alone.
  predicate Recaps(p: Policy, content: Tree, truncated: bool) {
    var again := Capped(p, content);
    again.Ok? && again.value.0 == content && (again.value.1 ==> truncated)
  }

  // When the stored form of a payload survives a second bounding: the preview of an oversized
  // payload scrubs to itself; any other can be walked again, which its own shape and texts decide.
  predicate Repeatable(p: Policy, payload: Tree)
    requires Clean(p, payload, 0, 0).Ok?
  {
    var cleaned := Clean(p, payload, 0, 0).value.value;
    if |p.encode(cleaned)| > MAX_RECORD_BYTES then CleanText(p, PreviewText(p, cleaned)) == PreviewText(p, cleaned)
    else Rewalkable(p, payload)
  }

  lemma TwoTexts(p: Policy, first: string, s: string, second: string, t: string)
    requires !p.secret(first) && !p.secret(second) && |first| <= MAX_KEY && |second| <= MAX_KEY
    ensures var w := Clean(p, Object(Field(first, Text(s), Field(second, Text(t), NoFields))), 0, 0);
            && w.Ok? && w.value.value ==
              Object(Field(first, Text(CleanText(p, s)), Field(second, Text(CleanText(p, t)), NoFields)))
            && w.value.truncated ==
              (ByteLength(p.scrub(s)) > MAX_CONTENT_BYTES || ByteLength(p.scrub(t)) > MAX_CONTENT_BYTES)
  {
    var inner := Field(second, Text(t), NoFields);
    assert CleanFields(p, inner, 0, 2).Ok?;
    assert CleanFields(p, Field(first, Text(s), inner), 0, 1).Ok?;
  }

  lemma TwoKeys(first: string, s: string, second: string, t: string)
    requires Before(first, second)
    ensures var v := Object(Field(first, Text(s), Field(second, Text(t), NoFields))); Canon(v) == v
  {
    var inner := Field(second, Text(t), NoFields);
    assert CanonFields(inner) == inner;
    assert CanonFields(Field(first, Text(s), inner)) == Field(first, Text(s), inner);
  }

  lemma PreviewAgain(p: Policy, text: string)
    requires Sane(p) && ByteLength(text) <= PREVIEW_BYTES
    ensures Canon(Preview(p, text)) == Preview(p, text)
    ensures Recaps(p, Preview(p, text), true) <==> CleanText(p, text) == text
  {
    TwoKeys(p.why.0, p.why.1, p.shown, text);
    TwoTexts(p, p.why.0, p.why.1, p.shown, text);
    var cleaned := Preview(p, CleanText(p, text));
    assert Clean(p, Preview(p, text), 0, 0).value.value == cleaned;
    assert |p.encode(cleaned)| <= MAX_RECORD_BYTES;
    RereadsCleaned(p, Preview(p, text), cleaned);
    assert cleaned.fields.rest.value == Text(CleanText(p, text));
  }

  lemma RereadsCleaned(p: Policy, content: Tree, cleaned: Tree)
    requires Clean(p, content, 0, 0).Ok? && Clean(p, content, 0, 0).value.value == cleaned
             && |p.encode(cleaned)| <= MAX_RECORD_BYTES
    ensures Recaps(p, content, true) <==> cleaned == content
  {
  }

  predicate PreviewIsSmall(p: Policy, text: string) {
    Clean(p, Preview(p, text), 0, 0).Ok? && |p.encode(Clean(p, Preview(p, text), 0, 0).value.value)| <= MAX_RECORD_BYTES
  }

  // Cleaning a preview never makes it oversized.
  lemma PreviewStaysSmall(p: Policy, text: string)
    requires Sane(p) && ByteLength(text) <= PREVIEW_BYTES
    ensures PreviewIsSmall(p, text)
  {
    TwoTexts(p, p.why.0, p.why.1, p.shown, text);
    assert Clean(p, Preview(p, text), 0, 0).value.value == Preview(p, CleanText(p, text));
  }

  lemma SameText(p: Policy, v: Tree)
    requires Sane(p)
    ensures p.encode(Canon(v)) == p.encode(v)
  {
  }

  // A reader walks a stored tree that is not oversized: no preview can pass for it.
  lemma RereadsWalk(p: Policy, stored: Tree, truncated: bool)
    requires Clean(p, stored, 0, 0).Ok? && |p.encode(stored)| <= MAX_RECORD_BYTES
    requires PreviewIsSmall(p, PreviewText(p, Clean(p, stored, 0, 0).value.value))
    ensures var again := Clean(p, stored, 0, 0).value;
            Recaps(p, stored, truncated) <==> again.value == stored && (again.truncated ==> truncated)
  {
    var again := Clean(p, stored, 0, 0).value;
    assert |p.encode(again.value)| > MAX_RECORD_BYTES ==>
           Capped(p, stored) == Ok((Preview(p, PreviewText(p, again.value)), true));
  }

  lemma WalkedIs(p: Policy, stored: Tree, truncated: bool, ok: bool)
    requires Clean(p, stored, 0, 0).Ok? && |p.encode(stored)| <= MAX_RECORD_BYTES
    requires forall text :: ByteLength(text) <= PREVIEW_BYTES ==> PreviewIsSmall(p, text)
    requires var again := Clean(p, stored, 0, 0).value;
             (again.value == stored && (again.truncated ==> truncated)) <==> ok
    ensures Recaps(p, stored, truncated) <==> ok
  {
    var text := PreviewText(p, Clean(p, stored, 0, 0).value.value);
    assert ByteLength(text) <= PREVIEW_BYTES;
    assert PreviewIsSmall(p, text);
    RereadsWalk(p, stored, truncated);
  }

  lemma RereadIffSmall(p: Policy, payload: Tree)
    requires Words(p) && Clean(p, payload, 0, 0).Ok?
    requires var w := Clean(p, payload, 0, 0).value;
             |p.encode(w.value)| <= MAX_RECORD_BYTES && p.encode(Canon(w.value)) == p.encode(w.value)
    requires forall text :: ByteLength(text) <= PREVIEW_BYTES ==> PreviewIsSmall(p, text)
    ensures var w := Clean(p, payload, 0, 0).value;
            Recaps(p, Canon(w.value), w.truncated) <==> Rewalkable(p, payload)
  {
    var w := Clean(p, payload, 0, 0).value;
    StoredTreeIff(p, payload);
    WalkedIs(p, Canon(w.value), w.truncated, Rewalkable(p, payload));
  }

  lemma SmallIff(p: Policy, payload: Tree)
    requires Sane(p) && Clean(p, payload, 0, 0).Ok?
             && |p.encode(Clean(p, payload, 0, 0).value.value)| <= MAX_RECORD_BYTES
    ensures var w := Clean(p, payload, 0, 0).value;
            Recaps(p, Canon(w.value), w.truncated) <==> Rewalkable(p, payload)
  {
    SameText(p, Clean(p, payload, 0, 0).value.value);
    forall text | ByteLength(text) <= PREVIEW_BYTES
      ensures PreviewIsSmall(p, text)
    {
      PreviewStaysSmall(p, text);
    }
    RereadIffSmall(p, payload);
  }

  lemma LargeIff(p: Policy, payload: Tree)
    requires Sane(p) && Clean(p, payload, 0, 0).Ok?
             && |p.encode(Clean(p, payload, 0, 0).value.value)| > MAX_RECORD_BYTES
    ensures var text := PreviewText(p, Clean(p, payload, 0, 0).value.value);
            Recaps(p, Canon(Preview(p, text)), true) <==> CleanText(p, text) == text
  {
    PreviewAgain(p, PreviewText(p, Clean(p, payload, 0, 0).value.value));
  }

  predicate CappedRecaps(p: Policy, payload: Tree)
    requires Clean(p, payload, 0, 0).Ok?
  {
    var (bounded, truncated) := Capped(p, payload).value;
    Recaps(p, Canon(bounded), truncated)
  }

  lemma SmallIsWalked(p: Policy, payload: Tree)
    requires Clean(p, payload, 0, 0).Ok? && |p.encode(Clean(p, payload, 0, 0).value.value)| <= MAX_RECORD_BYTES
    requires var w := Clean(p, payload, 0, 0).value; Recaps(p, Canon(w.value), w.truncated) <==> Rewalkable(p, payload)
    ensures CappedRecaps(p, payload) <==> Repeatable(p, payload)
  {
    var w := Clean(p, payload, 0, 0).value;
    assert Capped(p, payload) == Ok((w.value, w.truncated));
  }

  lemma LargeIsPreviewed(p: Policy, payload: Tree)
    requires Clean(p, payload, 0, 0).Ok? && |p.encode(Clean(p, payload, 0, 0).value.value)| > MAX_RECORD_BYTES
    requires var text := PreviewText(p, Clean(p, payload, 0, 0).value.value);
             Recaps(p, Canon(Preview(p, text)), true) <==> CleanText(p, text) == text
    ensures CappedRecaps(p, payload) <==> Repeatable(p, payload)
  {
    var text := PreviewText(p, Clean(p, payload, 0, 0).value.value);
    assert Capped(p, payload) == Ok((Preview(p, text), true));
  }

  lemma CappedRecapsIff(p: Policy, payload: Tree)
    requires Sane(p) && Clean(p, payload, 0, 0).Ok?
    ensures CappedRecaps(p, payload) <==> Repeatable(p, payload)
  {
    if |p.encode(Clean(p, payload, 0, 0).value.value)| > MAX_RECORD_BYTES {
      LargeIff(p, payload);
      LargeIsPreviewed(p, payload);
    } else {
      SmallIff(p, payload);
      SmallIsWalked(p, payload);
    }
  }

  // The library's pass leaves alone what recording a payload stores.
  predicate StaysRedacted(p: Policy, payload: Tree)
    requires Bounded(p, payload).Ok?
  {
    var stored := Canon(Bounded(p, payload).value.0);
    p.redact(stored) == stored
  }

  // Exactly when a reader accepts the row that recording a payload writes, if the library's pass
  // has nothing left to do on it.
  lemma RereadIff(p: Policy, payload: Tree)
    requires Sane(p) && Bounded(p, payload).Ok? && StaysRedacted(p, payload)
    ensures var (bounded, truncated) := Bounded(p, payload).value;
            Rereads(p, Canon(bounded), truncated) <==> Repeatable(p, p.redact(payload))
  {
    CappedRecapsIff(p, p.redact(payload));
  }

  lemma OneText(p: Policy, key: string, s: string)
    requires !p.secret(key) && |key| <= MAX_KEY
    ensures Clean(p, OneField(key, s), 0, 0) ==
      Ok(Walk(OneField(key, CleanText(p, s)), 2, ByteLength(p.scrub(s)) > MAX_CONTENT_BYTES))
  {
    var fields, cut := Field(key, Text(s), NoFields), ByteLength(p.scrub(s)) > MAX_CONTENT_BYTES;
    assert Clean(p, Text(s), 1, 1) == Ok(Walk(Text(CleanText(p, s)), 2, cut));
    assert CleanFields(p, NoFields, 0, 2) == Ok(Walk(NoFields, 2, false));
    assert CleanFields(p, fields, 0, 1) == Ok(Walk(Field(key, Text(CleanText(p, s)), NoFields), 2, cut));
  }

  lemma OneTextMet(p: Policy, q: string -> bool, key: string, s: string)
    requires !p.secret(key)
    ensures AllMet(p, q, OneField(key, s), 0, 0) == q(s)
  {
    var fields := Field(key, Text(s), NoFields);
    assert AllMet(p, q, Text(s), 1, 1) == q(s);
    assert AllMetInFields(p, q, NoFields, 0, 2);
    assert AllMetInFields(p, q, fields, 0, 1) == q(s);
  }

  // The library's pass leaves alone a payload and what recording it stores.
  predicate LeftAlone(p: Policy, payload: Tree) {
    p.redact(payload) == payload && (Bounded(p, payload).Ok? ==> StaysRedacted(p, payload))
  }

  // What refusing a recorded payload comes down to, when it is not oversized.
  lemma RefusedMeans(p: Policy, payload: Tree, recaps: bool)
    requires LeftAlone(p, payload) && Clean(p, payload, 0, 0).Ok?
    requires var w := Clean(p, payload, 0, 0).value;
             |p.encode(w.value)| <= MAX_RECORD_BYTES && (Recaps(p, Canon(w.value), w.truncated) <==> recaps)
    ensures RecordedAndRefused(p, payload) <==> !recaps
  {
  }

  lemma RefusedIff(p: Policy, payload: Tree, ok: bool)
    requires Sane(p) && LeftAlone(p, payload) && Clean(p, payload, 0, 0).Ok? && (ok <==> Rewalkable(p, payload))
    ensures |p.encode(Clean(p, payload, 0, 0).value.value)| <= MAX_RECORD_BYTES ==>
            (RecordedAndRefused(p, payload) <==> !ok)
  {
    if |p.encode(Clean(p, payload, 0, 0).value.value)| <= MAX_RECORD_BYTES {
      SmallIff(p, payload);
      RefusedMeans(p, payload, ok);
    }
  }

  // The record of a single text field.
  function OneField(key: string, s: string): Tree {
    Object(Field(key, Text(s), NoFields))
  }

  // A text that is cleaned further on the second pass: recorded, and then refused.
  lemma UnsteadyIsRefused(p: Policy, key: string, s: string)
    requires Sane(p) && LeftAlone(p, OneField(key, s)) && !p.secret(key) && |key| <= MAX_KEY
    requires CleanText(p, CleanText(p, s)) != CleanText(p, s)
    ensures var w := Clean(p, OneField(key, s), 0, 0);
            w.Ok? && (|p.encode(w.value.value)| <= MAX_RECORD_BYTES ==> RecordedAndRefused(p, OneField(key, s)))
  {
    OneText(p, key, s);
    OneTextMet(p, Steady(p), key, s);
    RefusedIff(p, OneField(key, s), false);
  }

  lemma {:induction false} ShortFits(s: string)
    ensures ByteLength(s) <= 4 * |s|
  {
    if |s| > 0 {
      ShortFits(s[1..]);
    }
  }

  ghost predicate RecordedAndRefused(p: Policy, payload: Tree) {
    Bounded(p, payload).Ok? &&
    var (bounded, truncated) := Bounded(p, payload).value;
    !Rereads(p, Canon(bounded), truncated)
  }

  const HEADER_WITH_SECRET := "-----BEGIN password=a-b PRIVATE KEY-----z-----END PRIVATE KEY-----"
  const HEADER_REDACTED := "-----BEGIN [redacted] PRIVATE KEY-----z-----END PRIVATE KEY-----"
  const KEY_REDACTED := "[redacted private key]"

  // A short text is never cut.
  lemma ShortIsScrubbed(p: Policy, s: string)
    requires |p.scrub(s)| <= 1000
    ensures CleanText(p, s) == p.scrub(s)
  {
    ShortFits(p.scrub(s));
    CutKeepsWhatFits(p.scrub(s), MAX_CONTENT_BYTES);
  }

  // A short text that is scrubbed to a second and that to a third.
  lemma TwiceScrubbedIsRefused(p: Policy, key: string, first: string)
    requires Sane(p) && LeftAlone(p, OneField(key, first)) && !p.secret(key) && |key| <= MAX_KEY
    requires |p.scrub(first)| <= 1000 && |p.scrub(p.scrub(first))| <= 1000 && p.scrub(p.scrub(first)) != p.scrub(first)
    requires |p.encode(OneField(key, p.scrub(first)))| <= MAX_RECORD_BYTES
    ensures RecordedAndRefused(p, OneField(key, first))
  {
    ShortIsScrubbed(p, first);
    ShortIsScrubbed(p, p.scrub(first));
    OneText(p, key, first);
    UnsteadyIsRefused(p, key, first);
  }

  // The scrubber's two patterns take the first of these texts to the second and that to the third:
  // the secret's hyphen keeps the header from matching until it is gone. Under every scrubber
  // that does, the record of such a text is written and never read.
  lemma HeaderSecretIsRefused(p: Policy, key: string)
    requires Sane(p) && LeftAlone(p, OneField(key, HEADER_WITH_SECRET)) && !p.secret(key) && |key| <= MAX_KEY
    requires p.scrub(HEADER_WITH_SECRET) == HEADER_REDACTED && p.scrub(HEADER_REDACTED) == KEY_REDACTED
    requires |p.encode(OneField(key, HEADER_REDACTED))| <= MAX_RECORD_BYTES
    ensures RecordedAndRefused(p, OneField(key, HEADER_WITH_SECRET))
  {
    RedactedLengths();
    TwiceScrubbedIsRefused(p, key, HEADER_WITH_SECRET);
  }

  lemma RedactedLengths()
    ensures |HEADER_REDACTED| <= 1000 && |KEY_REDACTED| <= 1000 && KEY_REDACTED != HEADER_REDACTED
  {
    assert |HEADER_REDACTED| > |KEY_REDACTED|;
  }

  // A scrubber that does nothing else.
  function HeaderScrubber(s: string): string {
    if s == HEADER_WITH_SECRET then HEADER_REDACTED else if s == HEADER_REDACTED then KEY_REDACTED else s
  }

  // There are such policies.
  lemma HeaderPolicyExists()
    ensures exists p: Policy ::
              && p.scrub == HeaderScrubber && Sane(p) && LeftAlone(p, OneField("a", HEADER_WITH_SECRET))
              && !p.secret("a")
              && |p.encode(OneField("a", HEADER_REDACTED))| <= MAX_RECORD_BYTES
  {
    var p := Policy("", "", ("a", ""), "b", _ => false, HeaderScrubber, v => v, _ => "");
    assert Before("a", "b");
    assert Sane(p);
  }

  function Nulls(n: nat): Items {
    if n == 0 then NoItems else Item(Null, Nulls(n - 1))
  }

  lemma {:induction false} NullsOverflow(p: Policy, n: nat, depth: nat, visited: nat)
    requires depth < MAX_DEPTH && visited <= MAX_NODES < visited + n
    ensures CleanItems(p, Nulls(n), depth, visited).Ok?
            && CleanItems(p, Nulls(n), depth, visited).value.visited > MAX_NODES
  {
    if visited + 1 <= MAX_NODES {
      NullsOverflow(p, n - 1, depth, visited + 1);
    }
  }

  function OutOfOrder(first: string, second: string, n: nat): Tree {
    Object(Field(first, Null, Field(second, Array(Nulls(n)), NoFields)))
  }

  lemma OutOfOrderWalk(p: Policy, first: string, second: string, n: nat) returns (cut: Walk<Items>)
    requires !p.secret(first) && !p.secret(second) && |first| <= MAX_KEY && |second| <= MAX_KEY && n > MAX_NODES
    ensures cut.visited > MAX_NODES
    ensures Clean(p, OutOfOrder(first, second, n), 0, 0) ==
      Ok(Walk(Object(Field(first, Null, Field(second, Array(cut.value), NoFields))), cut.visited, cut.truncated))
  {
    var inner := Field(second, Array(Nulls(n)), NoFields);
    NullsOverflow(p, n, 1, 3);
    cut := CleanItems(p, Nulls(n), 1, 3).value;
    assert Clean(p, Array(Nulls(n)), 1, 2) == Ok(Walk(Array(cut.value), cut.visited, cut.truncated));
    assert CleanFields(p, inner, 0, 2) ==
           Ok(Walk(Field(second, Array(cut.value), NoFields), cut.visited, cut.truncated));
    var fields := Field(first, Null, Field(second, Array(cut.value), NoFields));
    assert Clean(p, Null, 1, 1) == Ok(Walk(Null, 2, false));
    assert CleanFields(p, Field(first, Null, inner), 0, 1) == Ok(Walk(fields, cut.visited, cut.truncated));
  }

  lemma StoredEndsInNull(p: Policy, first: string, second: string, value: Tree)
    requires !Before(first, second)
    ensures !EndsOmitted(p, Canon(Object(Field(first, Null, Field(second, value, NoFields)))))
  {
    var inner := Field(second, value, NoFields);
    var stored := Field(second, Canon(value), NoFields);
    assert CanonFields(inner) == stored;
    assert Insert(first, Null, stored) == Field(second, Canon(value), Field(first, Null, NoFields));
    assert CanonFields(Field(first, Null, inner)) == Field(second, Canon(value), Field(first, Null, NoFields));
    assert !FieldsEndOmitted(p, Field(first, Null, NoFields));
  }

  lemma OutOfOrderIsNotRewalkable(p: Policy, first: string, second: string, n: nat)
    requires !p.secret(first) && !p.secret(second) && |first| <= MAX_KEY && |second| <= MAX_KEY
    requires !Before(first, second) && n > MAX_NODES
    ensures Clean(p, OutOfOrder(first, second, n), 0, 0).Ok? && !Rewalkable(p, OutOfOrder(first, second, n))
  {
    var v := OutOfOrder(first, second, n);
    var cut := OutOfOrderWalk(p, first, second, n);
    StoredEndsInNull(p, first, second, Array(cut.value));
    Produced(p, v, 0, 0);
    StoredEnd(p, v, 0, 0);
  }

  // The budget cuts in the order keys were added, storage sorts them: whenever a short field
  // precedes a long list under a smaller key, recording succeeds and the row is never read.
  lemma OutOfOrderIsRefused(p: Policy, first: string, second: string, n: nat)
    requires Sane(p) && LeftAlone(p, OutOfOrder(first, second, n)) && !p.secret(first) && !p.secret(second)
             && |first| <= MAX_KEY && |second| <= MAX_KEY
    requires !Before(first, second) && n > MAX_NODES
    ensures var w := Clean(p, OutOfOrder(first, second, n), 0, 0);
            w.Ok? && (|p.encode(w.value.value)| <= MAX_RECORD_BYTES ==>
                      RecordedAndRefused(p, OutOfOrder(first, second, n)))
  {
    OutOfOrderIsNotRewalkable(p, first, second, n);
    RefusedIff(p, OutOfOrder(first, second, n), false);
  }

  // ---- The store ----------------------------------------------------------------------

  datatype Row = Row(operation: string, category: string, payload: Tree, bytes: nat, truncated: bool)

  predicate CategoryName(s: string) {
    1 <= |s| <= 64 && 'a' <= s[0] <= 'z' &&
    forall i :: 1 <= i < |s| ==> ('a' <= s[i] <= 'z' || '0' <= s[i] <= '9' || s[i] == '_' || s[i] == '.')
  }

  function Total(rows: seq<Row>): nat {
    if |rows| == 0 then 0 else Total(rows[..|rows| - 1]) + rows[|rows| - 1].bytes
  }

  datatype Tables = Tables(rows: seq<Row>, omitted: nat)

  datatype Call = Call(operation: string, category: string, payload: Tree)

  function RecordOf(p: Policy, t: Tables, c: Call): Result<Tables> {
    if !OperationId(c.operation) then Err("private_trace_operation_invalid")
    else if !CategoryName(c.category) then Err("private_trace_category_invalid")
    else if !c.payload.Object? then Err("private_trace_payload_invalid")
    else
      var bounded := Bounded(p, c.payload);
      if bounded.Err? then Err(bounded.code) else
      var size := |p.encode(bounded.value.0)|;
      if |t.rows| >= MAX_RECORDS || Total(t.rows) + size > MAX_TOTAL_BYTES then Ok(t.(omitted := t.omitted + 1))
      else Ok(t.(rows := t.rows + [Row(c.operation, c.category, Canon(bounded.value.0), size, bounded.value.1)]))
  }

  // What one call leaves behind; a refused call changes nothing.
  function After(p: Policy, t: Tables, c: Call): Tables {
    var r := RecordOf(p, t, c);
    if r.Ok? then r.value else t
  }

  function Run(p: Policy, calls: seq<Call>): Tables {
    if |calls| == 0 then Tables([], 0) else After(p, Run(p, calls[..|calls| - 1]), calls[|calls| - 1])
  }

  predicate Readable(p: Policy, row: Row) {
    && row.payload.Object? && row.bytes == |p.encode(row.payload)| && OperationId(row.operation)
      && CategoryName(row.category)
    && Rereads(p, row.payload, row.truncated)
  }

  ghost predicate WithinLimits(t: Tables) {
    && |t.rows| <= MAX_RECORDS && Total(t.rows) <= MAX_TOTAL_BYTES
    && forall k :: 0 <= k < |t.rows| ==> t.rows[k].bytes <= MAX_RECORD_BYTES
  }

  // Every row was written by some accepted call, in the form that call's payload takes.
  ghost predicate WrittenBy(p: Policy, row: Row, c: Call) {
    && OperationId(c.operation) && CategoryName(c.category) && c.payload.Object? && Bounded(p, c.payload).Ok?
    && row == Row(c.operation, c.category, Canon(Bounded(p, c.payload).value.0),
                  |p.encode(Bounded(p, c.payload).value.0)|, Bounded(p, c.payload).value.1)
  }

  lemma BoundedFits(p: Policy, payload: Tree)
    requires Sane(p) && Bounded(p, payload).Ok?
    ensures |p.encode(Bounded(p, payload).value.0)| <= MAX_RECORD_BYTES
    ensures payload.Object? ==> Bounded(p, payload).value.0.Object?
  {
    var w := Clean(p, p.redact(payload), 0, 0).value;
    if |p.encode(w.value)| > MAX_RECORD_BYTES {
      assert ByteLength(PreviewText(p, w.value)) <= PREVIEW_BYTES;
    }
  }

  lemma AfterKeepsLimits(p: Policy, t: Tables, c: Call)
    requires Sane(p) && WithinLimits(t)
    ensures WithinLimits(After(p, t, c))
  {
    var r := RecordOf(p, t, c);
    if r.Ok? {
      BoundedFits(p, c.payload);
      assert r.value.rows != t.rows ==> r.value.rows[..|t.rows|] == t.rows;
    }
  }

  // A row written by a call, on which the library's pass has nothing left to do, reads back exactly
  // when the call's redacted payload is repeatable.
  lemma WrittenReads(p: Policy, row: Row, c: Call)
    requires Sane(p) && WrittenBy(p, row, c) && StaysRedacted(p, c.payload)
    ensures Readable(p, row) <==> Repeatable(p, p.redact(c.payload))
  {
    BoundedFits(p, c.payload);
    RereadIff(p, c.payload);
    SameText(p, Bounded(p, c.payload).value.0);
    ReadableIffRereads(p, row, Bounded(p, c.payload).value.0);
  }

  lemma ReadableIffRereads(p: Policy, row: Row, bounded: Tree)
    requires OperationId(row.operation) && CategoryName(row.category) && bounded.Object?
    requires row.payload == Canon(bounded) && row.bytes == |p.encode(bounded)|
             && p.encode(Canon(bounded)) == p.encode(bounded)
    ensures Readable(p, row) <==> Rereads(p, row.payload, row.truncated)
  {
  }

  // Over every run of calls the store stays within its limits, omits instead of overflowing, and
  // every row comes from a call of the run.
  lemma {:induction false} RunKeepsLimits(p: Policy, calls: seq<Call>, k: nat) returns (n: nat)
    requires Sane(p)
    ensures WithinLimits(Run(p, calls))
    ensures k < |Run(p, calls).rows| ==> n < |calls| && WrittenBy(p, Run(p, calls).rows[k], calls[n])
  {
    n := 0;
    if |calls| > 0 {
      var before := Run(p, calls[..|calls| - 1]);
      n := RunKeepsLimits(p, calls[..|calls| - 1], k);
      AfterKeepsLimits(p, before, calls[|calls| - 1]);
      if k >= |before.rows| {
        n := |calls| - 1;
      }
    }
  }

  // If every recorded payload is repeatable and stays redacted, every row of every run is readable.
  lemma RunReads(p: Policy, calls: seq<Call>, k: nat)
    requires Sane(p) && k < |Run(p, calls).rows|
    requires forall n :: 0 <= n < |calls| && Bounded(p, calls[n].payload).Ok? ==>
               StaysRedacted(p, calls[n].payload) && Repeatable(p, p.redact(calls[n].payload))
    ensures Readable(p, Run(p, calls).rows[k])
  {
    var n := RunKeepsLimits(p, calls, k);
    WrittenReads(p, Run(p, calls).rows[k], calls[n]);
  }

  function Selected(rows: seq<Row>, operations: set<string>): seq<Row> {
    if |rows| == 0 then [] else
    var before, last := Selected(rows[..|rows| - 1], operations), rows[|rows| - 1];
    if last.operation in operations then before + [last] else before
  }

  lemma {:induction false} SelectedFits(rows: seq<Row>, operations: set<string>)
    ensures |Selected(rows, operations)| <= |rows| && Total(Selected(rows, operations)) <= Total(rows)
  {
    if |rows| > 0 {
      SelectedFits(rows[..|rows| - 1], operations);
      var before, last := Selected(rows[..|rows| - 1], operations), rows[|rows| - 1];
      assert (before + [last])[..|before|] == before;
    }
  }

  lemma SelectedGrows(rows: seq<Row>, operations: set<string>, k: nat)
    requires k < |rows|
    ensures Selected(rows[..k + 1], operations) ==
      (if rows[k].operation in operations then Selected(rows[..k], operations) + [rows[k]]
       else Selected(rows[..k], operations))
  {
    assert rows[..k + 1][..k] == rows[..k];
  }

  // The reader's checks of one stored row.
  method CheckRow(p: Policy, row: Row) returns (ok: bool)
    ensures ok == Readable(p, row)
  {
    if !row.payload.Object? || row.bytes != |p.encode(row.payload)| || !OperationId(row.operation)
      || !CategoryName(row.category) {
      return false;
    }
    var again := BoundedPayload(p, row.payload);
    return again.Ok? && again.value.0 == row.payload && (again.value.1 ==> row.truncated);
  }

  // The selected ones of the first n rows are readable.
  predicate AllReadable(p: Policy, rows: seq<Row>, operations: set<string>, n: nat)
    requires n <= |rows|
  {
    n == 0 || (AllReadable(p, rows, operations, n - 1)
               && (rows[n - 1].operation in operations ==> Readable(p, rows[n - 1])))
  }

  lemma {:induction false} ReadablePointwise(p: Policy, rows: seq<Row>, operations: set<string>, n: nat)
    requires n <= |rows|
    ensures AllReadable(p, rows, operations, n) <==> forall k :: 0 <= k < n && rows[k].operation in operations ==>
            Readable(p, rows[k])
  {
    if n > 0 {
      ReadablePointwise(p, rows, operations, n - 1);
    }
  }

  lemma {:induction false} StillUnreadable(p: Policy, rows: seq<Row>, operations: set<string>, m: nat, n: nat)
    requires m <= n <= |rows| && !AllReadable(p, rows, operations, m)
    ensures !AllReadable(p, rows, operations, n)
  {
    if m < n {
      StillUnreadable(p, rows, operations, m, n - 1);
    }
  }

  // The loop over the rows of a query, which stops at the first that does not check.
  method ReadRows(p: Policy, rows: seq<Row>, operations: set<string>) returns (r: Result<seq<Row>>)
    ensures r.Ok? <==> AllReadable(p, rows, operations, |rows|)
    ensures r.Ok? ==> r.value == Selected(rows, operations)
  {
    var result: seq<Row> := [];
    for k := 0 to |rows|
      invariant result == Selected(rows[..k], operations) && AllReadable(p, rows, operations, k)
    {
      SelectedGrows(rows, operations, k);
      if rows[k].operation in operations {
        var good := CheckRow(p, rows[k]);
        if !good {
          StillUnreadable(p, rows, operations, k + 1, |rows|);
          return Err("private_trace_record_invalid");
        }
        result := result + [rows[k]];
      }
    }
    WholePrefix(rows);
    return Ok(result);
  }

  class DesignTraceStore {
    const policy: Policy
    var enabled: bool
    var tables: Tables

    ghost predicate Valid()
      reads this
    {
      Sane(policy) && WithinLimits(tables)
    }

    constructor (policy: Policy, enabled: bool)
      requires Sane(policy)
      ensures Valid() && this.policy == policy && this.enabled == enabled && tables == Tables([], 0)
    {
      this.policy, this.enabled, tables := policy, enabled, Tables([], 0);
    }

    method Record(c: Call) returns (r: Result<bool>)
      requires Valid()
      modifies this`tables
      ensures Valid()
      ensures !enabled ==> r == Ok(false) && tables == old(tables)
      ensures enabled ==> tables == After(policy, old(tables), c)
      ensures enabled ==>
              (r.Ok? <==> RecordOf(policy, old(tables), c).Ok?)
              && (r.Ok? ==> r.value == (tables.omitted == old(tables).omitted))
    {
      if !enabled {
        return Ok(false);
      }
      AfterKeepsLimits(policy, tables, c);
      if !OperationId(c.operation) {
        return Err("private_trace_operation_invalid");
      }
      if !CategoryName(c.category) {
        return Err("private_trace_category_invalid");
      }
      if !c.payload.Object? {
        return Err("private_trace_payload_invalid");
      }
      var bounded := BoundedPayload(policy, c.payload);
      if bounded.Err? {
        return Err(bounded.code);
      }
      var encoded := policy.encode(bounded.value.0);
      if |tables.rows| >= MAX_RECORDS || Total(tables.rows) + |encoded| > MAX_TOTAL_BYTES {
        tables := tables.(omitted := tables.omitted + 1);
        return Ok(false);
      }
      var row := Row(c.operation, c.category, Canon(bounded.value.0), |encoded|, bounded.value.1);
      tables := tables.(rows := tables.rows + [row]);
      return Ok(true);
    }

    // Reading returns the rows of the operations asked for, or refuses if one of them changes
    // when bounded again. The size limits never refuse.
    method Records(operations: set<string>) returns (r: Result<seq<Row>>)
      requires Valid()
      ensures r.Ok? <==>
        && |operations| <= MAX_OPERATIONS && (forall o :: o in operations ==> OperationId(o))
        && forall k :: 0 <= k < |tables.rows| && tables.rows[k].operation in operations ==>
          Readable(policy, tables.rows[k])
      ensures r.Ok? ==> r.value == Selected(tables.rows, operations)
    {
      if |operations| > MAX_OPERATIONS || exists o :: o in operations && !OperationId(o) {
        return Err("private_trace_operation_invalid");
      }
      var chosen := Selected(tables.rows, operations);
      SelectedFits(tables.rows, operations);
      if |chosen| > MAX_RECORDS || Total(chosen) > MAX_TOTAL_BYTES {
        return Err("private_trace_read_limit");
      }
      ReadablePointwise(policy, tables.rows, operations, |tables.rows|);
      r := ReadRows(policy, tables.rows, operations);
    }
  }
}
