// The encoder and decoder of specification proposals, as the loops of the program, and the
// outputs and contexts they are applied to.
module SpecificationCodec {
  import opened Outcomes
  import opened JsonValues
  import opened SpecificationTransport

  const INVALID := "expert_output_invalid"

  // ---- Loops over rows and identifiers ------------------------------------------------

  method EncodeRows(inv: Inventory, rows: seq<Json>) returns (records: Option<map<string, Json>>)
    ensures records == Records(inv, rows, |rows|)
  {
    var gathered: map<string, Json> := map[];
    for k := 0 to |rows|
      invariant Records(inv, rows, k) == Some(gathered)
    {
      var row := rows[k];
      if !Shaped(inv, row) || IdOf(inv, row) in gathered {
        RefusedRow(inv, rows, k + 1, |rows|);
        return None;
      }
      gathered := gathered[IdOf(inv, row) := RecordOf(inv, row)];
    }
    return Some(gathered);
  }

  lemma {:induction false} RefusedRow(inv: Inventory, rows: seq<Json>, m: nat, n: nat)
    requires m <= n <= |rows| && Records(inv, rows, m).None?
    ensures Records(inv, rows, n).None?
  {
    if m < n {
      RefusedRow(inv, rows, m, n - 1);
    }
  }

  method DecodeRecords(inv: Inventory, v: Json) returns (rows: Option<seq<Json>>)
    ensures rows.Some? <==> Decodable(inv, v)
    ensures rows.Some? ==> rows.value == Ordered(inv, v)
  {
    if !v.Object? || v.fields.Keys != (set i | 0 <= i < |inv.identifiers| :: inv.identifiers[i]) {
      return None;
    }
    var decoded: seq<Json> := [];
    for k := 0 to |inv.identifiers|
      invariant |decoded| == k
      invariant forall i :: 0 <= i < k ==>
        var id := inv.identifiers[i];
        id in v.fields && v.fields[id].Object? && v.fields[id].fields.Keys == inv.fields
          && decoded[i] == RowOf(inv, id, v.fields[id])
    {
      var record := v.fields[inv.identifiers[k]];
      if !record.Object? || record.fields.Keys != inv.fields {
        return None;
      }
      decoded := decoded + [RowOf(inv, inv.identifiers[k], record)];
    }
    assert Decodable(inv, v);
    assert decoded == Ordered(inv, v);
    return Some(decoded);
  }

  // ---- Loops over the inventories -----------------------------------------------------

  // The first n inventories decide about a key as soon as one of them holds it.
  lemma {:induction false} NextInventory(inventories: seq<Inventory>, n: nat, key: string)
    requires n < |inventories|
    ensures InventoryAt(inventories[..n + 1], key) ==
      if InventoryAt(inventories[..n], key).Some? then InventoryAt(inventories[..n], key)
      else if inventories[n].block == key then Some(inventories[n]) else None
  {
    if n > 0 {
      assert inventories[..n + 1][1..] == inventories[1..][..n];
      assert inventories[..n][1..] == inventories[1..][..n - 1];
      if inventories[0].block != key {
        NextInventory(inventories[1..], n - 1, key);
      }
    } else {
      assert inventories[..1][1..] == [];
    }
  }

  lemma {:induction false} NotYet(inventories: seq<Inventory>, n: nat, key: string)
    requires n <= |inventories| && forall i :: 0 <= i < n ==> inventories[i].block != key
    ensures InventoryAt(inventories[..n], key).None?
    decreases n
  {
    if n > 0 {
      NotYet(inventories, n - 1, key);
      NextInventory(inventories, n - 1, key);
    }
  }

  function EncodedBy(inventories: seq<Inventory>, m: map<string, Json>): map<string, Json> {
    map k | k in m :: EncodeAt(inventories, k, m[k])
  }

  lemma EncodeStep(inventories: seq<Inventory>, n: nat, m: map<string, Json>)
    requires n < |inventories| && forall i, j :: 0 <= i < j < |inventories| ==>
             inventories[i].block != inventories[j].block
    ensures var before, key := EncodedBy(inventories[..n], m), inventories[n].block;
            EncodedBy(inventories[..n + 1], m) == if key in m
              then before[key := EncodeBlock(inventories[n], before[key])] else before
  {
    var key := inventories[n].block;
    NotYet(inventories, n, key);
    forall k | k in m
      ensures EncodeAt(inventories[..n + 1], k, m[k]) ==
        if k == key then EncodeBlock(inventories[n], m[k]) else EncodeAt(inventories[..n], k, m[k])
    {
      NextInventory(inventories, n, k);
    }
  }

  method EncodeSpecification(shape: Shape, specification: Json) returns (r: Json)
    requires WellFormed(shape)
    ensures r == Encode(shape, specification)
  {
    if !specification.Object? {
      return specification;
    }
    var result := EncodeName(shape, specification.fields);
    ghost var named := result;
    assert EncodedBy(shape.inventories[..0], named) == named;
    for n := 0 to |shape.inventories|
      invariant result == EncodedBy(shape.inventories[..n], named)
    {
      var inv := shape.inventories[n];
      EncodeStep(shape.inventories, n, named);
      if inv.block in result && Holds(inv, result[inv.block]) && result[inv.block].fields[inv.field].Array? {
        var container := result[inv.block];
        var records := EncodeRows(inv, container.fields[inv.field].items);
        if records.Some? {
          result := result[inv.block := Object(container.fields[inv.field := Object(records.value)])];
        }
      }
    }
    assert shape.inventories[..|shape.inventories|] == shape.inventories;
    return Object(result);
  }

  predicate DecodesBy(inventories: seq<Inventory>, m: map<string, Json>) {
    forall k :: k in m ==> DecodesAt(inventories, k, m[k])
  }

  function DecodedBy(inventories: seq<Inventory>, m: map<string, Json>): map<string, Json>
    requires DecodesBy(inventories, m)
  {
    map k | k in m :: DecodeAt(inventories, k, m[k])
  }

  lemma DecodeStep(inventories: seq<Inventory>, n: nat, m: map<string, Json>)
    requires n < |inventories| && forall i, j :: 0 <= i < j < |inventories| ==>
             inventories[i].block != inventories[j].block
    requires DecodesBy(inventories[..n], m)
    ensures var key := inventories[n].block;
            && (DecodesBy(inventories[..n + 1], m) <==> (key in m ==> BlockDecodes(inventories[n], m[key])))
            && (key in m ==> DecodedBy(inventories[..n], m)[key] == m[key])
            && (DecodesBy(inventories[..n + 1], m) ==>
                DecodedBy(inventories[..n + 1], m) ==
                  if key in m then DecodedBy(inventories[..n], m)[key := DecodeBlock(inventories[n], m[key])]
                    else DecodedBy(inventories[..n], m))
  {
    var key := inventories[n].block;
    NotYet(inventories, n, key);
    forall k | k in m
      ensures DecodesAt(inventories[..n + 1], k, m[k]) <==>
              (if k == key then BlockDecodes(inventories[n], m[k]) else true)
      ensures k != key ==> InventoryAt(inventories[..n + 1], k) == InventoryAt(inventories[..n], k)
    {
      NextInventory(inventories, n, k);
      assert DecodesAt(inventories[..n], k, m[k]);
    }
    NextInventory(inventories, n, key);
  }

  lemma {:induction false} StillRefused(inventories: seq<Inventory>, m: map<string, Json>, n: nat)
    requires n <= |inventories| && !DecodesBy(inventories[..n], m)
    ensures !DecodesBy(inventories, m)
    decreases |inventories| - n
  {
    if n == |inventories| {
      assert inventories[..n] == inventories;
    } else {
      var k :| k in m && !DecodesAt(inventories[..n], k, m[k]);
      NextInventory(inventories, n, k);
      StillRefused(inventories, m, n + 1);
    }
  }

  // Only the explicit wire name decodes, and only if the saved name is absent.
  method DecodeModuleName(shape: Shape, specification: Json) returns (r: Result<map<string, Json>>)
    ensures r.Ok? <==> specification.Object? && shape.wire in specification.fields && shape.top !in specification.fields
    ensures r.Ok? ==> r.value == Renamed(specification.fields, shape.wire, shape.top)
  {
    if !specification.Object? || shape.wire !in specification.fields || shape.top in specification.fields {
      return Err(INVALID);
    }
    return Ok(Renamed(specification.fields, shape.wire, shape.top));
  }

  lemma NamedDecodes(shape: Shape, specification: Json)
    requires WellFormed(shape) && specification.Object? && shape.wire in specification.fields
             && shape.top !in specification.fields
    ensures var named := Renamed(specification.fields, shape.wire, shape.top);
            && (DecodesBy(shape.inventories, named) <==> Decodes(shape, specification))
            && (Decodes(shape, specification) ==>
                Decode(shape, specification) == Object(DecodedBy(shape.inventories, named)))
  {
    var named := Renamed(specification.fields, shape.wire, shape.top);
    if InventoryAt(shape.inventories, shape.top).Some? {
      InventoryAtIsSound(shape, shape.top);
    }
    if InventoryAt(shape.inventories, shape.wire).Some? {
      InventoryAtIsSound(shape, shape.wire);
    }
    assert named.Keys == specification.fields.Keys - {shape.wire} + {shape.top};
    assert forall k :: k in specification.fields && k != shape.wire ==>
           k in named && named[k] == specification.fields[k];
    assert forall k :: k in named && k != shape.top ==>
           k in specification.fields && named[k] == specification.fields[k];
    if Decodes(shape, specification) {
      assert Decode(shape, specification).fields == DecodedBy(shape.inventories, named);
    }
  }

  method DecodeSpecification(shape: Shape, specification: Json) returns (r: Result<Json>)
    requires WellFormed(shape)
    ensures r.Ok? <==> Decodes(shape, specification)
    ensures r.Ok? ==> r.value == Decode(shape, specification)
  {
    var renamed := DecodeModuleName(shape, specification);
    if renamed.Err? {
      return Err(renamed.code);
    }
    NamedDecodes(shape, specification);
    var named := renamed.value;
    var result := named;
    assert DecodedBy(shape.inventories[..0], named) == named;
    for n := 0 to |shape.inventories|
      invariant DecodesBy(shape.inventories[..n], named) && result == DecodedBy(shape.inventories[..n], named)
    {
      var inv := shape.inventories[n];
      DecodeStep(shape.inventories, n, named);
      if inv.block in result && Holds(inv, result[inv.block]) {
        var container := result[inv.block];
        var rows := DecodeRecords(inv, container.fields[inv.field]);
        if rows.None? {
          StillRefused(shape.inventories, named, n + 1);
          return Err(INVALID);
        }
        result := result[inv.block := Object(container.fields[inv.field := Array(rows.value)])];
      }
    }
    assert shape.inventories[..|shape.inventories|] == shape.inventories;
    return Ok(Object(result));
  }

  // ---- Both names ---------------------------------------------------------------------

  // Contradictory names both survive encoding with their values, and decoding refuses them.
  lemma BothNamesSurvive(shape: Shape, s: Json)
    requires WellFormed(shape) && s.Object? && shape.top in s.fields && shape.wire in s.fields
    ensures var e := Encode(shape, s);
            && shape.top in e.fields && e.fields[shape.top] == s.fields[shape.top]
            && shape.wire in e.fields && e.fields[shape.wire] == s.fields[shape.wire]
            && !Decodes(shape, e)
  {
    if InventoryAt(shape.inventories, shape.top).Some? {
      InventoryAtIsSound(shape, shape.top);
    }
    if InventoryAt(shape.inventories, shape.wire).Some? {
      InventoryAtIsSound(shape, shape.wire);
    }
  }

  // ---- Provider outputs and prompt contexts -------------------------------------------

  // The keys a provider output and a prompt context use.
  datatype Places = Places(specification: string, correction: string, candidate: string, feedback: string,
                           field: string,
                           savedField: string, wireField: string)

  function Get(m: map<string, Json>, key: string): Json {
    if key in m then m[key] else Null
  }

  // A missing or null specification decodes to itself.
  predicate OutputDecodes(shape: Shape, places: Places, output: map<string, Json>) {
    Get(output, places.specification) != Null ==> Decodes(shape, output[places.specification])
  }

  method DecodeOutput(shape: Shape, places: Places, output: map<string, Json>) returns (r: Result<map<string, Json>>)
    requires WellFormed(shape)
    ensures r.Ok? <==> OutputDecodes(shape, places, output)
    ensures r.Ok? ==> r.value == (if Get(output, places.specification) == Null then output
      else output[places.specification := Decode(shape, output[places.specification])])
  {
    if Get(output, places.specification) == Null {
      return Ok(output);
    }
    var decoded := DecodeSpecification(shape, output[places.specification]);
    if decoded.Err? {
      return Err(decoded.code);
    }
    return Ok(output[places.specification := decoded.value]);
  }

  function EncodeIn(shape: Shape, key: string, m: map<string, Json>): map<string, Json> {
    if key in m then m[key := Encode(shape, m[key])] else m
  }

  function CorrectionOf(shape: Shape, places: Places, correction: Json): Json {
    if !correction.Object? then correction else
    var c := correction.fields;
    var d := if Get(c, places.candidate).Object?
             then c[places.candidate := Object(EncodeIn(shape, places.specification, c[places.candidate].fields))]
               else c;
    var feedback := Get(d, places.feedback);
    if feedback.Object? && Get(feedback.fields, places.field) == Text(places.savedField)
    then Object(d[places.feedback := Object(feedback.fields[places.field := Text(places.wireField)])])
    else Object(d)
  }

  // Saved and rejected proposals in the shape responses use.
  function TransportContext(shape: Shape, places: Places, context: map<string, Json>): map<string, Json> {
    var result := EncodeIn(shape, places.specification, context);
    if places.correction in result
      then result[places.correction := CorrectionOf(shape, places, result[places.correction])] else result
  }

  ghost predicate PlacesDiffer(places: Places) {
    && places.specification != places.correction && places.candidate != places.feedback
      && places.savedField != places.wireField
  }

  lemma CorrectionOnce(shape: Shape, places: Places, correction: Json)
    requires WellFormed(shape) && PlacesDiffer(places)
    ensures var once := CorrectionOf(shape, places, correction); CorrectionOf(shape, places, once) == once
  {
    if correction.Object? {
      var c := correction.fields;
      var once := CorrectionOf(shape, places, correction);
      if Get(c, places.candidate).Object? {
        var inner := c[places.candidate].fields;
        if places.specification in inner {
          EncodesOnce(shape, inner[places.specification]);
        }
        var encoded := EncodeIn(shape, places.specification, inner);
        assert EncodeIn(shape, places.specification, encoded) == encoded;
        assert once.fields[places.candidate] == Object(encoded);
      }
      assert CorrectionOf(shape, places, once).fields == once.fields;
    }
  }

  // Presenting a context twice is presenting it once, and a presented specification decodes to
  // what the round trip of the saved one gives.
  lemma ContextOnce(shape: Shape, places: Places, context: map<string, Json>)
    requires WellFormed(shape) && PlacesDiffer(places)
    ensures var once := TransportContext(shape, places, context);
            && TransportContext(shape, places, once) == once
            && (places.specification in context ==>
                once[places.specification] == Encode(shape, context[places.specification]))
            && (forall k :: k in context && k != places.specification && k != places.correction ==>
                k in once && once[k] == context[k])
            && once.Keys == context.Keys
  {
    var once := TransportContext(shape, places, context);
    if places.specification in context {
      EncodesOnce(shape, context[places.specification]);
    }
    if places.correction in context {
      CorrectionOnce(shape, places, context[places.correction]);
    }
    assert TransportContext(shape, places, once) == once;
  }

  // A map as before, except under one key.
  ghost predicate SameBut(before: map<string, Json>, after: map<string, Json>, key: string) {
    after.Keys == before.Keys && forall k :: k in before && k != key ==> after[k] == before[k]
  }

  // A rejected candidate as the response shape writes it: its specification encoded, everything else
  // as it was.
  ghost predicate PresentsCandidate(shape: Shape, places: Places, before: Json, after: Json) {
    if !before.Object? then after == before else
    && after.Object? && SameBut(before.fields, after.fields, places.specification)
    && (places.specification in before.fields ==>
          after.fields[places.specification] == Encode(shape, before.fields[places.specification]))
  }

  // Feedback about the saved name of the module speaks of its wire name; any other is as it was.
  ghost predicate PresentsFeedback(places: Places, before: Json, after: Json) {
    if before.Object? && places.field in before.fields && before.fields[places.field] == Text(places.savedField)
    then after.Object? && SameBut(before.fields, after.fields, places.field)
         && after.fields[places.field] == Text(places.wireField)
    else after == before
  }

  ghost predicate PresentsCorrection(shape: Shape, places: Places, before: Json, after: Json) {
    if !before.Object? then after == before else
    && after.Object? && after.fields.Keys == before.fields.Keys
    && (forall k :: k in before.fields && k != places.candidate && k != places.feedback ==>
          after.fields[k] == before.fields[k])
    && (places.candidate in before.fields ==>
          PresentsCandidate(shape, places, before.fields[places.candidate], after.fields[places.candidate]))
    && (places.feedback in before.fields ==>
          PresentsFeedback(places, before.fields[places.feedback], after.fields[places.feedback]))
  }

  lemma CorrectionPresents(shape: Shape, places: Places, correction: Json)
    requires places.candidate != places.feedback
    ensures PresentsCorrection(shape, places, correction, CorrectionOf(shape, places, correction))
  {
  }

  // A context as it is presented: the saved specification and the rejected candidate's are encoded,
  // the feedback speaks of the wire name, and nothing else changes.
  lemma ContextPresents(shape: Shape, places: Places, context: map<string, Json>)
    requires places.specification != places.correction && places.candidate != places.feedback
    ensures var shown := TransportContext(shape, places, context);
            && shown.Keys == context.Keys
            && (places.specification in context ==>
                  shown[places.specification] == Encode(shape, context[places.specification]))
            && (places.correction in context ==>
                  PresentsCorrection(shape, places, context[places.correction], shown[places.correction]))
            && forall k :: k in context && k != places.specification && k != places.correction ==>
                 shown[k] == context[k]
  {
    if places.correction in context {
      CorrectionPresents(shape, places, context[places.correction]);
    }
  }
}
