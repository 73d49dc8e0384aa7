// The wire form of specification proposals: fixed inventories travel as objects keyed by
// identifier instead of ordered rows, and the module name under an explicit field.
module SpecificationTransport {
  import opened Outcomes
  import opened JsonValues
  import opened Sequences

  // A block of the specification holding a fixed inventory of rows under one field.
  datatype Inventory = Inventory(block: string, field: string, identifiers: seq<string>, discriminator: string,
                                 fields: set<string>)

  // The saved name and the wire name of the top module, and the inventories.
  datatype Shape = Shape(top: string, wire: string, inventories: seq<Inventory>)

  predicate Sound(inv: Inventory) {
    Distinct(inv.identifiers) && inv.discriminator !in inv.fields
  }

  ghost predicate WellFormed(shape: Shape) {
    && shape.top != shape.wire
    && (forall i :: 0 <= i < |shape.inventories| ==>
          Sound(shape.inventories[i]) && shape.inventories[i].block != shape.top
            && shape.inventories[i].block != shape.wire)
    && (forall i, j :: 0 <= i < j < |shape.inventories| ==> shape.inventories[i].block != shape.inventories[j].block)
  }

  // ---- Rows of one inventory ----------------------------------------------------------

  predicate Shaped(inv: Inventory, row: Json) {
    && row.Object? && row.fields.Keys == inv.fields + {inv.discriminator}
    && row.fields[inv.discriminator].Text? && row.fields[inv.discriminator].text in inv.identifiers
  }

  function IdOf(inv: Inventory, row: Json): string
    requires Shaped(inv, row)
  {
    row.fields[inv.discriminator].text
  }

  // The row without its identifier, and back.
  function RecordOf(inv: Inventory, row: Json): Json
    requires Shaped(inv, row)
  {
    Object(map k | k in inv.fields :: row.fields[k])
  }

  function RowOf(inv: Inventory, id: string, record: Json): Json
    requires record.Object?
  {
    Object(record.fields[inv.discriminator := Text(id)])
  }

  // The records of the first n rows, or None as soon as a row is malformed or repeated.
  function Records(inv: Inventory, rows: seq<Json>, n: nat): Option<map<string, Json>>
    requires n <= |rows|
  {
    if n == 0 then Some(map[]) else
    var before := Records(inv, rows, n - 1);
    if before.None? || !Shaped(inv, rows[n - 1]) || IdOf(inv, rows[n - 1]) in before.value then None
    else Some(before.value[IdOf(inv, rows[n - 1]) := RecordOf(inv, rows[n - 1])])
  }

  predicate AllShaped(inv: Inventory, rows: seq<Json>) {
    forall k :: 0 <= k < |rows| ==> Shaped(inv, rows[k])
  }

  // Every row has the inventory's fields and a known identifier, and no identifier repeats.
  predicate Unambiguous(inv: Inventory, rows: seq<Json>) {
    AllShaped(inv, rows) && forall j, k :: 0 <= j < k < |rows| ==> IdOf(inv, rows[j]) != IdOf(inv, rows[k])
  }

  predicate HasRow(inv: Inventory, rows: seq<Json>, id: string) {
    exists k :: 0 <= k < |rows| && Shaped(inv, rows[k]) && IdOf(inv, rows[k]) == id
  }

  // The record of a row, under its identifier.
  predicate FiledRow(inv: Inventory, row: Json, records: map<string, Json>) {
    Shaped(inv, row) && IdOf(inv, row) in records && records[IdOf(inv, row)] == RecordOf(inv, row)
  }

  ghost predicate Filed(inv: Inventory, rows: seq<Json>, records: map<string, Json>) {
    && (forall k :: 0 <= k < |rows| ==> FiledRow(inv, rows[k], records))
    && (forall id :: id in records <==> HasRow(inv, rows, id))
  }

  lemma HasRowGrows(inv: Inventory, rows: seq<Json>, last: Json, id: string)
    ensures HasRow(inv, rows + [last], id) <==> HasRow(inv, rows, id) || (Shaped(inv, last) && IdOf(inv, last) == id)
  {
    var all := rows + [last];
    if HasRow(inv, rows, id) {
      var k :| 0 <= k < |rows| && Shaped(inv, rows[k]) && IdOf(inv, rows[k]) == id;
      assert all[k] == rows[k];
    }
    assert all[|rows|] == last;
    if HasRow(inv, all, id) {
      var k :| 0 <= k < |all| && Shaped(inv, all[k]) && IdOf(inv, all[k]) == id;
      assert k < |rows| ==> all[k] == rows[k];
    }
  }

  lemma UnambiguousGrows(inv: Inventory, rows: seq<Json>, last: Json)
    ensures Unambiguous(inv, rows + [last]) <==>
            Unambiguous(inv, rows) && Shaped(inv, last) && !HasRow(inv, rows, IdOf(inv, last))
  {
    var all := rows + [last];
    assert all[|rows|] == last;
    assert forall k :: 0 <= k < |rows| ==> all[k] == rows[k];
    if Unambiguous(inv, all) {
      assert AllShaped(inv, rows);
      forall j, k | 0 <= j < k < |rows|
        ensures IdOf(inv, rows[j]) != IdOf(inv, rows[k])
      {
        assert IdOf(inv, all[j]) != IdOf(inv, all[k]);
      }
      forall k | 0 <= k < |rows|
        ensures IdOf(inv, rows[k]) != IdOf(inv, last)
      {
        assert IdOf(inv, all[k]) != IdOf(inv, all[|rows|]);
      }
    }
  }

  lemma FiledGrows(inv: Inventory, rows: seq<Json>, last: Json, records: map<string, Json>)
    requires Filed(inv, rows, records) && Shaped(inv, last) && IdOf(inv, last) !in records
    ensures Filed(inv, rows + [last], records[IdOf(inv, last) := RecordOf(inv, last)])
  {
    var all, grown := rows + [last], records[IdOf(inv, last) := RecordOf(inv, last)];
    forall k | 0 <= k < |all|
      ensures FiledRow(inv, all[k], grown)
    {
      if k < |rows| {
        assert FiledRow(inv, rows[k], records);
      }
    }
    forall id
      ensures id in grown <==> HasRow(inv, all, id)
    {
      HasRowGrows(inv, rows, last, id);
    }
  }

  // Rows become records exactly when they are unambiguous, and then each under its identifier.
  lemma {:induction false} RecordsIff(inv: Inventory, rows: seq<Json>, n: nat)
    requires n <= |rows|
    ensures Records(inv, rows, n).Some? <==> Unambiguous(inv, rows[..n])
    ensures Records(inv, rows, n).Some? ==> Filed(inv, rows[..n], Records(inv, rows, n).value)
  {
    if n > 0 {
      var before, last := rows[..n - 1], rows[n - 1];
      assert rows[..n] == before + [last];
      UnambiguousGrows(inv, before, last);
      RecordsIff(inv, rows, n - 1);
      if Records(inv, rows, n).Some? {
        FiledGrows(inv, before, last, Records(inv, rows, n - 1).value);
      }
    }
  }

  predicate Decodable(inv: Inventory, v: Json) {
    && v.Object? && v.fields.Keys == (set i | 0 <= i < |inv.identifiers| :: inv.identifiers[i])
    && forall id :: id in v.fields ==> v.fields[id].Object? && v.fields[id].fields.Keys == inv.fields
  }

  // The rows of a complete set of records, in the fixed order.
  function Ordered(inv: Inventory, v: Json): (rows: seq<Json>)
    requires Decodable(inv, v)
    ensures |rows| == |inv.identifiers|
    ensures forall i :: 0 <= i < |rows| ==> rows[i] == RowOf(inv, inv.identifiers[i], v.fields[inv.identifiers[i]])
  {
    seq(|inv.identifiers|,
        i requires 0 <= i < |inv.identifiers| => RowOf(inv, inv.identifiers[i], v.fields[inv.identifiers[i]]))
  }

  lemma RowOfIsShaped(inv: Inventory, id: string, record: Json)
    requires inv.discriminator !in inv.fields && id in inv.identifiers && record.Object?
             && record.fields.Keys == inv.fields
    ensures Shaped(inv, RowOf(inv, id, record)) && IdOf(inv, RowOf(inv, id, record)) == id
    ensures RecordOf(inv, RowOf(inv, id, record)) == record
  {
    assert RecordOf(inv, RowOf(inv, id, record)).fields == record.fields;
  }

  lemma RecordOfReturns(inv: Inventory, row: Json)
    requires Shaped(inv, row) && inv.discriminator !in inv.fields
    ensures RowOf(inv, IdOf(inv, row), RecordOf(inv, row)) == row
  {
    assert RowOf(inv, IdOf(inv, row), RecordOf(inv, row)).fields == row.fields;
  }

  // Encoding what was decoded gives the same records.
  lemma RecordsReturn(inv: Inventory, v: Json)
    requires Sound(inv) && Decodable(inv, v)
    ensures var rows := Ordered(inv, v); Unambiguous(inv, rows) && Records(inv, rows, |rows|) == Some(v.fields)
  {
    var rows := Ordered(inv, v);
    forall i | 0 <= i < |rows|
      ensures FiledRow(inv, rows[i], v.fields) && IdOf(inv, rows[i]) == inv.identifiers[i]
    {
      RowOfIsShaped(inv, inv.identifiers[i], v.fields[inv.identifiers[i]]);
    }
    assert rows[..|rows|] == rows;
    RecordsIff(inv, rows, |rows|);
    var records := Records(inv, rows, |rows|).value;
    forall id
      ensures id in v.fields <==> HasRow(inv, rows, id)
    {
      if id in v.fields {
        var i :| 0 <= i < |rows| && inv.identifiers[i] == id;
        assert Shaped(inv, rows[i]);
      }
    }
    FiledOnce(inv, rows, records, v.fields);
  }

  lemma FiledOnce(inv: Inventory, rows: seq<Json>, records: map<string, Json>, others: map<string, Json>)
    requires Filed(inv, rows, records) && Filed(inv, rows, others)
    ensures records == others
  {
    forall id
      ensures id in records <==> id in others
      ensures id in records ==> records[id] == others[id]
    {
      if HasRow(inv, rows, id) {
        var k :| 0 <= k < |rows| && Shaped(inv, rows[k]) && IdOf(inv, rows[k]) == id;
        assert FiledRow(inv, rows[k], records) && FiledRow(inv, rows[k], others);
      }
    }
  }

  predicate InOrder(inv: Inventory, rows: seq<Json>) {
    AllShaped(inv, rows) && |rows| == |inv.identifiers| && forall k :: 0 <= k < |rows| ==>
      IdOf(inv, rows[k]) == inv.identifiers[k]
  }

  // All identifiers, each once.
  predicate Complete(inv: Inventory, rows: seq<Json>) {
    Unambiguous(inv, rows) && forall i :: 0 <= i < |inv.identifiers| ==> HasRow(inv, rows, inv.identifiers[i])
  }

  lemma {:induction false} DistinctCounts<T>(s: seq<T>, x: T)
    requires Distinct(s)
    ensures multiset(s)[x] == if x in s then 1 else 0
  {
    if |s| > 0 {
      var t := s[..|s| - 1];
      DistinctCounts(t, x);
      assert s == t + [s[|s| - 1]];
    }
  }

  lemma SameElements<T>(s: seq<T>, t: seq<T>)
    requires Distinct(s) && Distinct(t) && forall x :: x in s <==> x in t
    ensures multiset(s) == multiset(t)
  {
    forall x: T
      ensures multiset(s)[x] == multiset(t)[x]
    {
      DistinctCounts(s, x);
      DistinctCounts(t, x);
    }
  }

  // Decoding what was encoded: complete rows come back in the fixed order, as a permutation,
  // unchanged exactly when they were in that order; incomplete ones are refused.
  lemma RowsReturn(inv: Inventory, rows: seq<Json>)
    requires Sound(inv) && Unambiguous(inv, rows)
    ensures Records(inv, rows, |rows|).Some?
    ensures var v := Object(Records(inv, rows, |rows|).value);
            && (Decodable(inv, v) <==> Complete(inv, rows))
            && (Complete(inv, rows) ==>
                multiset(Ordered(inv, v)) == multiset(rows) && (Ordered(inv, v) == rows <==> InOrder(inv, rows)))
  {
    assert rows[..|rows|] == rows;
    RecordsIff(inv, rows, |rows|);
    var v := Object(Records(inv, rows, |rows|).value);
    CompleteIffDecodable(inv, rows, v);
    if Complete(inv, rows) {
      OrderedIsPermutation(inv, rows, v);
      var ordered := Ordered(inv, v);
      forall k | 0 <= k < |ordered|
        ensures Shaped(inv, ordered[k]) && IdOf(inv, ordered[k]) == inv.identifiers[k]
      {
        RowOfIsShaped(inv, inv.identifiers[k], v.fields[inv.identifiers[k]]);
      }
      if InOrder(inv, rows) {
        forall k | 0 <= k < |rows|
          ensures ordered[k] == rows[k]
        {
          assert FiledRow(inv, rows[k], v.fields);
          RecordOfReturns(inv, rows[k]);
        }
      }
    }
  }

  lemma CompleteIffDecodable(inv: Inventory, rows: seq<Json>, v: Json)
    requires Unambiguous(inv, rows) && v.Object? && Filed(inv, rows, v.fields)
    ensures Decodable(inv, v) <==> Complete(inv, rows)
  {
    var all := set i | 0 <= i < |inv.identifiers| :: inv.identifiers[i];
    forall id | id in v.fields
      ensures id in all && v.fields[id].Object? && v.fields[id].fields.Keys == inv.fields
    {
      var k :| 0 <= k < |rows| && Shaped(inv, rows[k]) && IdOf(inv, rows[k]) == id;
      assert FiledRow(inv, rows[k], v.fields);
    }
    if Complete(inv, rows) {
      assert all <= v.fields.Keys;
    }
    if Decodable(inv, v) {
      forall i | 0 <= i < |inv.identifiers|
        ensures HasRow(inv, rows, inv.identifiers[i])
      {
        assert inv.identifiers[i] in v.fields;
      }
    }
  }

  lemma OrderedIsPermutation(inv: Inventory, rows: seq<Json>, v: Json)
    requires Sound(inv) && Unambiguous(inv, rows) && v.Object? && Filed(inv, rows, v.fields) && Decodable(inv, v)
    ensures multiset(Ordered(inv, v)) == multiset(rows)
  {
    var ordered := Ordered(inv, v);
    forall i | 0 <= i < |ordered|
      ensures Shaped(inv, ordered[i]) && IdOf(inv, ordered[i]) == inv.identifiers[i] && ordered[i] in rows
    {
      RowOfIsShaped(inv, inv.identifiers[i], v.fields[inv.identifiers[i]]);
      assert inv.identifiers[i] in v.fields && HasRow(inv, rows, inv.identifiers[i]);
      var k :| 0 <= k < |rows| && Shaped(inv, rows[k]) && IdOf(inv, rows[k]) == inv.identifiers[i];
      assert FiledRow(inv, rows[k], v.fields);
      RecordOfReturns(inv, rows[k]);
    }
    forall k | 0 <= k < |rows|
      ensures rows[k] in ordered
    {
      assert FiledRow(inv, rows[k], v.fields);
      RecordOfReturns(inv, rows[k]);
      var i :| 0 <= i < |inv.identifiers| && inv.identifiers[i] == IdOf(inv, rows[k]);
      assert ordered[i] == rows[k];
    }
    SameElements(ordered, rows);
  }

  // ---- One block ----------------------------------------------------------------------

  // Whether this value of a block holds its inventory field at all.
  predicate Holds(inv: Inventory, v: Json) {
    v.Object? && inv.field in v.fields
  }

  function EncodeBlock(inv: Inventory, v: Json): Json {
    if !Holds(inv, v) || !v.fields[inv.field].Array? then v else
    var rows := v.fields[inv.field].items;
    var records := Records(inv, rows, |rows|);
    if records.None? then v else Object(v.fields[inv.field := Object(records.value)])
  }

  predicate BlockDecodes(inv: Inventory, v: Json) {
    Holds(inv, v) ==> Decodable(inv, v.fields[inv.field])
  }

  function DecodeBlock(inv: Inventory, v: Json): Json
    requires BlockDecodes(inv, v)
  {
    if !Holds(inv, v) then v else Object(v.fields[inv.field := Array(Ordered(inv, v.fields[inv.field]))])
  }

  // The exact set of blocks an encoder rewrites; every other one survives verbatim.
  lemma UntouchedIff(inv: Inventory, v: Json)
    ensures EncodeBlock(inv, v) == v <==>
      !(Holds(inv, v) && v.fields[inv.field].Array? && Unambiguous(inv, v.fields[inv.field].items))
  {
    if Holds(inv, v) && v.fields[inv.field].Array? {
      var rows := v.fields[inv.field].items;
      RecordsIff(inv, rows, |rows|);
      assert rows[..|rows|] == rows;
      if Unambiguous(inv, rows) {
        assert EncodeBlock(inv, v).fields[inv.field].Object?;
      }
    }
  }

  lemma BlockEncodesAgain(inv: Inventory, v: Json)
    ensures EncodeBlock(inv, EncodeBlock(inv, v)) == EncodeBlock(inv, v)
  {
  }

  lemma BlockReturns(inv: Inventory, v: Json)
    requires Sound(inv) && BlockDecodes(inv, v)
    ensures EncodeBlock(inv, DecodeBlock(inv, v)) == v
  {
    if Holds(inv, v) {
      RecordsReturn(inv, v.fields[inv.field]);
      var rows := Ordered(inv, v.fields[inv.field]);
      assert Records(inv, rows, |rows|).Some?;
      assert EncodeBlock(inv, DecodeBlock(inv, v)).fields == v.fields;
    }
  }

  // A block the encoder can present: no inventory, complete rows, or complete records already.
  predicate Presentable(inv: Inventory, v: Json) {
    Holds(inv, v) ==>
      match v.fields[inv.field]
      case Array(rows) => Complete(inv, rows)
      case other => Decodable(inv, other)
  }

  // What the round trip makes of a block: the same fields, with complete rows put in order.
  ghost predicate Tidied(inv: Inventory, v: Json, w: Json) {
    if !Holds(inv, v) then w == v else
    && w.Object? && w.fields.Keys == v.fields.Keys
      && (forall k :: k in v.fields && k != inv.field ==> w.fields[k] == v.fields[k])
    && w.fields[inv.field].Array?
    && (v.fields[inv.field].Array? ==>
          var rows, ordered := v.fields[inv.field].items, w.fields[inv.field].items;
          multiset(ordered) == multiset(rows) && AllShaped(inv, ordered) && InOrder(inv, ordered)
            && (w == v <==> InOrder(inv, rows)))
  }

  lemma OrderedIsInOrder(inv: Inventory, v: Json)
    requires Sound(inv) && Decodable(inv, v)
    ensures InOrder(inv, Ordered(inv, v))
  {
    forall k | 0 <= k < |inv.identifiers|
      ensures Shaped(inv, Ordered(inv, v)[k]) && IdOf(inv, Ordered(inv, v)[k]) == inv.identifiers[k]
    {
      RowOfIsShaped(inv, inv.identifiers[k], v.fields[inv.identifiers[k]]);
    }
  }

  lemma BlockRoundTrip(inv: Inventory, v: Json)
    requires Sound(inv)
    ensures BlockDecodes(inv, EncodeBlock(inv, v)) <==> Presentable(inv, v)
    ensures Presentable(inv, v) ==> Tidied(inv, v, DecodeBlock(inv, EncodeBlock(inv, v)))
  {
    if Holds(inv, v) && v.fields[inv.field].Array? {
      var rows := v.fields[inv.field].items;
      UntouchedIff(inv, v);
      if Unambiguous(inv, rows) {
        RowsReturn(inv, rows);
        if Complete(inv, rows) {
          RowsRoundTrip(inv, v, rows);
        }
      }
    }
  }

  lemma RowsAreTidied(inv: Inventory, v: Json, rows: seq<Json>, ordered: seq<Json>)
    requires Holds(inv, v) && v.fields[inv.field] == Array(rows)
    requires multiset(ordered) == multiset(rows) && AllShaped(inv, ordered) && InOrder(inv, ordered)
             && (ordered == rows <==> InOrder(inv, rows))
    ensures Tidied(inv, v, Object(v.fields[inv.field := Array(ordered)]))
  {
    var w := Object(v.fields[inv.field := Array(ordered)]);
    assert ordered == rows ==> w.fields == v.fields;
    assert w == v ==> w.fields[inv.field] == v.fields[inv.field];
  }

  lemma RowsRoundTrip(inv: Inventory, v: Json, rows: seq<Json>)
    requires Sound(inv) && Holds(inv, v) && v.fields[inv.field] == Array(rows) && Complete(inv, rows)
    ensures BlockDecodes(inv, EncodeBlock(inv, v)) && Tidied(inv, v, DecodeBlock(inv, EncodeBlock(inv, v)))
  {
    RowsReturn(inv, rows);
    var records := Object(Records(inv, rows, |rows|).value);
    OrderedIsInOrder(inv, records);
    RowsAreTidied(inv, v, rows, Ordered(inv, records));
    var encoded := EncodeBlock(inv, v);
    assert encoded == Object(v.fields[inv.field := records]);
    assert DecodeBlock(inv, encoded).fields == v.fields[inv.field := Array(Ordered(inv, records))];
  }

  // ---- The whole specification --------------------------------------------------------

  // The inventory a key holds, if any.
  function InventoryAt(inventories: seq<Inventory>, key: string): Option<Inventory> {
    if |inventories| == 0 then None
    else if inventories[0].block == key then Some(inventories[0])
    else InventoryAt(inventories[1..], key)
  }

  function EncodeAt(inventories: seq<Inventory>, key: string, v: Json): Json {
    var inv := InventoryAt(inventories, key);
    if inv.Some? then EncodeBlock(inv.value, v) else v
  }

  predicate DecodesAt(inventories: seq<Inventory>, key: string, v: Json) {
    var inv := InventoryAt(inventories, key);
    inv.Some? ==> BlockDecodes(inv.value, v)
  }

  function DecodeAt(inventories: seq<Inventory>, key: string, v: Json): Json
    requires DecodesAt(inventories, key, v)
  {
    var inv := InventoryAt(inventories, key);
    if inv.Some? then DecodeBlock(inv.value, v) else v
  }

  // Only an unambiguous saved name takes the wire name; two names both stay.
  function EncodeName(shape: Shape, m: map<string, Json>): map<string, Json> {
    if shape.top in m && shape.wire !in m then Renamed(m, shape.top, shape.wire) else m
  }

  function Encode(shape: Shape, specification: Json): Json {
    if !specification.Object? then specification else
    var m := EncodeName(shape, specification.fields);
    Object(map k | k in m :: EncodeAt(shape.inventories, k, m[k]))
  }

  predicate Decodes(shape: Shape, specification: Json) {
    && specification.Object? && shape.wire in specification.fields && shape.top !in specification.fields
    && forall k :: k in specification.fields ==> DecodesAt(shape.inventories, k, specification.fields[k])
  }

  lemma {:induction false} InventoryIsSound(shape: Shape, inventories: seq<Inventory>, key: string)
    requires WellFormed(shape) && InventoryAt(inventories, key).Some?
    requires forall i :: 0 <= i < |inventories| ==> inventories[i] in shape.inventories
    ensures Sound(InventoryAt(inventories, key).value) && key != shape.top && key != shape.wire
  {
    if inventories[0].block == key {
      assert inventories[0] in shape.inventories;
    } else {
      InventoryIsSound(shape, inventories[1..], key);
    }
  }

  lemma InventoryAtIsSound(shape: Shape, key: string)
    requires WellFormed(shape) && InventoryAt(shape.inventories, key).Some?
    ensures Sound(InventoryAt(shape.inventories, key).value) && key != shape.top && key != shape.wire
  {
    InventoryIsSound(shape, shape.inventories, key);
  }

  function Decode(shape: Shape, specification: Json): Json
    requires Decodes(shape, specification) && WellFormed(shape)
  {
    var m := specification.fields;
    var named := Renamed(m, shape.wire, shape.top);
    Object(map k | k in named :: if k == shape.top then named[k] else DecodeAt(shape.inventories, k, named[k]))
  }

  // Encoding what was decoded gives back the wire form.
  lemma WireReturns(shape: Shape, w: Json)
    requires WellFormed(shape) && Decodes(shape, w)
    ensures Encode(shape, Decode(shape, w)) == w
  {
    var m, d := w.fields, Decode(shape, w).fields;
    var back := Encode(shape, Decode(shape, w)).fields;
    assert EncodeName(shape, d) == Renamed(d, shape.top, shape.wire);
    forall k
      ensures k in back <==> k in m
    {
    }
    forall k | k in m
      ensures back[k] == m[k]
    {
      var inv := InventoryAt(shape.inventories, k);
      if inv.Some? {
        InventoryAtIsSound(shape, k);
        BlockReturns(inv.value, m[k]);
      }
    }
    assert back == m;
  }

  // Encoding is idempotent.
  lemma EncodesOnce(shape: Shape, s: Json)
    requires WellFormed(shape)
    ensures Encode(shape, Encode(shape, s)) == Encode(shape, s)
  {
    if s.Object? {
      var once := Encode(shape, s).fields;
      assert EncodeName(shape, once) == once;
      var twice := Encode(shape, Encode(shape, s)).fields;
      forall k | k in once
        ensures twice[k] == once[k]
      {
        var inv := InventoryAt(shape.inventories, k);
        if inv.Some? {
          BlockEncodesAgain(inv.value, EncodeName(shape, s.fields)[k]);
        }
      }
      assert twice == once;
    }
  }

  // A saved specification survives the round trip exactly when it names its module once and every
  // inventory block is presentable.
  lemma SavedReturnsIff(shape: Shape, s: Json)
    requires WellFormed(shape) && s.Object?
    ensures Decodes(shape, Encode(shape, s)) <==>
      && (shape.top in s.fields) != (shape.wire in s.fields)
      && forall k :: k in s.fields && InventoryAt(shape.inventories, k).Some? ==>
           Presentable(InventoryAt(shape.inventories, k).value, s.fields[k])
  {
    var m, e := EncodeName(shape, s.fields), Encode(shape, s).fields;
    forall k | k in s.fields && InventoryAt(shape.inventories, k).Some?
      ensures k in m && m[k] == s.fields[k]
      ensures DecodesAt(shape.inventories, k, e[k]) <==>
              Presentable(InventoryAt(shape.inventories, k).value, s.fields[k])
    {
      InventoryAtIsSound(shape, k);
      BlockRoundTrip(InventoryAt(shape.inventories, k).value, s.fields[k]);
    }
    forall k | k in e && InventoryAt(shape.inventories, k).Some?
      ensures k in s.fields
    {
      InventoryAtIsSound(shape, k);
    }
  }

  // What the round trip of a saved specification gives: the same keys, every value unchanged
  // except that complete inventories are put in the fixed order.
  lemma SavedRoundTrip(shape: Shape, s: Json)
    requires WellFormed(shape) && s.Object? && shape.top in s.fields && Decodes(shape, Encode(shape, s))
    ensures var back := Decode(shape, Encode(shape, s));
            && back.Object? && back.fields.Keys == s.fields.Keys
            && forall k :: k in s.fields ==>
                 match InventoryAt(shape.inventories, k)
                 case None => back.fields[k] == s.fields[k]
                 case Some(inv) => Tidied(inv, s.fields[k], back.fields[k])
  {
    SavedReturnsIff(shape, s);
    var m, e, back := EncodeName(shape, s.fields), Encode(shape, s).fields, Decode(shape, Encode(shape, s)).fields;
    assert m == Renamed(s.fields, shape.top, shape.wire);
    assert m.Keys == s.fields.Keys - {shape.top} + {shape.wire};
    forall k
      ensures k in back <==> k in s.fields
    {
    }
    forall k | k in s.fields
      ensures match InventoryAt(shape.inventories, k)
              case None => back[k] == s.fields[k]
              case Some(inv) => Tidied(inv, s.fields[k], back[k])
    {
      var inv := InventoryAt(shape.inventories, k);
      if inv.Some? {
        InventoryAtIsSound(shape, k);
        BlockRoundTrip(inv.value, s.fields[k]);
      } else if k == shape.top {
        assert e[shape.wire] == EncodeAt(shape.inventories, shape.wire, m[shape.wire]);
        if InventoryAt(shape.inventories, shape.wire).Some? {
          InventoryAtIsSound(shape, shape.wire);
        }
      }
    }
  }
}
