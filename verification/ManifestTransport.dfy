// The wire form of simulation manifests: bare test module names travel as flat file paths.
module ManifestTransport {
  import opened Outcomes
  import opened JsonValues

  const FILE_FIELD := "test_file_paths"
  const MODULE_FIELD := "test_modules"
  const PREFIX := "dv/"
  const SUFFIX := ".py"
  const MAX_NAME := 128
  const MAX_TESTS := 64

  // ---- Names and paths ----------------------------------------------------------------

  predicate NameStart(c: char) {
    'A' <= c <= 'Z' || 'a' <= c <= 'z' || c == '_'
  }

  // The domain rule for an identifier, and the captured part of the path pattern.
  predicate Bare(s: string) {
    1 <= |s| <= MAX_NAME && NameStart(s[0]) && forall i :: 1 <= i < |s| ==> NameStart(s[i]) || '0' <= s[i] <= '9'
  }

  function PathOf(module_: string): string {
    PREFIX + module_ + SUFFIX
  }

  function Middle(path: string): string
    requires |path| >= 6
  {
    path[3..|path| - 3]
  }

  predicate IsPath(s: string) {
    |s| >= 6 && s[..3] == PREFIX && s[|s| - 3..] == SUFFIX && Bare(Middle(s))
  }

  // The module a manifest entry names: an exact path, or, in the old spelling, a bare name.
  function ModuleOf(value: Json, legacy: bool): Option<string> {
    if !value.Text? then None
    else if IsPath(value.text) then Some(Middle(value.text))
    else if legacy && Bare(value.text) then Some(value.text)
    else None
  }

  lemma PathReturns(s: string)
    requires Bare(s)
    ensures IsPath(PathOf(s)) && Middle(PathOf(s)) == s && !IsPath(s)
  {
    var p := PathOf(s);
    assert p[..3] == PREFIX && p[|p| - 3..] == SUFFIX && Middle(p) == s;
    assert |s| >= 6 ==> s[..3][2] == s[2];
  }

  lemma PathIsItsModule(p: string)
    requires IsPath(p)
    ensures PathOf(Middle(p)) == p
  {
    assert p == p[..3] + p[3..|p| - 3] + p[|p| - 3..];
  }

  // ---- A list of entries --------------------------------------------------------------

  predicate Convertible(v: Json, legacy: bool) {
    v.Array? && |v.items| <= MAX_TESTS && forall i :: 0 <= i < |v.items| ==> ModuleOf(v.items[i], legacy).Some?
  }

  function Modules(v: Json, legacy: bool): (names: seq<string>)
    requires Convertible(v, legacy)
    ensures |names| == |v.items|
    ensures forall i :: 0 <= i < |names| ==> names[i] == ModuleOf(v.items[i], legacy).value && Bare(names[i])
  {
    seq(|v.items|, i requires 0 <= i < |v.items| => ModuleOf(v.items[i], legacy).value)
  }

  function Texts(names: seq<string>): (v: Json)
    ensures v.Array? && |v.items| == |names| && forall i :: 0 <= i < |names| ==> v.items[i] == Text(names[i])
  {
    Array(seq(|names|, i requires 0 <= i < |names| => Text(names[i])))
  }

  function Paths(names: seq<string>): (paths: seq<string>)
    ensures |paths| == |names| && forall i :: 0 <= i < |names| ==> paths[i] == PathOf(names[i])
  {
    seq(|names|, i requires 0 <= i < |names| => PathOf(names[i]))
  }

  method ConvertEntries(v: Json, legacy: bool) returns (names: Option<seq<string>>)
    ensures names.Some? <==> Convertible(v, legacy)
    ensures names.Some? ==> names.value == Modules(v, legacy)
  {
    if !v.Array? || |v.items| > MAX_TESTS {
      return None;
    }
    var gathered: seq<string> := [];
    for k := 0 to |v.items|
      invariant |gathered| == k
      invariant forall i :: 0 <= i < k ==> ModuleOf(v.items[i], legacy) == Some(gathered[i])
    {
      var name := ModuleOf(v.items[k], legacy);
      if name.None? {
        return None;
      }
      gathered := gathered + [name.value];
    }
    assert gathered == Modules(v, legacy);
    return Some(gathered);
  }

  // ---- Manifests ----------------------------------------------------------------------

  // Exactly one spelling is present, and every entry of it converts.
  predicate DecodesBy(m: map<string, Json>, field: string) {
    && field in m && (field == MODULE_FIELD ==> FILE_FIELD !in m) && (field == FILE_FIELD ==> MODULE_FIELD !in m)
    && Convertible(m[field], field == MODULE_FIELD)
  }

  function Decode(manifest: Json): Json {
    if !manifest.Object? then manifest else
    var m := manifest.fields;
    if DecodesBy(m, FILE_FIELD) then Object((m - {FILE_FIELD})[MODULE_FIELD := Texts(Modules(m[FILE_FIELD], false))])
    else if DecodesBy(m, MODULE_FIELD) then Object(m[MODULE_FIELD := Texts(Modules(m[MODULE_FIELD], true))])
    else manifest
  }

  function Encode(manifest: Json): Json {
    if !manifest.Object? then manifest else
    var m := manifest.fields;
    if DecodesBy(m, MODULE_FIELD)
    then Object((m - {MODULE_FIELD})[FILE_FIELD := Texts(Paths(Modules(m[MODULE_FIELD], true)))])
    else manifest
  }

  method DecodeManifest(manifest: Json) returns (r: Json)
    ensures r == Decode(manifest)
  {
    if !manifest.Object? {
      return manifest;
    }
    var m := manifest.fields;
    if FILE_FIELD in m && MODULE_FIELD in m {
      return manifest;
    }
    var field := if FILE_FIELD in m then FILE_FIELD else MODULE_FIELD;
    if field !in m {
      return manifest;
    }
    var modules := ConvertEntries(m[field], field == MODULE_FIELD);
    if modules.None? {
      return manifest;
    }
    m := m - {field};
    m := m[MODULE_FIELD := Texts(modules.value)];
    assert field == MODULE_FIELD ==> m == manifest.fields[MODULE_FIELD := Texts(modules.value)];
    return Object(m);
  }

  method EncodeManifest(manifest: Json) returns (r: Json)
    ensures r == Encode(manifest)
  {
    if !manifest.Object? || FILE_FIELD in manifest.fields || MODULE_FIELD !in manifest.fields {
      return manifest;
    }
    var modules := ConvertEntries(manifest.fields[MODULE_FIELD], true);
    if modules.None? {
      return manifest;
    }
    return Object((manifest.fields - {MODULE_FIELD})[FILE_FIELD := Texts(Paths(modules.value))]);
  }

  // Names of a list come back from its names, and from its paths, in order with duplicates.
  lemma NamesReturn(names: seq<string>)
    requires |names| <= MAX_TESTS && forall i :: 0 <= i < |names| ==> Bare(names[i])
    ensures Convertible(Texts(names), true) && Modules(Texts(names), true) == names
    ensures Convertible(Texts(Paths(names)), false) && Modules(Texts(Paths(names)), false) == names
  {
    forall i | 0 <= i < |names|
      ensures ModuleOf(Texts(names).items[i], true) == Some(names[i])
      ensures ModuleOf(Texts(Paths(names)).items[i], false) == Some(names[i])
    {
      PathReturns(names[i]);
    }
  }

  lemma PathsReturn(v: Json)
    requires Convertible(v, false)
    ensures Texts(Paths(Modules(v, false))) == v
  {
    forall i | 0 <= i < |v.items|
      ensures Texts(Paths(Modules(v, false))).items[i] == v.items[i]
    {
      PathIsItsModule(v.items[i].text);
    }
  }

  // Encoding first changes nothing about what decoding gives, on every manifest whatever.
  lemma DecodeAfterEncode(manifest: Json)
    ensures Decode(Encode(manifest)) == Decode(manifest)
  {
    if manifest.Object? && DecodesBy(manifest.fields, MODULE_FIELD) {
      var m := manifest.fields;
      var names := Modules(m[MODULE_FIELD], true);
      NamesReturn(names);
      var e := Encode(manifest).fields;
      assert DecodesBy(e, FILE_FIELD);
      assert Decode(Encode(manifest)).fields == m[MODULE_FIELD := Texts(names)];
    }
  }

  // Nor does decoding first change what encoding gives.
  lemma EncodeAfterDecode(manifest: Json)
    ensures Encode(Decode(manifest)) == Encode(manifest)
  {
    if manifest.Object? {
      var m := manifest.fields;
      if DecodesBy(m, FILE_FIELD) {
        var names := Modules(m[FILE_FIELD], false);
        NamesReturn(names);
        PathsReturn(m[FILE_FIELD]);
        assert DecodesBy(Decode(manifest).fields, MODULE_FIELD);
        assert Encode(Decode(manifest)).fields == m;
      } else if DecodesBy(m, MODULE_FIELD) {
        var names := Modules(m[MODULE_FIELD], true);
        NamesReturn(names);
        var d := Decode(manifest).fields;
        assert DecodesBy(d, MODULE_FIELD);
        assert d - {MODULE_FIELD} == m - {MODULE_FIELD};
      }
    }
  }

  lemma DecodeOnce(manifest: Json)
    ensures Decode(Decode(manifest)) == Decode(manifest)
  {
    if manifest.Object? {
      var m, d := manifest.fields, Decode(manifest);
      var field := if DecodesBy(m, FILE_FIELD) then FILE_FIELD else MODULE_FIELD;
      if DecodesBy(m, field) {
        var names := Modules(m[field], field == MODULE_FIELD);
        NamesReturn(names);
        assert d.fields[MODULE_FIELD] == Texts(names);
        assert Decode(d).fields == d.fields;
      }
    }
  }

  lemma EncodeOnce(manifest: Json)
    ensures Encode(Encode(manifest)) == Encode(manifest)
  {
  }

  predicate AllBare(v: Json) {
    v.Array? && |v.items| <= MAX_TESTS && forall i :: 0 <= i < |v.items| ==> v.items[i].Text? && Bare(v.items[i].text)
  }

  // The manifests decoding leaves alone: both spellings or neither, a malformed entry, or a list
  // of bare names already.
  lemma DecodeKeepsIff(manifest: Json)
    requires manifest.Object?
    ensures var m := manifest.fields;
            Decode(manifest) == manifest <==>
              !DecodesBy(m, FILE_FIELD) && (DecodesBy(m, MODULE_FIELD) ==> AllBare(m[MODULE_FIELD]))
  {
    var m := manifest.fields;
    if DecodesBy(m, FILE_FIELD) {
      assert FILE_FIELD !in Decode(manifest).fields;
    } else if DecodesBy(m, MODULE_FIELD) {
      var v := m[MODULE_FIELD];
      var names := Modules(v, true);
      assert Decode(manifest).fields[MODULE_FIELD] == Texts(names);
      if AllBare(v) {
        forall i | 0 <= i < |v.items|
          ensures Texts(names).items[i] == v.items[i]
        {
          PathReturns(v.items[i].text);
        }
        assert Texts(names) == v;
        assert Decode(manifest).fields == m;
      }
    }
  }

  // The round trip of saved manifests is the identity exactly when their names are bare already:
  // order and duplicates survive, malformed entries and double spellings are left alone.
  lemma RoundTripIff(manifest: Json)
    requires manifest.Object?
    ensures var m := manifest.fields;
            Decode(Encode(manifest)) == manifest <==>
              !DecodesBy(m, FILE_FIELD) && (DecodesBy(m, MODULE_FIELD) ==> AllBare(m[MODULE_FIELD]))
  {
    DecodeAfterEncode(manifest);
    DecodeKeepsIff(manifest);
  }

  // ---- What an entry and a manifest say -----------------------------------------------

  // Exactly which entries name a module: its flat path, and in the old field also its bare name.
  lemma EntryNames(v: Json, legacy: bool, name: string)
    ensures ModuleOf(v, legacy) == Some(name) <==>
            Bare(name) && (v == Text(PathOf(name)) || (legacy && v == Text(name)))
  {
    if Bare(name) {
      PathReturns(name);
    }
    if v.Text? && IsPath(v.text) {
      PathIsItsModule(v.text);
      if legacy && Bare(v.text) {
        PathReturns(v.text);
      }
    }
  }

  // A list of entries that name these modules, one each and in this order.
  ghost predicate Lists(v: Json, legacy: bool, names: seq<string>) {
    && v.Array? && |v.items| == |names| <= MAX_TESTS && (forall i :: 0 <= i < |names| ==> Bare(names[i]))
    && forall i :: 0 <= i < |names| ==> v.items[i] == Text(PathOf(names[i])) || (legacy && v.items[i] == Text(names[i]))
  }

  lemma ListsIff(v: Json, legacy: bool, names: seq<string>)
    ensures Lists(v, legacy, names) <==> Convertible(v, legacy) && Modules(v, legacy) == names
  {
    if v.Array? && |v.items| == |names| {
      forall i | 0 <= i < |names|
        ensures ModuleOf(v.items[i], legacy) == Some(names[i]) <==>
                Bare(names[i]) && (v.items[i] == Text(PathOf(names[i])) || (legacy && v.items[i] == Text(names[i])))
      {
        EntryNames(v.items[i], legacy, names[i]);
      }
    }
  }

  // Exactly one of the two fields is present, and lists these modules.
  ghost predicate Spells(m: map<string, Json>, names: seq<string>) {
    || (FILE_FIELD in m && MODULE_FIELD !in m && Lists(m[FILE_FIELD], false, names))
    || (MODULE_FIELD in m && FILE_FIELD !in m && Lists(m[MODULE_FIELD], true, names))
  }

  // A manifest that spells a list of modules decodes to their bare names, with every other field as it
  // was; any other manifest comes back unchanged.
  lemma DecodeMeans(manifest: Json, names: seq<string>)
    ensures manifest.Object? && Spells(manifest.fields, names) ==>
            Decode(manifest) == Object((manifest.fields - {FILE_FIELD})[MODULE_FIELD := Texts(names)])
    ensures (!manifest.Object? || forall spelt :: !Spells(manifest.fields, spelt)) ==> Decode(manifest) == manifest
  {
    if manifest.Object? {
      var m := manifest.fields;
      if FILE_FIELD in m {
        ListsIff(m[FILE_FIELD], false, names);
        if DecodesBy(m, FILE_FIELD) {
          ListsIff(m[FILE_FIELD], false, Modules(m[FILE_FIELD], false));
          assert Spells(m, Modules(m[FILE_FIELD], false));
        }
      } else if MODULE_FIELD in m {
        ListsIff(m[MODULE_FIELD], true, names);
        assert m - {FILE_FIELD} == m;
        if DecodesBy(m, MODULE_FIELD) {
          ListsIff(m[MODULE_FIELD], true, Modules(m[MODULE_FIELD], true));
          assert Spells(m, Modules(m[MODULE_FIELD], true));
        }
      }
    }
  }

  // A saved list of modules is encoded as their paths; any other manifest comes back unchanged.
  lemma EncodeMeans(manifest: Json, names: seq<string>)
    ensures manifest.Object? && MODULE_FIELD in manifest.fields && Spells(manifest.fields, names) ==>
            Encode(manifest) == Object((manifest.fields - {MODULE_FIELD})[FILE_FIELD := Texts(Paths(names))])
    ensures (!manifest.Object? || MODULE_FIELD !in manifest.fields || forall spelt ::
             !Spells(manifest.fields, spelt)) ==>
            Encode(manifest) == manifest
  {
    if manifest.Object? && MODULE_FIELD in manifest.fields {
      var m := manifest.fields;
      ListsIff(m[MODULE_FIELD], true, names);
      if DecodesBy(m, MODULE_FIELD) {
        ListsIff(m[MODULE_FIELD], true, Modules(m[MODULE_FIELD], true));
        assert Spells(m, Modules(m[MODULE_FIELD], true));
      }
    }
  }
}
