/**
 * Header recognition of the first generator: every one of the five logical fields
 * is matched, case-insensitively and ignoring surrounding whitespace, against a
 * list of synonyms, and mapped to the original text of the matching header.
 */
module Columns {
  import opened Basics
  import opened Text

  datatype Field = System | Track | Cable | Length | Quantity

  /** The fields in the order the generator looks them up. */
  const Fields: seq<Field> := [System, Track, Cable, Length, Quantity]

  const SystemNames: seq<string> := ["system", "система", "sys"]
  const TrackNames: seq<string> := ["track", "трасса", "trk"]
  const CableNames: seq<string> := ["cable", "кабель", "cab"]
  const LengthNames: seq<string> := ["lenght", "length", "длина", "len"]
  const QuantityNames: seq<string> := ["quantity", "количество", "qty", "кол-во"]

  /** The accepted spellings of each field, in order of preference. */
  function Synonyms(f: Field): seq<string> {
    match f
    case System => SystemNames
    case Track => TrackNames
    case Cable => CableNames
    case Length => LengthNames
    case Quantity => QuantityNames
  }

  /** `h.strip().lower()`. */
  function Normalize(h: string): string {
    Lower(Strip(h))
  }

  function NormalizeAll(headers: seq<string>): (r: seq<string>)
    ensures |r| == |headers| && forall i :: 0 <= i < |headers| ==> r[i] == Normalize(headers[i])
  {
    seq(|headers|, i requires 0 <= i < |headers| => Normalize(headers[i]))
  }

  /** `xs.index(x)`, or `None` where Python raises `ValueError`. */
  function IndexOf(xs: seq<string>, x: string): (r: Option<nat>)
    ensures r.None? <==> x !in xs
    ensures r.Some? ==> r.value < |xs| && xs[r.value] == x && x !in xs[..r.value]
  {
    if xs == [] then None
    else if xs[0] == x then Some(0)
    else match IndexOf(xs[1..], x)
      case None => None
      case Some(i) => assert xs[1..][..i] == xs[1..i + 1]; Some(i + 1)
  }

  /** The position in `variants` of the first one present among `names`. */
  function FirstPresent(variants: seq<string>, names: seq<string>): (r: Option<nat>)
    ensures r.None? <==> forall j :: 0 <= j < |variants| ==> variants[j] !in names
    ensures r.Some? ==> r.value < |variants| && variants[r.value] in names
    ensures r.Some? ==> forall j :: 0 <= j < r.value ==> variants[j] !in names
  {
    if variants == [] then None
    else if variants[0] in names then Some(0)
    else match FirstPresent(variants[1..], names)
      case None => None
      case Some(j) => Some(j + 1)
  }

  /**
   * The column matched by a list of synonyms, given the normalised headers `names`:
   * the first column holding the most preferred synonym that occurs at all.
   */
  function MatchedColumn(names: seq<string>, syn: seq<string>): (r: Option<nat>)
    ensures r.Some? ==> r.value < |names|
  {
    match FirstPresent(syn, names)
    case None => None
    case Some(j) => IndexOf(names, syn[j])
  }

  /**
   * A column is matched exactly when one of the synonyms occurs; it is the first
   * occurrence of the most preferred synonym that occurs.
   */
  lemma MatchedColumnMeaning(names: seq<string>, syn: seq<string>)
    ensures MatchedColumn(names, syn).None? <==> forall i :: 0 <= i < |names| ==> names[i] !in syn
    ensures MatchedColumn(names, syn).Some? ==>
      var i := MatchedColumn(names, syn).value;
      (forall k :: 0 <= k < i ==> names[k] != names[i]) &&
      exists j :: 0 <= j < |syn| && syn[j] == names[i] && forall j' :: 0 <= j' < j ==> syn[j'] !in names
  {
    match FirstPresent(syn, names)
    case None =>
    case Some(j) =>
      var i := IndexOf(names, syn[j]).value;
      forall k | 0 <= k < i ensures names[k] != names[i] {
        assert names[..i][k] == names[k];
      }
  }

  /** The column of a field. */
  function ColumnOf(names: seq<string>, f: Field): (r: Option<nat>)
    ensures r.Some? ==> r.value < |names|
  {
    MatchedColumn(names, Synonyms(f))
  }

  /** The mapping built over the fields `fs`, one field at a time. */
  function MappingOver(headers: seq<string>, names: seq<string>, fs: seq<Field>): map<Field, string>
    requires |names| == |headers|
  {
    if fs == [] then map[]
    else
      var m := MappingOver(headers, names, fs[..|fs| - 1]);
      var f := fs[|fs| - 1];
      match ColumnOf(names, f)
      case None => m
      case Some(i) => m[f := headers[i]]
  }

  /** The dictionary `normalize_column_names` returns. */
  function ColumnMapping(headers: seq<string>): map<Field, string> {
    MappingOver(headers, NormalizeAll(headers), Fields)
  }

  lemma {:induction false} MappingOverMeaning(headers: seq<string>, names: seq<string>, fs: seq<Field>, f: Field)
    requires |names| == |headers|
    ensures f in MappingOver(headers, names, fs) <==> f in fs && ColumnOf(names, f).Some?
    ensures f in MappingOver(headers, names, fs) ==> MappingOver(headers, names, fs)[f] == headers[ColumnOf(names, f).value]
    decreases |fs|
  {
    if fs != [] {
      var init := fs[..|fs| - 1];
      var g := fs[|fs| - 1];
      MappingOverMeaning(headers, names, init, f);
      assert fs == init + [g];
      var before := MappingOver(headers, names, init);
      var c := ColumnOf(names, g);
      assert MappingOver(headers, names, fs) == if c.None? then before else before[g := headers[c.value]];
      if f != g {
        assert f in fs <==> f in init;
      }
    }
  }

  /** A field is in the mapping exactly when one of its synonyms is a normalised header. */
  lemma ColumnMappingKeys(headers: seq<string>, f: Field)
    ensures f in ColumnMapping(headers) <==>
      exists i :: 0 <= i < |headers| && Normalize(headers[i]) in Synonyms(f)
  {
    var names := NormalizeAll(headers);
    var syn := Synonyms(f);
    MappingOverMeaning(headers, names, Fields, f);
    MatchedColumnMeaning(names, syn);
    FieldListed(f);
  }

  /** A mapped field maps to the original text of the header its synonyms matched. */
  lemma ColumnMappingValues(headers: seq<string>, f: Field)
    ensures f in ColumnMapping(headers) ==>
      var c := ColumnOf(NormalizeAll(headers), f);
      c.Some? && ColumnMapping(headers)[f] == headers[c.value]
  {
    MappingOverMeaning(headers, NormalizeAll(headers), Fields, f);
  }

  lemma MappingOverSnoc(headers: seq<string>, names: seq<string>, fs: seq<Field>, f: Field)
    requires |names| == |headers|
    ensures var m := MappingOver(headers, names, fs);
            MappingOver(headers, names, fs + [f]) ==
              match ColumnOf(names, f) case None => m case Some(i) => m[f := headers[i]]
  {
    assert (fs + [f])[..|fs|] == fs;
  }

  /** The inner loop of `normalize_column_names`: the first variant among `names`. */
  method FindVariant(variants: seq<string>, names: seq<string>) returns (found: Option<nat>)
    ensures found == FirstPresent(variants, names)
  {
    var j := 0;
    while j < |variants|
      invariant 0 <= j <= |variants|
      invariant forall j' :: 0 <= j' < j ==> variants[j'] !in names
    {
      if variants[j] in names {
        return Some(j);
      }
      j := j + 1;
    }
    return None;
  }

  /** `normalize_column_names`: for each field, the first synonym present wins. */
  method NormalizeColumnNames(headers: seq<string>) returns (mapping: map<Field, string>)
    ensures mapping == ColumnMapping(headers)
  {
    var normalized := NormalizeAll(headers);
    mapping := map[];
    var k := 0;
    while k < |Fields|
      invariant 0 <= k <= |Fields|
      invariant mapping == MappingOver(headers, normalized, Fields[..k])
    {
      mapping := MapField(headers, normalized, k, mapping);
      k := k + 1;
    }
    FullMapping(headers, mapping);
  }

  /** One turn of the loop over the fields: the field's column, if any, is added to the mapping. */
  method MapField(headers: seq<string>, normalized: seq<string>, k: nat, mapping: map<Field, string>)
    returns (next: map<Field, string>)
    requires |normalized| == |headers| && k < |Fields|
    requires mapping == MappingOver(headers, normalized, Fields[..k])
    ensures next == MappingOver(headers, normalized, Fields[..k + 1])
  {
    var f := Fields[k];
    var found := FindVariant(Synonyms(f), normalized);
    next := mapping;
    if found.Some? {
      var idx := IndexOf(normalized, Synonyms(f)[found.value]).value;
      next := mapping[f := headers[idx]];
    }
    MappingStep(headers, normalized, k, found, mapping, next);
  }

  lemma FullMapping(headers: seq<string>, m: map<Field, string>)
    requires m == MappingOver(headers, NormalizeAll(headers), Fields[..|Fields|])
    ensures m == ColumnMapping(headers)
  {
    assert Fields[..|Fields|] == Fields;
  }

  lemma MappingStep(headers: seq<string>, names: seq<string>, k: nat, found: Option<nat>,
                    before: map<Field, string>, after: map<Field, string>)
    requires |names| == |headers| && k < |Fields|
    requires before == MappingOver(headers, names, Fields[..k])
    requires found == FirstPresent(Synonyms(Fields[k]), names)
    requires found.None? ==> after == before
    requires found.Some? ==>
      after == before[Fields[k] := headers[IndexOf(names, Synonyms(Fields[k])[found.value]).value]]
    ensures after == MappingOver(headers, names, Fields[..k + 1])
  {
    var f := Fields[k];
    assert Fields[..k + 1] == Fields[..k] + [f];
    MappingOverSnoc(headers, names, Fields[..k], f);
  }

  /** The position of a field in the lookup order. */
  function Rank(f: Field): nat {
    match f
    case System => 0
    case Track => 1
    case Cable => 2
    case Length => 3
    case Quantity => 4
  }

  /** Fields listed in lookup order, each at most once. */
  predicate InLookupOrder(fs: seq<Field>) {
    forall i, j :: 0 <= i < j < |fs| ==> Rank(fs[i]) < Rank(fs[j])
  }

  /** The fields absent from a mapping, in lookup order. */
  function MissingColumns(mapping: map<Field, string>): (r: seq<Field>)
    ensures forall f :: f in r <==> f !in mapping
    ensures r == [] <==> forall f :: f in mapping
    ensures InLookupOrder(r)
  {
    assert forall f :: f in Fields by {
      forall f ensures f in Fields { FieldListed(f); }
    }
    var r := Filter(Fields, mapping);
    assert r != [] ==> r[0] in r;
    FieldsInLookupOrder();
    FilterKeepsOrder(Fields, mapping);
    r
  }

  lemma FieldsInLookupOrder()
    ensures InLookupOrder(Fields)
  {
    forall i, j | 0 <= i < j < |Fields| ensures Rank(Fields[i]) < Rank(Fields[j]) {
      RankInFields(i);
      RankInFields(j);
    }
  }

  lemma RankInFields(i: nat)
    requires i < |Fields|
    ensures Rank(Fields[i]) == i
  {
    if i == 0 {
    } else if i == 1 {
    } else if i == 2 {
    } else if i == 3 {
    } else {
    }
  }

  lemma FieldListed(f: Field)
    ensures f in Fields
  {
    match f
    case System => assert Fields[0] == f;
    case Track => assert Fields[1] == f;
    case Cable => assert Fields[2] == f;
    case Length => assert Fields[3] == f;
    case Quantity => assert Fields[4] == f;
  }

  function Filter(fs: seq<Field>, mapping: map<Field, string>): (r: seq<Field>)
    ensures forall f :: f in r <==> f in fs && f !in mapping
  {
    if fs == [] then []
    else (if fs[0] in mapping then [] else [fs[0]]) + Filter(fs[1..], mapping)
  }

  /** Filtering works piece by piece, so the kept fields stay in their order. */
  lemma {:induction false} FilterAppend(a: seq<Field>, b: seq<Field>, mapping: map<Field, string>)
    ensures Filter(a + b, mapping) == Filter(a, mapping) + Filter(b, mapping)
    decreases |a|
  {
    if a == [] {
      assert a + b == b;
    } else {
      assert (a + b)[1..] == a[1..] + b;
      FilterAppend(a[1..], b, mapping);
    }
  }

  lemma {:induction false} FilterKeepsOrder(fs: seq<Field>, mapping: map<Field, string>)
    requires InLookupOrder(fs)
    ensures InLookupOrder(Filter(fs, mapping))
    decreases |fs|
  {
    if fs != [] {
      var rest := Filter(fs[1..], mapping);
      FilterKeepsOrder(fs[1..], mapping);
      forall k | 0 <= k < |rest| ensures Rank(fs[0]) < Rank(rest[k]) {
        assert rest[k] in fs[1..];
        var m :| 0 <= m < |fs[1..]| && fs[1..][m] == rest[k];
        assert fs[m + 1] == rest[k];
      }
    }
  }
}
