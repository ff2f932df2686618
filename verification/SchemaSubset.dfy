/** The schema validator for tool calls: its loops, the errors they report, and what the
    supported keywords mean (section 6 of JSON Schema Validation 2020-12, with Python's own
    notion of integer and of equality where the validator uses it). */
module SchemaSubset {
  import opened Common

  datatype Field = Field(name: string, value: Json)

  /** A parsed JSON value; the fields of an object are in insertion order. */
  datatype Json =
    | JNull | JBool(flag: bool) | JInt(whole: int) | JFloat(fractional: real) | JString(text: string)
    | JArray(items: seq<Json>) | JObject(fields: seq<Field>)

  datatype TypeName = ObjectType | ArrayType | StringType | BooleanType | NumberType | IntegerType | NullType
    | OtherType(name: string)

  datatype Property = Property(name: string, schema: Schema)

  datatype Schema = Schema(
    typeName: Option<TypeName>, enumeration: Option<seq<Json>>, minimum: Option<real>, maximum: Option<real>,
    minLength: Option<int>, maxLength: Option<int>, properties: seq<Property>, required: seq<string>,
    items: Option<Schema>, closed: bool, unsupported: seq<string>)

  datatype PathStep = Member(name: string) | Index(index: nat)

  type Path = seq<PathStep>

  datatype ErrorKind =
    | ExpectedType(typeName: TypeName) | NotInEnum | TooShort | TooLong | BelowMinimum | AboveMaximum
    | MissingRequired(name: string) | AdditionalProperty(name: string)

  datatype SchemaError = SchemaError(path: Path, kind: ErrorKind)

  /** The errors found, or the place of an unsupported keyword. */
  type Report = Result<seq<SchemaError>, Path>

  // ---------------------------------------------------------------- values

  predicate IsType(i: Json, t: TypeName) {
    match t
    case ObjectType => i.JObject?
    case ArrayType => i.JArray?
    case StringType => i.JString?
    case BooleanType => i.JBool?
    case NumberType => i.JInt? || i.JFloat?
    case IntegerType => i.JInt?
    case NullType => i.JNull?
    case OtherType(_) => false
  }

  predicate TypeOk(i: Json, s: Schema) {
    s.typeName.Some? ==> IsType(i, s.typeName.value)
  }

  /** The number a value stands for in Python's equality, where true is 1 and false is 0. */
  function AsNumber(i: Json): Option<real> {
    match i
    case JBool(b) => Some(if b then 1.0 else 0.0)
    case JInt(n) => Some(n as real)
    case JFloat(r) => Some(r)
    case _ => None
  }

  /** Python's ==, as the enum keyword uses it; objects are equal when they have the same names
      and equal values under each. */
  predicate Equal(a: Json, b: Json)
    decreases a
  {
    if AsNumber(a).Some? then AsNumber(a) == AsNumber(b)
    else match a
      case JString(s) => b == JString(s)
      case JArray(xs) => b.JArray? && |xs| == |b.items| && forall k :: 0 <= k < |xs| ==> Equal(xs[k], b.items[k])
      case JObject(fs) =>
        && b.JObject? && NamesOf(fs) == NamesOf(b.fields)
        && forall name :: name in NamesOf(fs) ==>
             Equal(fs[IndexOf(fs, name)].value, b.fields[IndexOf(b.fields, name)].value)
      case _ => b.JNull?
  }

  function NamesOf(fs: seq<Field>): set<string> {
    set k | 0 <= k < |fs| :: fs[k].name
  }

  /** The position of the field with this name. */
  function IndexOf(fs: seq<Field>, name: string): (k: nat)
    requires name in NamesOf(fs)
    ensures k < |fs| && fs[k].name == name
  {
    if fs[0].name == name then 0
    else
      assert name in NamesOf(fs[1..]) by {
        var k :| 0 <= k < |fs| && fs[k].name == name;
        assert fs[1..][k - 1].name == name;
      }
      1 + IndexOf(fs[1..], name)
  }

  /** A value up to Python's equality: booleans and numbers are reals, an object is a map. */
  datatype Form =
    FormNull | FormNumber(number: real) | FormText(text: string) | FormList(items: seq<Form>)
    | FormMap(members: map<string, Form>)

  ghost function FormOf(i: Json): Form {
    match i
    case JNull => FormNull
    case JBool(b) => FormNumber(if b then 1.0 else 0.0)
    case JInt(n) => FormNumber(n as real)
    case JFloat(x) => FormNumber(x)
    case JString(text) => FormText(text)
    case JArray(xs) => FormList(seq(|xs|, k requires 0 <= k < |xs| => FormOf(xs[k])))
    case JObject(fs) => FormMap(map name | name in NamesOf(fs) :: FormOf(fs[IndexOf(fs, name)].value))
  }

  /** The validator's equality holds exactly for values of the same form. */
  lemma {:induction false} EqualIffSameForm(a: Json, b: Json)
    ensures Equal(a, b) <==> FormOf(a) == FormOf(b)
    decreases a
  {
    if a.JArray? && b.JArray? {
      ListForms(a, b);
    } else if a.JObject? && b.JObject? {
      MapForms(a, b);
    }
  }

  lemma {:induction false} ListForms(a: Json, b: Json)
    requires a.JArray? && b.JArray?
    ensures Equal(a, b) <==> FormOf(a) == FormOf(b)
    decreases a, 0
  {
    forall k | 0 <= k < |a.items| && k < |b.items|
      ensures Equal(a.items[k], b.items[k]) <==> FormOf(a).items[k] == FormOf(b).items[k]
    {
      EqualIffSameForm(a.items[k], b.items[k]);
    }
    if |a.items| == |b.items| {
      assert FormOf(a).items == FormOf(b).items <==>
        forall k :: 0 <= k < |a.items| ==> FormOf(a).items[k] == FormOf(b).items[k];
    }
  }

  lemma {:induction false} MapForms(a: Json, b: Json)
    requires a.JObject? && b.JObject?
    ensures Equal(a, b) <==> FormOf(a) == FormOf(b)
    decreases a, 0
  {
    var fs, gs, m, n := a.fields, b.fields, FormOf(a).members, FormOf(b).members;
    assert m.Keys == NamesOf(fs) && n.Keys == NamesOf(gs);
    forall name | name in NamesOf(fs) && name in NamesOf(gs)
      ensures Equal(fs[IndexOf(fs, name)].value, gs[IndexOf(gs, name)].value) <==> m[name] == n[name]
    {
      EqualIffSameForm(fs[IndexOf(fs, name)].value, gs[IndexOf(gs, name)].value);
    }
    if m.Keys == n.Keys {
      assert m == n <==> forall name :: name in m ==> m[name] == n[name];
    }
  }

  /** So it is an equivalence. */
  lemma EqualIsEquivalence(a: Json, b: Json, c: Json)
    ensures Equal(a, a) && (Equal(a, b) ==> Equal(b, a)) && (Equal(a, b) && Equal(b, c) ==> Equal(a, c))
  {
    EqualIffSameForm(a, a);
    EqualIffSameForm(a, b);
    EqualIffSameForm(b, a);
    EqualIffSameForm(b, c);
    EqualIffSameForm(a, c);
  }

  predicate DistinctNames(fs: seq<Field>) {
    forall j, k :: 0 <= j < k < |fs| ==> fs[j].name != fs[k].name
  }

  lemma {:induction false} NamesCount(fs: seq<Field>)
    requires DistinctNames(fs)
    ensures |NamesOf(fs)| == |fs|
    decreases |fs|
  {
    if fs != [] {
      var init, last := fs[..|fs| - 1], fs[|fs| - 1];
      NamesCount(init);
      forall name ensures name in NamesOf(fs) <==> name in NamesOf(init) + {last.name} {
        if k :| 0 <= k < |fs| && fs[k].name == name {
          if k < |init| { assert init[k].name == name; }
        }
      }
      assert NamesOf(fs) == NamesOf(init) + {last.name};
    }
  }

  lemma SmallerSubset(a: set<string>, b: set<string>)
    requires a <= b
    ensures |a| <= |b| && (a != b ==> |a| < |b|)
  {
    assert b == a + (b - a);
  }

  /** On objects that parsing can produce, whose names are distinct, this is how Python compares
      dictionaries: as many entries, and each of the one found equal in the other. */
  lemma DictionariesCompare(fs: seq<Field>, gs: seq<Field>)
    requires DistinctNames(fs) && DistinctNames(gs)
    ensures Equal(JObject(fs), JObject(gs)) <==>
      && |fs| == |gs|
      && forall k :: 0 <= k < |fs| ==>
           fs[k].name in NamesOf(gs) && Equal(fs[k].value, gs[IndexOf(gs, fs[k].name)].value)
  {
    NamesCount(fs);
    NamesCount(gs);
    forall k | 0 <= k < |fs| ensures fs[k].name in NamesOf(fs) && IndexOf(fs, fs[k].name) == k {
      assert fs[k].name in NamesOf(fs);
    }
    if |fs| == |gs| && forall k :: 0 <= k < |fs| ==> fs[k].name in NamesOf(gs) {
      assert NamesOf(fs) <= NamesOf(gs);
      SmallerSubset(NamesOf(fs), NamesOf(gs));
    }
  }

  predicate Has(fs: seq<Field>, name: string) {
    exists k :: 0 <= k < |fs| && fs[k].name == name
  }

  predicate Listed(ps: seq<Property>, name: string) {
    exists j :: 0 <= j < |ps| && ps[j].name == name
  }

  /** The schema at p is the one for this name. */
  predicate Governs(ps: seq<Property>, p: nat, name: string) {
    p < |ps| && ps[p].name == name && forall j :: 0 <= j < p ==> ps[j].name != name
  }

  /** The position of the schema for a property. */
  function Lookup(ps: seq<Property>, name: string): (k: Option<nat>)
    ensures k.Some? ==> Governs(ps, k.value, name)
    ensures k.None? ==> !Listed(ps, name)
  {
    LookupFrom(ps, name, 0)
  }

  function LookupFrom(ps: seq<Property>, name: string, from: nat): (k: Option<nat>)
    requires from <= |ps| && forall j :: 0 <= j < from ==> ps[j].name != name
    ensures k.Some? ==> Governs(ps, k.value, name)
    ensures k.None? ==> !Listed(ps, name)
    decreases |ps| - from
  {
    if from == |ps| then None
    else if ps[from].name == name then Some(from)
    else LookupFrom(ps, name, from + 1)
  }

  predicate InEnum(i: Json, values: seq<Json>) {
    exists k :: 0 <= k < |values| && Equal(i, values[k])
  }

  predicate Numeric(i: Json) {
    i.JInt? || i.JFloat?
  }

  // ---------------------------------------------------------------- the errors, in the order they are found

  function When(wrong: bool, path: Path, kind: ErrorKind): seq<SchemaError> {
    if wrong then [SchemaError(path, kind)] else []
  }

  predicate WrongEnum(i: Json, s: Schema) { s.enumeration.Some? && !InEnum(i, s.enumeration.value) }
  predicate WrongShort(i: Json, s: Schema) { i.JString? && s.minLength.Some? && |i.text| < s.minLength.value }
  predicate WrongLong(i: Json, s: Schema) { i.JString? && s.maxLength.Some? && |i.text| > s.maxLength.value }
  predicate WrongLow(i: Json, s: Schema) { Numeric(i) && s.minimum.Some? && AsNumber(i).value < s.minimum.value }
  predicate WrongHigh(i: Json, s: Schema) { Numeric(i) && s.maximum.Some? && AsNumber(i).value > s.maximum.value }

  function LengthErrors(i: Json, s: Schema, path: Path): seq<SchemaError> {
    When(WrongShort(i, s), path, TooShort) + When(WrongLong(i, s), path, TooLong)
  }

  function RangeErrors(i: Json, s: Schema, path: Path): seq<SchemaError> {
    When(WrongLow(i, s), path, BelowMinimum) + When(WrongHigh(i, s), path, AboveMaximum)
  }

  function ScalarErrors(i: Json, s: Schema, path: Path): seq<SchemaError> {
    When(WrongEnum(i, s), path, NotInEnum) + LengthErrors(i, s, path) + RangeErrors(i, s, path)
  }

  function MissingErrors(names: seq<string>, fs: seq<Field>, path: Path): seq<SchemaError> {
    if names == [] then []
    else MissingErrors(names[..|names| - 1], fs, path)
         + When(!Has(fs, names[|names| - 1]), path, MissingRequired(names[|names| - 1]))
  }

  function ExtraErrors(fs: seq<Field>, ps: seq<Property>, path: Path): seq<SchemaError> {
    if fs == [] then []
    else ExtraErrors(fs[..|fs| - 1], ps, path)
         + When(!Listed(ps, fs[|fs| - 1].name), path, AdditionalProperty(fs[|fs| - 1].name))
  }

  function ObjectErrors(i: Json, s: Schema, path: Path): seq<SchemaError>
    requires i.JObject?
  {
    MissingErrors(s.required, i.fields, path) + (if s.closed then ExtraErrors(i.fields, s.properties, path) else [])
  }

  /** Joining what was found so far with what the next child reports; the first raise wins. */
  function Extend(sofar: Report, next: Report): Report {
    if sofar.Raised? then sofar else if next.Raised? then next else Ok(sofar.value + next.value)
  }

  /** All results joined in order. */
  function Join(rs: seq<Report>): Report {
    if rs == [] then Ok([]) else Extend(Join(rs[..|rs| - 1]), rs[|rs| - 1])
  }

  /** What a field contributes: nothing without a property schema. */
  function FieldCheck(f: Field, s: Schema, path: Path): Report
    decreases s, 0
  {
    var k := Lookup(s.properties, f.name);
    if k.None? then Ok([]) else Check(f.value, s.properties[k.value].schema, path + [Member(f.name)])
  }

  function FieldChecks(fs: seq<Field>, s: Schema, path: Path): (rs: seq<Report>)
    ensures |rs| == |fs| && forall k :: 0 <= k < |fs| ==> rs[k] == FieldCheck(fs[k], s, path)
    decreases s, 1
  {
    seq(|fs|, k requires 0 <= k < |fs| => FieldCheck(fs[k], s, path))
  }

  function ItemChecks(xs: seq<Json>, s: Schema, path: Path): (rs: seq<Report>)
    requires s.items.Some?
    ensures |rs| == |xs| && forall k :: 0 <= k < |xs| ==> rs[k] == Check(xs[k], s.items.value, path + [Index(k)])
    decreases s, 1
  {
    seq(|xs|, k requires 0 <= k < |xs| => Check(xs[k], s.items.value, path + [Index(k)]))
  }

  /** Everything the validator reports at and below a value; Raised carries where an
      unsupported keyword was met. */
  function Check(i: Json, s: Schema, path: Path): Report
    decreases s, 2
  {
    if s.unsupported != [] then Raised(path)
    else if !TypeOk(i, s) then Ok([SchemaError(path, ExpectedType(s.typeName.value))])
    else if i.JObject? then
      Extend(Ok(ScalarErrors(i, s, path) + ObjectErrors(i, s, path)), Join(FieldChecks(i.fields, s, path)))
    else if i.JArray? && s.items.Some? then
      Extend(Ok(ScalarErrors(i, s, path)), Join(ItemChecks(i.items, s, path)))
    else Ok(ScalarErrors(i, s, path))
  }

  /** The loop over the required names. */
  method CheckRequired(required: seq<string>, fields: seq<Field>, path: Path) returns (errors: seq<SchemaError>)
    ensures errors == MissingErrors(required, fields, path)
  {
    errors := [];
    var n := 0;
    while n < |required|
      invariant 0 <= n <= |required|
      invariant errors == MissingErrors(required[..n], fields, path)
    {
      assert required[..n + 1][..n] == required[..n];
      if !Has(fields, required[n]) {
        errors := errors + [SchemaError(path, MissingRequired(required[n]))];
      }
      n := n + 1;
    }
    assert required[..n] == required;
  }

  /** The loop over the names that a closed object has. */
  method CheckExtra(fields: seq<Field>, properties: seq<Property>, path: Path) returns (errors: seq<SchemaError>)
    ensures errors == ExtraErrors(fields, properties, path)
  {
    errors := [];
    var n := 0;
    while n < |fields|
      invariant 0 <= n <= |fields|
      invariant errors == ExtraErrors(fields[..n], properties, path)
    {
      assert fields[..n + 1][..n] == fields[..n];
      if !Listed(properties, fields[n].name) {
        errors := errors + [SchemaError(path, AdditionalProperty(fields[n].name))];
      }
      n := n + 1;
    }
    assert fields[..n] == fields;
  }

  /** The loop over an object's fields; it stops at the first child that raises. */
  method CheckFields(fields: seq<Field>, schema: Schema, path: Path) returns (r: Report)
    ensures r == Join(FieldChecks(fields, schema, path))
    decreases schema, 0
  {
    ghost var results := FieldChecks(fields, schema, path);
    var errors: seq<SchemaError>, k := [], 0;
    while k < |fields|
      invariant 0 <= k <= |fields|
      invariant Join(results[..k]) == Ok(errors)
    {
      JoinNext(results, k);
      var child := Lookup(schema.properties, fields[k].name);
      if child.Some? {
        var inside := path + [Member(fields[k].name)];
        var below := ValidateSubset(fields[k].value, schema.properties[child.value].schema, inside);
        if below.Raised? {
          JoinStops(results, k + 1);
          return below;
        }
        errors := errors + below.value;
      }
      assert child.None? ==> errors + [] == errors;
      k := k + 1;
    }
    assert results[..k] == results;
    return Ok(errors);
  }

  /** The loop over an array's items; it stops at the first item that raises. */
  method CheckItems(items: seq<Json>, schema: Schema, path: Path) returns (r: Report)
    requires schema.items.Some?
    ensures r == Join(ItemChecks(items, schema, path))
    decreases schema, 0
  {
    ghost var results := ItemChecks(items, schema, path);
    var errors: seq<SchemaError>, k := [], 0;
    while k < |items|
      invariant 0 <= k <= |items|
      invariant Join(results[..k]) == Ok(errors)
    {
      JoinNext(results, k);
      var below := ValidateSubset(items[k], schema.items.value, path + [Index(k)]);
      if below.Raised? {
        JoinStops(results, k + 1);
        return below;
      }
      errors := errors + below.value;
      k := k + 1;
    }
    assert results[..k] == results;
    return Ok(errors);
  }

  /** validate_schema_subset: the checks at a value, then the loops over what it contains. */
  method ValidateSubset(instance: Json, schema: Schema, path: Path) returns (r: Report)
    ensures r == Check(instance, schema, path)
    decreases schema, 1
  {
    if schema.unsupported != [] {
      return Raised(path);
    }
    if schema.typeName.Some? && !IsType(instance, schema.typeName.value) {
      return Ok([SchemaError(path, ExpectedType(schema.typeName.value))]);
    }
    var errors := ScalarErrors(instance, schema, path);
    if instance.JObject? {
      var missing := CheckRequired(schema.required, instance.fields, path);
      var extra: seq<SchemaError> := [];
      if schema.closed {
        extra := CheckExtra(instance.fields, schema.properties, path);
      }
      errors := errors + (missing + extra);
      var below := CheckFields(instance.fields, schema, path);
      return Extend(Ok(errors), below);
    }
    if instance.JArray? && schema.items.Some? {
      var below := CheckItems(instance.items, schema, path);
      return Extend(Ok(errors), below);
    }
    return Ok(errors);
  }

  lemma JoinNext(rs: seq<Report>, n: nat)
    requires n < |rs|
    ensures Join(rs[..n + 1]) == Extend(Join(rs[..n]), rs[n])
  {
    assert rs[..n + 1][..n] == rs[..n];
  }

  lemma {:induction false} JoinStops(rs: seq<Report>, n: nat)
    requires n <= |rs| && Join(rs[..n]).Raised?
    ensures Join(rs) == Join(rs[..n])
    decreases |rs|
  {
    if n < |rs| {
      assert rs[..|rs| - 1][..n] == rs[..n];
      JoinStops(rs[..|rs| - 1], n);
    } else {
      assert rs[..n] == rs;
    }
  }

  lemma {:induction false} JoinRaises(rs: seq<Report>)
    ensures Join(rs).Raised? <==> exists k :: 0 <= k < |rs| && rs[k].Raised?
    decreases |rs|
  {
    if rs != [] {
      var n := |rs| - 1;
      JoinRaises(rs[..n]);
      assert Join(rs).Raised? <==> Join(rs[..n]).Raised? || rs[n].Raised?;
      assert forall k :: 0 <= k < n ==> rs[..n][k] == rs[k];
    }
  }

  lemma {:induction false} JoinLists(rs: seq<Report>, e: SchemaError)
    requires Join(rs).Ok?
    ensures e in Join(rs).value <==> exists k :: 0 <= k < |rs| && rs[k].Ok? && e in rs[k].value
    decreases |rs|
  {
    if rs != [] {
      var n := |rs| - 1;
      JoinLists(rs[..n], e);
      assert e in Join(rs).value <==> e in Join(rs[..n]).value || e in rs[n].value;
      assert forall k :: 0 <= k < n ==> rs[..n][k] == rs[k];
    }
  }

  /** What is found first is reported first. */
  lemma {:induction false} JoinKeepsOrder(rs: seq<Report>, n: nat)
    requires n <= |rs| && Join(rs).Ok?
    ensures Join(rs[..n]).Ok? && Join(rs[..n]).value <= Join(rs).value
    decreases |rs|
  {
    if n < |rs| {
      assert rs[..|rs| - 1][..n] == rs[..n];
      JoinKeepsOrder(rs[..|rs| - 1], n);
    } else {
      assert rs[..n] == rs;
    }
  }

  lemma {:induction false} JoinEmpty(rs: seq<Report>)
    ensures Join(rs) == Ok([]) <==> forall k :: 0 <= k < |rs| ==> rs[k] == Ok([])
    decreases |rs|
  {
    if rs != [] {
      var n := |rs| - 1;
      JoinEmpty(rs[..n]);
      ExtendEmpty(Join(rs[..n]), rs[n]);
      assert forall k :: 0 <= k < n ==> rs[..n][k] == rs[k];
    }
  }

  lemma ExtendEmpty(a: Report, b: Report)
    ensures Extend(a, b) == Ok([]) <==> a == Ok([]) && b == Ok([])
  {
    if a.Ok? && b.Ok? {
      assert |a.value + b.value| == |a.value| + |b.value|;
    }
  }

  // ---------------------------------------------------------------- what the keywords mean

  /** The types that a value has, by its constructor. */
  function TypesOf(i: Json): set<TypeName> {
    match i
    case JNull => {NullType}
    case JBool(_) => {BooleanType}
    case JInt(_) => {NumberType, IntegerType}
    case JFloat(_) => {NumberType}
    case JString(_) => {StringType}
    case JArray(_) => {ArrayType}
    case JObject(_) => {ObjectType}
  }

  /** The number that minimum and maximum speak about; a boolean is none. */
  function Magnitude(i: Json): Option<real> {
    match i
    case JInt(n) => Some(n as real)
    case JFloat(x) => Some(x)
    case _ => None
  }

  lemma TypesMatch(i: Json, s: Schema)
    ensures TypeOk(i, s) <==> (s.typeName.Some? ==> s.typeName.value in TypesOf(i))
  {
  }

  /** The enumeration names a value of the same form. */
  ghost predicate Enumerated(i: Json, values: seq<Json>) {
    exists k :: 0 <= k < |values| && FormOf(i) == FormOf(values[k])
  }

  lemma EnumMatches(i: Json, values: seq<Json>)
    ensures InEnum(i, values) <==> Enumerated(i, values)
  {
    forall k | 0 <= k < |values| ensures Equal(i, values[k]) <==> FormOf(i) == FormOf(values[k]) {
      EqualIffSameForm(i, values[k]);
    }
  }

  /** What a value must be by itself: type, enum, length and range. */
  ghost predicate ScalarMeaning(i: Json, s: Schema) {
    && (s.typeName.Some? ==> s.typeName.value in TypesOf(i))
    && (s.enumeration.Some? ==> Enumerated(i, s.enumeration.value))
    && (i.JString? ==>
          && (s.minLength.Some? ==> s.minLength.value <= |i.text|)
          && (s.maxLength.Some? ==> |i.text| <= s.maxLength.value))
    && (Magnitude(i).Some? ==>
          && (s.minimum.Some? ==> s.minimum.value <= Magnitude(i).value)
          && (s.maximum.Some? ==> Magnitude(i).value <= s.maximum.value))
  }

  /** Which names an object must and may have. */
  ghost predicate NamesMeaning(i: Json, s: Schema) {
    i.JObject? ==>
      && (forall n :: 0 <= n < |s.required| ==> exists k :: 0 <= k < |i.fields| && i.fields[k].name == s.required[n])
      && (s.closed ==> forall k :: 0 <= k < |i.fields| ==>
             exists p :: 0 <= p < |s.properties| && s.properties[p].name == i.fields[k].name)
  }

  /** The declarative meaning of a schema, for a value and all that it contains. */
  ghost predicate Satisfies(i: Json, s: Schema)
    decreases s, 1
  {
    && ScalarMeaning(i, s)
    && NamesMeaning(i, s)
    && (i.JObject? ==> forall k :: 0 <= k < |i.fields| ==> FieldSatisfies(i.fields[k], s))
    && (i.JArray? && s.items.Some? ==> forall k :: 0 <= k < |i.items| ==> Satisfies(i.items[k], s.items.value))
  }

  /** A field satisfies the property schema for its name, if there is one. */
  ghost predicate FieldSatisfies(f: Field, s: Schema)
    decreases s, 0
  {
    forall p: nat :: Governs(s.properties, p, f.name) ==> Satisfies(f.value, s.properties[p].schema)
  }

  ghost predicate OfType(i: Json, s: Schema) {
    s.typeName.Some? ==> s.typeName.value in TypesOf(i)
  }

  /** A violation at this very value; a value of the wrong type has no other. */
  ghost predicate LocalViolation(i: Json, s: Schema, kind: ErrorKind) {
    match kind
    case ExpectedType(t) => s.typeName == Some(t) && t !in TypesOf(i)
    case NotInEnum => OfType(i, s) && s.enumeration.Some? && !Enumerated(i, s.enumeration.value)
    case TooShort => OfType(i, s) && i.JString? && s.minLength.Some? && |i.text| < s.minLength.value
    case TooLong => OfType(i, s) && i.JString? && s.maxLength.Some? && s.maxLength.value < |i.text|
    case BelowMinimum => OfType(i, s) && Magnitude(i).Some? && s.minimum.Some? && Magnitude(i).value < s.minimum.value
    case AboveMaximum => OfType(i, s) && Magnitude(i).Some? && s.maximum.Some? && s.maximum.value < Magnitude(i).value
    case MissingRequired(name) =>
      OfType(i, s) && i.JObject? && name in s.required && forall k :: 0 <= k < |i.fields| ==> i.fields[k].name != name
    case AdditionalProperty(name) =>
      && OfType(i, s) && i.JObject? && s.closed && (exists k :: 0 <= k < |i.fields| && i.fields[k].name == name)
      && forall p :: 0 <= p < |s.properties| ==> s.properties[p].name != name
  }

  /** A violation at or below this value, named by the path that leads to it. */
  ghost predicate Violation(i: Json, s: Schema, path: Path, e: SchemaError)
    decreases s, 1
  {
    || (e.path == path && LocalViolation(i, s, e.kind))
    || (OfType(i, s) && i.JObject? && exists k :: 0 <= k < |i.fields| && FieldViolation(i.fields[k], s, path, e))
    || (OfType(i, s) && i.JArray? && s.items.Some? &&
        exists k :: 0 <= k < |i.items| && Violation(i.items[k], s.items.value, path + [Index(k)], e))
  }

  ghost predicate FieldViolation(f: Field, s: Schema, path: Path, e: SchemaError)
    decreases s, 0
  {
    exists p: nat :: Governs(s.properties, p, f.name)
      && Violation(f.value, s.properties[p].schema, path + [Member(f.name)], e)
  }

  lemma {:induction false} MissingExactly(names: seq<string>, fs: seq<Field>, path: Path, e: SchemaError)
    ensures e in MissingErrors(names, fs, path) <==>
      e.path == path && e.kind.MissingRequired? && e.kind.name in names && !Has(fs, e.kind.name)
    decreases |names|
  {
    if names != [] {
      MissingExactly(names[..|names| - 1], fs, path, e);
      assert names == names[..|names| - 1] + [names[|names| - 1]];
    }
  }

  lemma {:induction false} ExtraExactly(fs: seq<Field>, ps: seq<Property>, path: Path, e: SchemaError)
    ensures e in ExtraErrors(fs, ps, path) <==>
      e.path == path && e.kind.AdditionalProperty? && Has(fs, e.kind.name) && !Listed(ps, e.kind.name)
    decreases |fs|
  {
    if fs != [] {
      var init, last := fs[..|fs| - 1], fs[|fs| - 1];
      ExtraExactly(init, ps, path, e);
      if e.kind.AdditionalProperty? {
        assert Has(fs, e.kind.name) <==> Has(init, e.kind.name) || last.name == e.kind.name by {
          if Has(init, e.kind.name) {
            var k :| 0 <= k < |init| && init[k].name == e.kind.name;
            assert fs[k].name == e.kind.name;
          }
          if Has(fs, e.kind.name) {
            var k :| 0 <= k < |fs| && fs[k].name == e.kind.name;
            if k < |init| { assert init[k].name == e.kind.name; }
          }
        }
      }
    }
  }

  lemma LengthExactly(i: Json, s: Schema, path: Path, e: SchemaError)
    ensures e in LengthErrors(i, s, path) <==>
      e.path == path && ((e.kind.TooShort? && WrongShort(i, s)) || (e.kind.TooLong? && WrongLong(i, s)))
  {
  }

  lemma RangeExactly(i: Json, s: Schema, path: Path, e: SchemaError)
    ensures e in RangeErrors(i, s, path) <==>
      e.path == path && ((e.kind.BelowMinimum? && WrongLow(i, s)) || (e.kind.AboveMaximum? && WrongHigh(i, s)))
  {
  }

  ghost predicate AboutScalars(kind: ErrorKind) {
    kind.NotInEnum? || kind.TooShort? || kind.TooLong? || kind.BelowMinimum? || kind.AboveMaximum?
  }

  predicate ScalarWrong(i: Json, s: Schema, kind: ErrorKind) {
    || (kind.NotInEnum? && WrongEnum(i, s)) || (kind.TooShort? && WrongShort(i, s))
       || (kind.TooLong? && WrongLong(i, s))
    || (kind.BelowMinimum? && WrongLow(i, s)) || (kind.AboveMaximum? && WrongHigh(i, s))
  }

  lemma ScalarListed(i: Json, s: Schema, path: Path, e: SchemaError)
    ensures e in ScalarErrors(i, s, path) <==> e.path == path && ScalarWrong(i, s, e.kind)
  {
    LengthExactly(i, s, path, e);
    RangeExactly(i, s, path, e);
  }

  lemma ScalarWrongIs(i: Json, s: Schema, kind: ErrorKind)
    requires TypeOk(i, s)
    ensures ScalarWrong(i, s, kind) <==> AboutScalars(kind) && LocalViolation(i, s, kind)
  {
    TypesMatch(i, s);
    if s.enumeration.Some? { EnumMatches(i, s.enumeration.value); }
  }

  lemma ScalarExactly(i: Json, s: Schema, path: Path, e: SchemaError)
    requires TypeOk(i, s)
    ensures e in ScalarErrors(i, s, path) <==> e.path == path && AboutScalars(e.kind) && LocalViolation(i, s, e.kind)
  {
    ScalarListed(i, s, path, e);
    ScalarWrongIs(i, s, e.kind);
  }

  /** The errors at an object itself, before its fields are visited. */
  lemma ObjectExactly(i: Json, s: Schema, path: Path, e: SchemaError)
    requires TypeOk(i, s) && i.JObject?
    ensures e in ScalarErrors(i, s, path) + ObjectErrors(i, s, path) <==> e.path == path && LocalViolation(i, s, e.kind)
  {
    ScalarExactly(i, s, path, e);
    NamesExactly(i, s, path, e);
  }

  lemma NamesExactly(i: Json, s: Schema, path: Path, e: SchemaError)
    requires TypeOk(i, s) && i.JObject?
    ensures e in ObjectErrors(i, s, path) <==>
      e.path == path && (e.kind.MissingRequired? || e.kind.AdditionalProperty?) && LocalViolation(i, s, e.kind)
  {
    TypesMatch(i, s);
    MissingExactly(s.required, i.fields, path, e);
    ExtraExactly(i.fields, s.properties, path, e);
  }

  /** The validator's report is complete and sound: whenever it returns, it lists exactly the
      violations, each at its own path, for every nesting of objects and arrays. */
  lemma {:induction false} ReportsExactlyTheViolations(i: Json, s: Schema, path: Path, e: SchemaError)
    requires Check(i, s, path).Ok?
    ensures e in Check(i, s, path).value <==> Violation(i, s, path, e)
    decreases s, 1
  {
    TypesMatch(i, s);
    if TypeOk(i, s) {
      ScalarExactly(i, s, path, e);
      if i.JObject? {
        ObjectExactly(i, s, path, e);
        FieldsExactly(i.fields, s, path, e);
      } else if i.JArray? && s.items.Some? {
        ItemsExactly(i.items, s, path, e);
      }
    }
  }

  lemma {:induction false} FieldsExactly(fs: seq<Field>, s: Schema, path: Path, e: SchemaError)
    requires Join(FieldChecks(fs, s, path)).Ok?
    ensures e in Join(FieldChecks(fs, s, path)).value <==>
      exists k :: 0 <= k < |fs| && FieldViolation(fs[k], s, path, e)
    decreases s, 0
  {
    var rs := FieldChecks(fs, s, path);
    JoinRaises(rs);
    JoinLists(rs, e);
    forall k | 0 <= k < |fs| ensures e in rs[k].value <==> FieldViolation(fs[k], s, path, e) {
      var at := Lookup(s.properties, fs[k].name);
      if at.Some? {
        ReportsExactlyTheViolations(fs[k].value, s.properties[at.value].schema, path + [Member(fs[k].name)], e);
      }
    }
  }

  lemma {:induction false} ItemsExactly(xs: seq<Json>, s: Schema, path: Path, e: SchemaError)
    requires s.items.Some? && Join(ItemChecks(xs, s, path)).Ok?
    ensures e in Join(ItemChecks(xs, s, path)).value <==>
      exists k :: 0 <= k < |xs| && Violation(xs[k], s.items.value, path + [Index(k)], e)
    decreases s, 0
  {
    var rs := ItemChecks(xs, s, path);
    JoinRaises(rs);
    JoinLists(rs, e);
    forall k | 0 <= k < |xs| ensures e in rs[k].value <==> Violation(xs[k], s.items.value, path + [Index(k)], e) {
      ReportsExactlyTheViolations(xs[k], s.items.value, path + [Index(k)], e);
    }
  }

  lemma ScalarsEmpty(i: Json, s: Schema, path: Path)
    requires TypeOk(i, s)
    ensures ScalarErrors(i, s, path) == [] <==> ScalarMeaning(i, s)
  {
    TypesMatch(i, s);
    if s.enumeration.Some? { EnumMatches(i, s.enumeration.value); }
    assert ScalarErrors(i, s, path) == [] <==>
      !WrongEnum(i, s) && !WrongShort(i, s) && !WrongLong(i, s) && !WrongLow(i, s) && !WrongHigh(i, s);
  }

  lemma {:induction false} MissingEmpty(names: seq<string>, fs: seq<Field>, path: Path)
    ensures MissingErrors(names, fs, path) == [] <==> forall n :: 0 <= n < |names| ==> Has(fs, names[n])
    decreases |names|
  {
    if names != [] {
      MissingEmpty(names[..|names| - 1], fs, path);
    }
  }

  lemma {:induction false} ExtraEmpty(fs: seq<Field>, ps: seq<Property>, path: Path)
    ensures ExtraErrors(fs, ps, path) == [] <==> forall k :: 0 <= k < |fs| ==> Listed(ps, fs[k].name)
    decreases |fs|
  {
    if fs != [] {
      var init := fs[..|fs| - 1];
      ExtraEmpty(init, ps, path);
      assert forall k :: 0 <= k < |init| ==> init[k].name == fs[k].name;
    }
  }

  lemma NamesEmpty(i: Json, s: Schema, path: Path)
    requires i.JObject?
    ensures ObjectErrors(i, s, path) == [] <==> NamesMeaning(i, s)
  {
    MissingEmpty(s.required, i.fields, path);
    ExtraEmpty(i.fields, s.properties, path);
  }

  /** The validator accepts exactly the values that satisfy the schema. */
  lemma {:induction false} AcceptsExactlyTheSatisfying(i: Json, s: Schema, path: Path)
    requires Check(i, s, path).Ok?
    ensures Check(i, s, path).value == [] <==> Satisfies(i, s)
    decreases s, 1
  {
    TypesMatch(i, s);
    if TypeOk(i, s) {
      ScalarsEmpty(i, s, path);
      if i.JObject? {
        NamesEmpty(i, s, path);
        FieldsAccepted(i.fields, s, path);
      } else if i.JArray? && s.items.Some? {
        ItemsAccepted(i.items, s, path);
      }
    }
  }

  lemma {:induction false} FieldsAccepted(fs: seq<Field>, s: Schema, path: Path)
    requires Join(FieldChecks(fs, s, path)).Ok?
    ensures Join(FieldChecks(fs, s, path)).value == [] <==> forall k :: 0 <= k < |fs| ==> FieldSatisfies(fs[k], s)
    decreases s, 0
  {
    var rs := FieldChecks(fs, s, path);
    JoinRaises(rs);
    JoinEmpty(rs);
    forall k | 0 <= k < |fs| ensures rs[k] == Ok([]) <==> FieldSatisfies(fs[k], s) {
      var at := Lookup(s.properties, fs[k].name);
      if at.Some? {
        AcceptsExactlyTheSatisfying(fs[k].value, s.properties[at.value].schema, path + [Member(fs[k].name)]);
      }
    }
  }

  lemma {:induction false} ItemsAccepted(xs: seq<Json>, s: Schema, path: Path)
    requires s.items.Some? && Join(ItemChecks(xs, s, path)).Ok?
    ensures Join(ItemChecks(xs, s, path)).value == [] <==> forall k :: 0 <= k < |xs| ==> Satisfies(xs[k], s.items.value)
    decreases s, 0
  {
    var rs := ItemChecks(xs, s, path);
    JoinRaises(rs);
    JoinEmpty(rs);
    forall k | 0 <= k < |xs| ensures rs[k] == Ok([]) <==> Satisfies(xs[k], s.items.value) {
      AcceptsExactlyTheSatisfying(xs[k], s.items.value, path + [Index(k)]);
    }
  }

  // ---------------------------------------------------------------- unsupported keywords

  /** The validation of this value meets a schema with an unsupported keyword. */
  ghost predicate MeetsUnsupported(i: Json, s: Schema)
    decreases s, 1
  {
    || s.unsupported != []
    || (OfType(i, s) && i.JObject? && exists k :: 0 <= k < |i.fields| && FieldMeetsUnsupported(i.fields[k], s))
    || (OfType(i, s) && i.JArray? && s.items.Some? &&
        exists k :: 0 <= k < |i.items| && MeetsUnsupported(i.items[k], s.items.value))
  }

  ghost predicate FieldMeetsUnsupported(f: Field, s: Schema)
    decreases s, 0
  {
    exists p: nat :: Governs(s.properties, p, f.name) && MeetsUnsupported(f.value, s.properties[p].schema)
  }

  /** The validator raises exactly when it meets an unsupported keyword, so it never
      silently ignores one that it reaches. */
  lemma {:induction false} RaisesExactlyWhenUnsupported(i: Json, s: Schema, path: Path)
    ensures Check(i, s, path).Raised? <==> MeetsUnsupported(i, s)
    decreases s, 1
  {
    TypesMatch(i, s);
    if s.unsupported == [] && TypeOk(i, s) {
      if i.JObject? {
        FieldsRaiseExactly(i.fields, s, path);
      } else if i.JArray? && s.items.Some? {
        ItemsRaiseExactly(i.items, s, path);
      }
    }
  }

  lemma {:induction false} FieldsRaiseExactly(fs: seq<Field>, s: Schema, path: Path)
    ensures Join(FieldChecks(fs, s, path)).Raised? <==> exists k :: 0 <= k < |fs| && FieldMeetsUnsupported(fs[k], s)
    decreases s, 0
  {
    var rs := FieldChecks(fs, s, path);
    JoinRaises(rs);
    forall k | 0 <= k < |fs| ensures rs[k].Raised? <==> FieldMeetsUnsupported(fs[k], s) {
      var at := Lookup(s.properties, fs[k].name);
      if at.Some? {
        RaisesExactlyWhenUnsupported(fs[k].value, s.properties[at.value].schema, path + [Member(fs[k].name)]);
      }
    }
  }

  lemma {:induction false} ItemsRaiseExactly(xs: seq<Json>, s: Schema, path: Path)
    requires s.items.Some?
    ensures Join(ItemChecks(xs, s, path)).Raised? <==>
      exists k :: 0 <= k < |xs| && MeetsUnsupported(xs[k], s.items.value)
    decreases s, 0
  {
    var rs := ItemChecks(xs, s, path);
    JoinRaises(rs);
    forall k | 0 <= k < |xs| ensures rs[k].Raised? <==> MeetsUnsupported(xs[k], s.items.value) {
      RaisesExactlyWhenUnsupported(xs[k], s.items.value, path + [Index(k)]);
    }
  }
}
