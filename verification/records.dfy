/** The adapter's records (`ModelBase` subclasses) as pydantic treats them:
    a record class is a schema, validation checks each declared field in
    declaration order and keeps undeclared keys (`extra="allow"`), and
    `model_dump` turns a record back into a dict. Validation is strict: a
    field accepts only the JSON kind its annotation names. */
module Records {
  import opened Outcomes
  import opened Segments

  /** The annotations the adapter's records use. */
  datatype FieldType =
    | IntType
    | StrType
    | BoolType
    | LiteralType(options: seq<string>)
    | DictListType
    | ModelType(fields: seq<Field>)

  /** One declared field: `name: ty` (`Optional[ty]` when `nullable`), with
      its default when it has one. */
  datatype Field = Field(name: string, ty: FieldType, nullable: bool, default: Option<Value>)

  type Schema = seq<Field>

  /** `name: ty`, required. */
  function Required(name: string, ty: FieldType): Field
  {
    Field(name, ty, false, None)
  }

  /** `name: Optional[ty] = None`. */
  function OptionalField(name: string, ty: FieldType): Field
  {
    Field(name, ty, true, Some(Null))
  }

  /** `name: ty = default`. */
  function Defaulted(name: string, ty: FieldType, default: Value): Field
  {
    Field(name, ty, false, Some(default))
  }

  /** `name: Literal[tag] = tag`: the fixed tag of a union member. */
  function TagField(name: string, tag: string): Field
  {
    Field(name, LiteralType([tag]), false, Some(Str(tag)))
  }

  datatype ValidationError = NotADict | Missing(field: string) | Invalid(field: string)

  // ---------------------------------------------------------------------------
  // validation

  /** A value checked against an annotation; a nested record is validated in turn. */
  function CheckValue(loc: string, ty: FieldType, x: Value): Result<Value, ValidationError>
    decreases ty, 0
  {
    match ty
    case IntType => if x.Int? then Ok(x) else Err(Invalid(loc))
    case StrType => if x.Str? then Ok(x) else Err(Invalid(loc))
    case BoolType => if x.Bool? then Ok(x) else Err(Invalid(loc))
    case LiteralType(options) => if x.Str? && x.s in options then Ok(x) else Err(Invalid(loc))
    case DictListType =>
      if x.Array? && forall i | 0 <= i < |x.items| :: x.items[i].Object? then Ok(x) else Err(Invalid(loc))
    case ModelType(fields) =>
      if !x.Object? then Err(Invalid(loc))
      else
        var vals := CheckFields(fields, x.fields);
        if vals.Err? then Err(vals.error) else Ok(Object(Build(fields, vals.value, x.fields)))
  }

  /** One field of a dict: its default when absent, `None` when nullable, else its checked value. */
  function CheckField(f: Field, input: map<string, Value>): Result<Value, ValidationError>
    decreases f, 1
  {
    if f.name !in input then
      if f.default.Some? then Ok(f.default.value) else Err(Missing(f.name))
    else if f.nullable && input[f.name] == Null then Ok(Null)
    else CheckValue(f.name, f.ty, input[f.name])
  }

  /** The declared fields' values in declaration order; the first failing field is reported. */
  function CheckFields(schema: Schema, input: map<string, Value>): (r: Result<seq<Value>, ValidationError>)
    ensures r.Ok? ==> |r.value| == |schema|
    decreases schema, 2
  {
    if schema == [] then Ok([])
    else
      var v := CheckField(schema[0], input);
      if v.Err? then Err(v.error)
      else
        var rest := CheckFields(schema[1..], input);
        if rest.Err? then rest else Ok([v.value] + rest.value)
  }

  /** The validated record: the input dict with every declared field replaced by its value. */
  function Build(schema: Schema, vals: seq<Value>, input: map<string, Value>): map<string, Value>
    requires |vals| == |schema|
    decreases schema
  {
    if schema == [] then input
    else Build(schema[1..], vals[1..], input)[schema[0].name := vals[0]]
  }

  /** Validation of a dict against a record class. */
  function Validate(schema: Schema, v: Value): Result<map<string, Value>, ValidationError>
  {
    if !v.Object? then Err(NotADict)
    else
      var vals := CheckFields(schema, v.fields);
      if vals.Err? then Err(vals.error) else Ok(Build(schema, vals.value, v.fields))
  }

  /** Validation succeeds exactly when every declared field does, and then
      yields each field's own value. */
  lemma {:induction false} CheckFieldsSpec(schema: Schema, input: map<string, Value>)
    ensures CheckFields(schema, input).Ok? <==> forall i | 0 <= i < |schema| :: CheckField(schema[i], input).Ok?
    ensures CheckFields(schema, input).Ok? ==>
      forall i | 0 <= i < |schema| :: CheckField(schema[i], input) == Ok(CheckFields(schema, input).value[i])
    decreases schema
  {
    if schema != [] {
      CheckFieldsSpec(schema[1..], input);
      assert forall i | 1 <= i < |schema| :: schema[i] == schema[1..][i - 1];
    }
  }

  /** The first field that fails decides the error. */
  lemma {:induction false} CheckFieldsFirstError(schema: Schema, input: map<string, Value>, i: nat)
    requires i < |schema| && CheckField(schema[i], input).Err?
    requires forall j | 0 <= j < i :: CheckField(schema[j], input).Ok?
    ensures CheckFields(schema, input) == Err(CheckField(schema[i], input).error)
    decreases i
  {
    if i > 0 {
      assert forall j | 0 <= j < i - 1 :: schema[1..][j] == schema[j + 1];
      CheckFieldsFirstError(schema[1..], input, i - 1);
    }
  }

  function Names(schema: Schema): set<string>
  {
    set i | 0 <= i < |schema| :: schema[i].name
  }

  /** The record keeps every input key, adds every declared field, and
      leaves undeclared keys as they were. */
  lemma {:induction false} BuildKeys(schema: Schema, vals: seq<Value>, input: map<string, Value>)
    requires |vals| == |schema|
    ensures Build(schema, vals, input).Keys == input.Keys + Names(schema)
    ensures forall k | k in input && k !in Names(schema) :: Build(schema, vals, input)[k] == input[k]
    decreases schema
  {
    if schema != [] {
      BuildKeys(schema[1..], vals[1..], input);
      assert Names(schema) == {schema[0].name} + Names(schema[1..]) by {
        forall k | k in Names(schema) ensures k in {schema[0].name} + Names(schema[1..]) {
          var i :| 0 <= i < |schema| && schema[i].name == k;
          if i > 0 { assert schema[1..][i - 1].name == k; }
        }
        forall k | k in Names(schema[1..]) ensures k in Names(schema) {
          var i :| 0 <= i < |schema[1..]| && schema[1..][i].name == k;
          assert schema[i + 1].name == k;
        }
      }
    }
  }

  /** Under a name declared more than once, the first declaration's value is kept. */
  lemma {:induction false} BuildAt(schema: Schema, vals: seq<Value>, input: map<string, Value>, i: nat)
    requires |vals| == |schema| && i < |schema|
    requires forall j | 0 <= j < i :: schema[j].name != schema[i].name
    ensures schema[i].name in Build(schema, vals, input)
    ensures Build(schema, vals, input)[schema[i].name] == vals[i]
    decreases i
  {
    if i > 0 {
      assert forall j | 0 <= j < i - 1 :: schema[1..][j] == schema[j + 1];
      BuildAt(schema[1..], vals[1..], input, i - 1);
    }
  }

  /** A validated record holds, under each declared name, that field's checked value. */
  lemma ValidatedField(schema: Schema, v: Value, i: nat)
    requires Validate(schema, v).Ok? && i < |schema| && FieldIndex(schema, schema[i].name) == i
    ensures CheckField(schema[i], v.fields).Ok?
    ensures schema[i].name in Validate(schema, v).value
    ensures Validate(schema, v).value[schema[i].name] == CheckField(schema[i], v.fields).value
  {
    var vals := CheckFields(schema, v.fields).value;
    CheckFieldsSpec(schema, v.fields);
    BuildAt(schema, vals, v.fields, i);
  }

  /** A validated `Literal[...]` field without a default holds one of its literals. */
  lemma LiteralFieldClosed(schema: Schema, v: Value, i: nat)
    requires Validate(schema, v).Ok? && i < |schema| && FieldIndex(schema, schema[i].name) == i
    requires schema[i].ty.LiteralType? && !schema[i].nullable && schema[i].default.None?
    ensures schema[i].name in Validate(schema, v).value
    ensures var x := Validate(schema, v).value[schema[i].name];
      x.Str? && x.s in schema[i].ty.options
  {
    ValidatedField(schema, v, i);
  }

  /** A dict without a field that has no default is rejected. */
  lemma MissingRequiredFails(schema: Schema, v: Value, i: nat)
    requires v.Object? && i < |schema|
    requires schema[i].name !in v.fields && schema[i].default.None?
    ensures Validate(schema, v).Err?
  {
    CheckFieldsSpec(schema, v.fields);
    assert CheckField(schema[i], v.fields).Err?;
  }

  /** A field the dict leaves out takes its declared default. */
  lemma AbsentFieldDefaults(schema: Schema, v: Value, i: nat)
    requires Validate(schema, v).Ok? && i < |schema| && FieldIndex(schema, schema[i].name) == i
    requires schema[i].name !in v.fields
    ensures schema[i].default.Some? && schema[i].name in Validate(schema, v).value
    ensures Validate(schema, v).value[schema[i].name] == schema[i].default.value
  {
    ValidatedField(schema, v, i);
  }

  /** A validated record holds exactly the input keys and the declared names. */
  lemma ValidatedKeys(schema: Schema, v: Value)
    requires Validate(schema, v).Ok?
    ensures Validate(schema, v).value.Keys == v.fields.Keys + Names(schema)
  {
    BuildKeys(schema, CheckFields(schema, v.fields).value, v.fields);
  }

  /** A required field that is not a record holds the input's own value. */
  lemma ValidatedKept(schema: Schema, v: Value, i: nat)
    requires Validate(schema, v).Ok? && i < |schema| && FieldIndex(schema, schema[i].name) == i
    requires !schema[i].ty.ModelType? && !schema[i].nullable && schema[i].default.None?
    ensures schema[i].name in v.fields && schema[i].name in Validate(schema, v).value
    ensures Validate(schema, v).value[schema[i].name] == v.fields[schema[i].name]
    ensures CheckValue(schema[i].name, schema[i].ty, v.fields[schema[i].name]).Ok?
  {
    ValidatedField(schema, v, i);
    CheckedKept(schema[i], v.fields);
  }

  /** A required field that checks and is not a record keeps the input's value. */
  lemma CheckedKept(f: Field, input: map<string, Value>)
    requires CheckField(f, input).Ok?
    requires !f.ty.ModelType? && !f.nullable && f.default.None?
    ensures f.name in input && CheckValue(f.name, f.ty, input[f.name]).Ok?
    ensures CheckField(f, input).value == input[f.name]
  {
  }

  /** A required record-typed field that checks holds the nested record, validated in turn. */
  lemma CheckedNested(f: Field, input: map<string, Value>)
    requires CheckField(f, input).Ok?
    requires f.ty.ModelType? && !f.nullable && f.default.None?
    ensures f.name in input && Validate(f.ty.fields, input[f.name]).Ok?
    ensures CheckField(f, input).value == Object(Validate(f.ty.fields, input[f.name]).value)
  {
  }

  /** A required field whose annotation is a record holds that record, validated in turn. */
  lemma ValidatedNested(schema: Schema, v: Value, i: nat)
    requires Validate(schema, v).Ok? && i < |schema| && FieldIndex(schema, schema[i].name) == i
    requires schema[i].ty.ModelType? && !schema[i].nullable && schema[i].default.None?
    ensures schema[i].name in v.fields
    ensures Validate(schema[i].ty.fields, v.fields[schema[i].name]).Ok?
    ensures schema[i].name in Validate(schema, v).value
    ensures Validate(schema, v).value[schema[i].name]
         == Object(Validate(schema[i].ty.fields, v.fields[schema[i].name]).value)
  {
    ValidatedField(schema, v, i);
    CheckedNested(schema[i], v.fields);
  }

  // ---------------------------------------------------------------------------
  // model_dump

  /** The first declaration of `k`, or -1 for an undeclared key. */
  function FieldIndex(schema: Schema, k: string): (i: int)
    ensures -1 <= i < |schema|
    ensures 0 <= i ==> schema[i].name == k && forall j | 0 <= j < i :: schema[j].name != k
    ensures i == -1 ==> k !in Names(schema)
    decreases schema
  {
    if schema == [] then -1
    else if schema[0].name == k then 0
    else
      var j := FieldIndex(schema[1..], k);
      assert forall m | 1 <= m < |schema| :: schema[m] == schema[1..][m - 1];
      if j < 0 then -1 else j + 1
  }

  /** A field is found at the first index that declares its name. */
  lemma {:induction false} FieldIndexAt(schema: Schema, i: nat)
    requires i < |schema| && forall j | 0 <= j < i :: schema[j].name != schema[i].name
    ensures FieldIndex(schema, schema[i].name) == i
    decreases i
  {
    if i > 0 {
      assert forall j | 0 <= j < i - 1 :: schema[1..][j] == schema[j + 1];
      FieldIndexAt(schema[1..], i - 1);
    }
  }

  /** A dumped value: a nested record is dumped by its own schema. */
  function DumpValue(ty: FieldType, x: Value, excludeNone: bool): Value
    decreases ty, 0
  {
    if ty.ModelType? && x.Object? then Object(DumpFields(ty.fields, x.fields, excludeNone)) else x
  }

  /** `model_dump` of a record; with `excludeNone`, `None` values are left out at every level. */
  function DumpFields(schema: Schema, rec: map<string, Value>, excludeNone: bool): (r: map<string, Value>)
    ensures r.Keys == set k | k in rec && !(excludeNone && rec[k] == Null)
    ensures excludeNone ==> forall k | k in r :: r[k] != Null
    decreases schema, 1
  {
    map k | k in rec && !(excludeNone && rec[k] == Null) ::
      var i := FieldIndex(schema, k);
      if i < 0 then rec[k] else DumpValue(schema[i].ty, rec[k], excludeNone)
  }

  /** `model_dump(include=keep, exclude=drop, by_alias, exclude_none)`; no field of
      the adapter's records declares an alias, so `by_alias` changes nothing. */
  function ModelDump(schema: Schema, rec: map<string, Value>, keep: Option<set<string>>,
                     drop: Option<set<string>>, byAlias: bool, excludeNone: bool): (r: map<string, Value>)
    ensures forall k | k in r :: k in rec && (keep.None? || k in keep.value)
                                 && (drop.None? || k !in drop.value)
    ensures forall k | k in rec :: k in r <==>
      && !(excludeNone && rec[k] == Null)
      && (keep.None? || k in keep.value)
      && (drop.None? || k !in drop.value)
  {
    var all := DumpFields(schema, rec, excludeNone);
    map k | k in all && (keep.None? || k in keep.value) && (drop.None? || k !in drop.value) :: all[k]
  }

  // ---------------------------------------------------------------------------
  // the round trip

  /** A schema whose defaults a dump can rely on: every nullable field
      defaults to `None`, every default is itself a valid value, and nested
      records follow the same rule. */
  predicate SchemaOk(schema: Schema)
    decreases schema, 1
  {
    && (forall i | 0 <= i < |schema| :: FieldIndex(schema, schema[i].name) == i)
    && forall i | 0 <= i < |schema| :: FieldDeclOk(schema[i])
  }

  predicate FieldDeclOk(f: Field)
    decreases f, 0
  {
    && (f.nullable ==> f.default == Some(Null))
    && (f.default.Some? && f.default.value != Null ==> CheckValue(f.name, f.ty, f.default.value) == Ok(f.default.value))
    && (f.ty.ModelType? ==> SchemaOk(f.ty.fields))
  }

  /** A record as validation leaves it, with no `None` among its undeclared keys. */
  predicate Canonical(schema: Schema, rec: map<string, Value>)
    decreases schema, 1
  {
    && (forall i | 0 <= i < |schema| :: schema[i].name in rec)
    && forall k | k in rec :: EntryOk(schema, k, rec[k])
  }

  predicate EntryOk(schema: Schema, k: string, x: Value)
    decreases schema, 0
  {
    var i := FieldIndex(schema, k);
    if i < 0 then x != Null
    else
      var f := schema[i];
      if x == Null then f.nullable
      else if f.ty.ModelType? then x.Object? && Canonical(f.ty.fields, x.fields)
      else CheckValue(k, f.ty, x) == Ok(x)
  }

  /** One declared field survives a dump: re-validating the dump yields the record's value. */
  lemma {:induction false} RoundTripField(schema: Schema, rec: map<string, Value>, i: nat)
    requires SchemaOk(schema) && Canonical(schema, rec) && i < |schema|
    ensures CheckField(schema[i], DumpFields(schema, rec, true)) == Ok(rec[schema[i].name])
    decreases schema, 0
  {
    var f, d := schema[i], DumpFields(schema, rec, true);
    var x := rec[f.name];
    assert FieldIndex(schema, f.name) == i;
    assert EntryOk(schema, f.name, x);
    assert FieldDeclOk(f);
    if x == Null {
      assert f.name !in d;
    } else {
      assert d[f.name] == DumpValue(f.ty, x, true);
      if f.ty.ModelType? {
        RoundTripRecord(f.ty.fields, x.fields);
      }
    }
  }

  /** `dict_` and validation are inverse on canonical records: validating
      the dump of a record gives back the record, its `None` fields restored
      from their defaults. */
  lemma {:induction false} RoundTripRecord(schema: Schema, rec: map<string, Value>)
    requires SchemaOk(schema) && Canonical(schema, rec)
    ensures CheckFields(schema, DumpFields(schema, rec, true)).Ok?
    ensures Build(schema, CheckFields(schema, DumpFields(schema, rec, true)).value, DumpFields(schema, rec, true)) == rec
    ensures Validate(schema, Object(DumpFields(schema, rec, true))) == Ok(rec)
    decreases schema, 1
  {
    var d := DumpFields(schema, rec, true);
    forall i | 0 <= i < |schema| ensures CheckField(schema[i], d) == Ok(rec[schema[i].name]) {
      RoundTripField(schema, rec, i);
    }
    CheckFieldsSpec(schema, d);
    RebuiltFromDump(schema, rec, CheckFields(schema, d).value);
  }

  /** Building from the dump with each declared field's own value restores the record. */
  lemma RebuiltFromDump(schema: Schema, rec: map<string, Value>, vals: seq<Value>)
    requires SchemaOk(schema) && Canonical(schema, rec)
    requires |vals| == |schema| && forall i | 0 <= i < |schema| :: vals[i] == rec[schema[i].name]
    ensures Build(schema, vals, DumpFields(schema, rec, true)) == rec
  {
    var d := DumpFields(schema, rec, true);
    var b := Build(schema, vals, d);
    BuildKeys(schema, vals, d);
    forall k | k in b ensures k in rec && b[k] == rec[k] {
      RebuiltEntry(schema, rec, vals, k);
    }
    forall k | k in rec ensures k in b {
      if FieldIndex(schema, k) < 0 {
        assert EntryOk(schema, k, rec[k]);
      }
    }
  }

  /** One key of the record rebuilt from its dump. */
  lemma RebuiltEntry(schema: Schema, rec: map<string, Value>, vals: seq<Value>, k: string)
    requires SchemaOk(schema) && Canonical(schema, rec)
    requires |vals| == |schema| && forall i | 0 <= i < |schema| :: vals[i] == rec[schema[i].name]
    requires k in Build(schema, vals, DumpFields(schema, rec, true))
    ensures k in rec && Build(schema, vals, DumpFields(schema, rec, true))[k] == rec[k]
  {
    var d := DumpFields(schema, rec, true);
    BuildKeys(schema, vals, d);
    var i := FieldIndex(schema, k);
    if i < 0 {
      assert EntryOk(schema, k, rec[k]);
    } else {
      BuildAt(schema, vals, d, i);
    }
  }

  /** No `None` anywhere in the declared structure of a dict: not among its
      keys, and not inside a nested record. */
  predicate NoneFree(schema: Schema, m: map<string, Value>)
    decreases schema
  {
    forall k | k in m ::
      && m[k] != Null
      && var i := FieldIndex(schema, k);
         (0 <= i && schema[i].ty.ModelType? && m[k].Object? ==> NoneFree(schema[i].ty.fields, m[k].fields))
  }

  /** A dump with `exclude_none` emits no `None` field, at any level of nesting. */
  lemma {:induction false} DumpExcludesNone(schema: Schema, rec: map<string, Value>)
    ensures NoneFree(schema, DumpFields(schema, rec, true))
    decreases schema
  {
    var d := DumpFields(schema, rec, true);
    forall k | k in d
      ensures var i := FieldIndex(schema, k);
        0 <= i && schema[i].ty.ModelType? && d[k].Object? ==> NoneFree(schema[i].ty.fields, d[k].fields)
    {
      var i := FieldIndex(schema, k);
      if 0 <= i && schema[i].ty.ModelType? && d[k].Object? {
        assert d[k] == DumpValue(schema[i].ty, rec[k], true);
        if rec[k].Object? {
          DumpExcludesNone(schema[i].ty.fields, rec[k].fields);
        }
      }
    }
  }
}
