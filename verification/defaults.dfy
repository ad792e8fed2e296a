/** `create_default_response`: the placeholder a schema gets when no answer could be obtained.
    A pydantic model class is described by its ordered fields; constructing the model from keyword
    arguments (`model_class(**values)`) is the parameter `validate`, which yields `None` where
    pydantic would raise. */
module Defaults {
  import opened Wrappers
  import opened Json

  /** What `create_default_response` distinguishes about a field's annotation, in the order it
      tests them: `str`, `float`, `int`, a generic whose origin is `dict`, any other annotation that
      carries type arguments (a `Literal[...]`, whose arguments are its allowed values), and
      anything else. */
  datatype Kind =
    | StrKind
    | FloatKind
    | IntKind
    | DictKind
    | ArgsKind(first: Json, rest: seq<Json>)
    | OtherKind

  datatype Field = Field(name: string, kind: Kind)

  /** A model instance pydantic accepted, as its field values. */
  datatype Instance = Instance(fields: map<string, Json>)

  /** A model class's fields come from a dictionary, so their names are distinct. */
  predicate DistinctNames(schema: seq<Field>) {
    forall i, j :: 0 <= i < j < |schema| ==> schema[i].name != schema[j].name
  }

  function Names(schema: seq<Field>): set<string> {
    set f | f in schema :: f.name
  }

  /** The sentinel a string field carries when the analysis could not be obtained. */
  const ErrorSentinel: string := "Error in analysis, using default"

  /** A value of the kind a field declares; a field of no recognised kind holds `None`. */
  predicate Conforms(v: Json, k: Kind) {
    match k
    case StrKind => v.Str?
    case FloatKind => v.Float?
    case IntKind => v.Int?
    case DictKind => v.Obj?
    case ArgsKind(first, rest) => v in [first] + rest
    case OtherKind => v.Null?
  }

  /** The placeholder for one field. */
  function DefaultFor(k: Kind): (v: Json)
    ensures Conforms(v, k)
    ensures k.StrKind? ==> v == Str(ErrorSentinel)
    ensures k.FloatKind? || k.IntKind? || k.DictKind? ==> !Truthy(v)
    ensures k.ArgsKind? ==> v == k.first
    ensures k.OtherKind? ==> v == Null
  {
    match k
    case StrKind => Str(ErrorSentinel)
    case FloatKind => Float(0.0)
    case IntKind => Int(0)
    case DictKind => Obj(map[])
    case ArgsKind(first, _) => first
    case OtherKind => Null
  }

  /** The keyword arguments `create_default_response` builds, field by field in schema order:
      exactly the schema's names, each bound to its kind's placeholder. */
  function DefaultTable(schema: seq<Field>): (m: map<string, Json>)
    requires DistinctNames(schema)
    ensures m.Keys == Names(schema)
    ensures forall i :: 0 <= i < |schema| ==> m[schema[i].name] == DefaultFor(schema[i].kind)
  {
    if schema == [] then map[]
    else
      var init := schema[..|schema| - 1];
      var last := schema[|schema| - 1];
      assert forall i :: 0 <= i < |init| ==> init[i] == schema[i];
      assert schema == init + [last];
      DefaultTable(init)[last.name := DefaultFor(last.kind)]
  }

  /** The loop that fills the `default_values` dictionary. */
  method DefaultValues(schema: seq<Field>) returns (values: map<string, Json>)
    requires DistinctNames(schema)
    ensures values == DefaultTable(schema)
  {
    values := map[];
    var i := 0;
    while i < |schema|
      invariant 0 <= i <= |schema|
      invariant values == DefaultTable(schema[..i])
    {
      assert schema[..i + 1][..i] == schema[..i];
      values := values[schema[i].name := DefaultFor(schema[i].kind)];
      i := i + 1;
    }
    assert schema[..i] == schema;
  }

  /** `create_default_response(model_class)`: the model built from the placeholders, or `None`
      where pydantic rejects them. */
  method CreateDefaultResponse(schema: seq<Field>, validate: map<string, Json> -> Option<Instance>)
    returns (r: Option<Instance>)
    requires DistinctNames(schema)
    ensures r == validate(DefaultTable(schema))
  {
    var values := DefaultValues(schema);
    r := validate(values);
  }
}
