/** The tool wrapper of tools/base_tools.py: a named function with an argument
    schema that is checked before the function is called. */
module Tools {
  import opened Values
  import opened Text

  /** What calling a function yields: its result (in `str()` form) or the
      message of the exception it raised. */
  datatype Outcome = Returned(value: string) | Raised(message: string)

  /** The schema entry of one argument, e.g. `{"type": "string", "required": true}`. */
  type ArgSpec = Dict<Value>

  /** Argument name to schema entry, in declaration order. */
  type Schema = Dict<ArgSpec>

  datatype Tool = Tool(
    name: string,
    description: string,
    run: Dict<Value> -> Outcome,
    argsSchema: Schema)

  function NameOf(tool: Tool): string {
    tool.name
  }

  /** `arg_schema.get("required", False)` is truthy. */
  predicate IsRequired(spec: ArgSpec) {
    var r := Get(spec, "required");
    r.Some? && Truthy(r.value)
  }

  /** `arg_schema.get("type")`. */
  function DeclaredType(spec: ArgSpec): Value {
    Get(spec, "type").GetOr(Null)
  }

  /** A value conforms to a declared type: `string` needs a `str`, `number`
      an `int` or `float` (a `bool` is an `int`), `boolean` a `bool`, `array`
      a `list`, `object` a `dict`; any other or missing type accepts anything. */
  predicate Conforms(t: Value, v: Value) {
    && (t == Str("string") ==> v.Str?)
    && (t == Str("number") ==> v.Int? || v.Float? || v.Bool?)
    && (t == Str("boolean") ==> v.Bool?)
    && (t == Str("array") ==> v.Array?)
    && (t == Str("object") ==> v.Object?)
  }

  /** The message of the `ValueError` raised for argument `name` holding `v`
      where type `t` is declared, or `None` when no error is raised. */
  function TypeError(name: string, t: Value, v: Value): (r: Option<string>)
    ensures r.None? <==> Conforms(t, v)
  {
    if t == Str("string") && !v.Str? then Some("Argument " + name + " must be a string")
    else if t == Str("number") && !(v.Int? || v.Float? || v.Bool?) then Some("Argument " + name + " must be a number")
    else if t == Str("boolean") && !v.Bool? then Some("Argument " + name + " must be a boolean")
    else if t == Str("array") && !v.Array? then Some("Argument " + name + " must be an array")
    else if t == Str("object") && !v.Object? then Some("Argument " + name + " must be an object")
    else None
  }

  /** Every required argument of the schema is present. */
  predicate RequiredPresent(schema: Schema, args: Dict<Value>) {
    forall i :: 0 <= i < |schema| && IsRequired(schema[i].1) ==> HasKey(args, schema[i].0)
  }

  /** The type declared for a schema argument (`Null` when undeclared). */
  function TypeOf(schema: Schema, name: string): Value {
    match Get(schema, name)
    case Some(spec) => DeclaredType(spec)
    case None => Null
  }

  /** The schema declares the argument and its value does not conform. */
  predicate Mistyped(schema: Schema, arg: (string, Value)) {
    HasKey(schema, arg.0) && !Conforms(TypeOf(schema, arg.0), arg.1)
  }

  /** Every argument that the schema declares conforms to its declared type. */
  predicate WellTyped(schema: Schema, args: Dict<Value>) {
    forall j :: 0 <= j < |args| ==> !Mistyped(schema, args[j])
  }

  /** The first schema entry, in schema order, that is required and absent. */
  function FirstMissing(schema: Schema, args: Dict<Value>): (r: Option<nat>)
    ensures r.None? <==> RequiredPresent(schema, args)
    ensures r.Some? ==> r.value < |schema| && IsRequired(schema[r.value].1) && !HasKey(args, schema[r.value].0)
    ensures r.Some? ==> forall i :: 0 <= i < r.value && IsRequired(schema[i].1) ==> HasKey(args, schema[i].0)
  {
    if schema == [] then None
    else if IsRequired(schema[0].1) && !HasKey(args, schema[0].0) then Some(0)
    else match FirstMissing(schema[1..], args)
      case None => None
      case Some(i) => Some(i + 1)
  }

  /** The first argument, in argument order, that the schema declares and
      that does not conform to its declared type. */
  function FirstMistyped(schema: Schema, args: Dict<Value>): (r: Option<nat>)
    ensures r.None? <==> WellTyped(schema, args)
    ensures r.Some? ==> r.value < |args| && Mistyped(schema, args[r.value])
    ensures r.Some? ==> forall j :: 0 <= j < r.value ==> !Mistyped(schema, args[j])
  {
    if args == [] then None
    else if Mistyped(schema, args[0]) then Some(0)
    else match FirstMistyped(schema, args[1..])
      case None => None
      case Some(j) => Some(j + 1)
  }

  /** `Tool._validate_args`: the message of the `ValueError` it raises, or
      `None` when the arguments are accepted. Required arguments are checked
      first, in schema order; then argument types, in argument order. */
  function Validate(schema: Schema, args: Dict<Value>): Option<string> {
    if schema == [] then None
    else match FirstMissing(schema, args)
      case Some(i) => Some("Missing required argument: " + schema[i].0)
      case None =>
        match FirstMistyped(schema, args)
        case Some(j) => TypeError(args[j].0, TypeOf(schema, args[j].0), args[j].1)
        case None => None
  }

  /** `Tool.__call__`: validate, then call the wrapped function once. */
  function Call(tool: Tool, args: Dict<Value>): Outcome {
    match Validate(tool.argsSchema, args)
    case Some(message) => Raised(message)
    case None => tool.run(args)
  }

  /** Arguments are accepted exactly when the schema is empty, or every
      required argument is present and every declared argument has its type. */
  lemma ValidateAccepts(schema: Schema, args: Dict<Value>)
    ensures Validate(schema, args).None? <==> schema == [] || (RequiredPresent(schema, args) && WellTyped(schema, args))
  {
    if schema != [] && RequiredPresent(schema, args) {
      match FirstMistyped(schema, args)
      case Some(j) => assert TypeError(args[j].0, TypeOf(schema, args[j].0), args[j].1).Some?;
      case None =>
    }
  }

  /** Accepted arguments reach the wrapped function unchanged, and its
      outcome is returned unchanged. */
  lemma AcceptedCallsFunction(tool: Tool, args: Dict<Value>)
    requires tool.argsSchema == [] || (RequiredPresent(tool.argsSchema, args) && WellTyped(tool.argsSchema, args))
    ensures Call(tool, args) == tool.run(args)
  {
    ValidateAccepts(tool.argsSchema, args);
  }

  /** A missing required argument raises `ValueError` naming the first such
      argument of the schema, whatever the wrapped function would do. */
  lemma MissingRequiredRaises(tool: Tool, args: Dict<Value>, i: nat, other: Dict<Value> -> Outcome)
    requires i < |tool.argsSchema| && IsRequired(tool.argsSchema[i].1) && !HasKey(args, tool.argsSchema[i].0)
    ensures var k := FirstMissing(tool.argsSchema, args);
            k.Some? && k.value <= i
            && Call(tool, args) == Raised("Missing required argument: " + tool.argsSchema[k.value].0)
    ensures Call(tool.(run := other), args) == Call(tool, args)
  {
  }

  /** With every required argument present, the first declared argument of
      the wrong type raises `ValueError`, whatever the wrapped function would do. */
  lemma MistypedRaises(tool: Tool, args: Dict<Value>, j: nat, other: Dict<Value> -> Outcome)
    requires RequiredPresent(tool.argsSchema, args)
    requires j < |args| && Mistyped(tool.argsSchema, args[j])
    ensures var k := FirstMistyped(tool.argsSchema, args);
            k.Some? && k.value <= j
            && Call(tool, args) == Raised(TypeError(args[k.value].0, TypeOf(tool.argsSchema, args[k.value].0), args[k.value].1).value)
    ensures Call(tool.(run := other), args) == Call(tool, args)
  {
    assert tool.argsSchema != [];
  }

  /** The arguments that the schema declares, in argument order. */
  function Declared(schema: Schema, args: Dict<Value>): (r: Dict<Value>)
    ensures forall j :: 0 <= j < |r| ==> HasKey(schema, r[j].0)
  {
    if args == [] then []
    else if HasKey(schema, args[0].0) then [args[0]] + Declared(schema, args[1..])
    else Declared(schema, args[1..])
  }

  /** Dropping the undeclared arguments keeps exactly the declared keys. */
  lemma {:induction false} DeclaredKeys(schema: Schema, args: Dict<Value>, name: string)
    requires HasKey(schema, name)
    ensures HasKey(Declared(schema, args), name) <==> HasKey(args, name)
  {
    if args != [] {
      var d, e := Declared(schema, args), Declared(schema, args[1..]);
      DeclaredKeys(schema, args[1..], name);
      HasKeyCons(args, name);
      if HasKey(schema, args[0].0) {
        assert d == [args[0]] + e;
        HasKeyCons(d, name);
        assert d[1..] == e;
      } else {
        assert d == e;
      }
    }
  }

  /** The entry of the first mistyped argument, if any. */
  function MistypedEntry(schema: Schema, args: Dict<Value>): Option<(string, Value)> {
    match FirstMistyped(schema, args)
    case Some(j) => Some(args[j])
    case None => None
  }

  /** The first mistyped argument is the first mistyped declared argument. */
  lemma {:induction false} DeclaredMistyped(schema: Schema, args: Dict<Value>)
    ensures MistypedEntry(schema, args) == MistypedEntry(schema, Declared(schema, args))
  {
    if args != [] {
      var d, e := Declared(schema, args), Declared(schema, args[1..]);
      DeclaredMistyped(schema, args[1..]);
      if Mistyped(schema, args[0]) {
        assert d == [args[0]] + e;
        assert d[0] == args[0];
      } else if HasKey(schema, args[0].0) {
        assert d == [args[0]] + e;
        assert d[1..] == e;
        ShiftedEntry(schema, args);
        ShiftedEntry(schema, d);
      } else {
        assert d == e;
        ShiftedEntry(schema, args);
      }
    }
  }

  /** Past a conforming or undeclared first argument, the search moves on. */
  lemma ShiftedEntry(schema: Schema, args: Dict<Value>)
    requires args != []
    requires !Mistyped(schema, args[0])
    ensures MistypedEntry(schema, args) == MistypedEntry(schema, args[1..])
  {
    match FirstMistyped(schema, args[1..])
    case Some(j) => assert args[j + 1] == args[1..][j];
    case None =>
  }

  /** Arguments that the schema does not declare never affect validation. */
  lemma UndeclaredIgnored(schema: Schema, args: Dict<Value>)
    ensures Validate(schema, args) == Validate(schema, Declared(schema, args))
  {
    var d := Declared(schema, args);
    forall i | 0 <= i < |schema|
      ensures HasKey(d, schema[i].0) <==> HasKey(args, schema[i].0)
    {
      assert HasKey(schema, schema[i].0);
      DeclaredKeys(schema, args, schema[i].0);
    }
    FirstMissingSameKeys(schema, args, d);
    DeclaredMistyped(schema, args);
  }

  /** The first missing argument depends only on which schema keys are present. */
  lemma {:induction false} FirstMissingSameKeys(schema: Schema, a: Dict<Value>, b: Dict<Value>)
    requires forall i :: 0 <= i < |schema| ==> (HasKey(a, schema[i].0) <==> HasKey(b, schema[i].0))
    ensures FirstMissing(schema, a) == FirstMissing(schema, b)
  {
    if schema != [] {
      FirstMissingSameKeys(schema[1..], a, b);
    }
  }

  /** `Tool.get_schema` as a dictionary. */
  function SchemaValue(schema: Schema): (v: Value)
    ensures v.Object? && |v.fields| == |schema|
    ensures forall i :: 0 <= i < |schema| ==> v.fields[i] == (schema[i].0, Object(schema[i].1))
  {
    Object(seq(|schema|, i requires 0 <= i < |schema| => (schema[i].0, Object(schema[i].1))))
  }

  /** `Tool.get_schema`: exactly the tool's name, description and argument schema. */
  function GetSchema(tool: Tool): (r: Dict<Value>)
    ensures UniqueKeys(r) && |r| == 3
    ensures Get(r, "name") == Some(Str(tool.name))
    ensures Get(r, "description") == Some(Str(tool.description))
    ensures Get(r, "args_schema") == Some(SchemaValue(tool.argsSchema))
  {
    var r := [("name", Str(tool.name)), ("description", Str(tool.description)), ("args_schema", SchemaValue(tool.argsSchema))];
    assert r[0].0 != "description" && r[0].0 != "args_schema" && r[1].0 != "args_schema";
    assert IndexOf(r[1..][1..], "args_schema") == Some(0);
    assert IndexOf(r, "args_schema") == Some(2);
    r
  }
}
