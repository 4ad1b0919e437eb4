/** The function-to-tool-schema compiler (`convert_function_to_function_schema`):
    walks a callable's parameters in order, normalises each annotation,
    decides whether the field is required and what its default is, attaches
    the docstring description, and wraps the resulting field map in the
    fixed `{"type": "function", "function": {...}}` envelope.

    `SchemaOf` is the specification; `ConvertFunctionToFunctionSchema` is
    the step-by-step procedure of the source, proved equal to it. */
module FunctionSchema {
  import opened Common
  import opened PyTypes
  import Dicts
  import FuncDocumentation

  /** `inspect.Parameter.kind` */
  datatype ParamKind = PositionalOnly | PositionalOrKeyword | VarPositional | KeywordOnly | VarKeyword

  /** One entry of `inspect.signature(func).parameters`. An absent
      annotation or default (`inspect.Parameter.empty`) is `None`. */
  datatype Parameter = Parameter(
    name: string,
    kind: ParamKind,
    annotation: Option<Ty>,
    defaultValue: Option<Value>)

  /** What introspection yields for a callable: `__name__`, its docstring,
      its parameters in declaration order, and `get_type_hints(func)`. */
  datatype Callable = Callable(
    name: string,
    doc: FuncDocumentation.Docstring,
    params: seq<Parameter>,
    hints: map<string, Ty>)

  /** The zero-argument constructor given as `default_factory`. */
  datatype Factory = ListFactory | DictFactory

  /** `Field(...)` (required), `Field(default=v)` or `Field(default_factory=f)`. */
  datatype FieldDefault = Required | Default(value: Value) | DefaultFactory(factory: Factory)

  /** One field of the generated model, standing for its JSON-schema
      fragment: the field's type, its default and its description. */
  datatype FieldSpec = FieldSpec(ty: Ty, fieldDefault: FieldDefault, description: Option<string>)

  /** `{"type": "object", "properties": ..., "required": [...]}` */
  datatype ParametersSchema = ParametersSchema(
    typeTag: string,
    properties: Dicts.Dict<string, FieldSpec>,
    required: seq<string>)

  /** `{"name": ..., "description": ..., "parameters": ...}` */
  datatype FunctionSpec = FunctionSpec(name: string, description: Option<string>, parameters: ParametersSchema)

  /** `{"type": "function", "function": ...}` */
  datatype ToolSchema = ToolSchema(typeTag: string, fn: FunctionSpec)

  /** The value a factory produces. */
  function Produce(f: Factory): Value {
    match f
    case ListFactory => ListValue([])
    case DictFactory => DictValue(map[])
  }

  predicate IsVariadic(kind: ParamKind) {
    kind == VarPositional || kind == VarKeyword
  }

  /** `type_hints.get(name, param.annotation)`: the evaluated hint wins over
      the raw annotation. */
  function ResolvedAnnotation(p: Parameter, hints: map<string, Ty>): Option<Ty> {
    if p.name in hints then Some(hints[p.name]) else p.annotation
  }

  /** The declared type with a missing annotation replaced by `Any`. */
  function DeclaredType(p: Parameter, hints: map<string, Ty>): Ty {
    ResolvedAnnotation(p, hints).GetOr(AnyTy)
  }

  /** The type of a `*args` field: always a one-argument `list`. */
  function VarPositionalType(ann: Ty): (t: Ty)
    ensures t.Origin() == Some(ListOrigin) && |t.Args()| == 1
  {
    if ann.Origin() == Some(TupleOrigin) then
      var argsOfTuple := ann.Args();
      if |argsOfTuple| == 2 && argsOfTuple[1] == EllipsisTy then ListOf(argsOfTuple[0]) else ListOf(AnyTy)
    else
      ListOf(ann)
  }

  /** The type of a `**kwargs` field: always a two-argument `dict`. */
  function VarKeywordType(ann: Ty): (t: Ty)
    ensures t.Origin() == Some(DictOrigin) && |t.Args()| == 2
  {
    if ann.Origin() == Some(DictOrigin) then
      var dictArgs := ann.Args();
      if |dictArgs| == 2 then DictOf(dictArgs[0], dictArgs[1]) else DictOf(StrTy, AnyTy)
    else
      DictOf(StrTy, ann)
  }

  /** The field the per-parameter loop stores for one parameter: required
      exactly for a normal parameter without a default, typed by the declared
      type unless variadic, and described by `param_desc.get(name, None)`. */
  function FieldFor(p: Parameter, hints: map<string, Ty>, descriptions: Dicts.Dict<string, string>): (r: FieldSpec)
    ensures r.fieldDefault == Required <==> !IsVariadic(p.kind) && p.defaultValue == None
    ensures !IsVariadic(p.kind) ==> r.ty == DeclaredType(p, hints)
    ensures r.description.Some? <==> p.name in descriptions.values
    ensures r.description.Some? ==> r.description.value == descriptions.values[p.name]
  {
    var ann := DeclaredType(p, hints);
    var description := descriptions.Get(p.name);
    match p.kind
    case VarPositional => FieldSpec(VarPositionalType(ann), DefaultFactory(ListFactory), description)
    case VarKeyword => FieldSpec(VarKeywordType(ann), DefaultFactory(DictFactory), description)
    case _ =>
      if p.defaultValue == None then FieldSpec(ann, Required, description)
      else FieldSpec(ann, Default(p.defaultValue.value), description)
  }

  function Names(ps: seq<Parameter>): seq<string> {
    seq(|ps|, i requires 0 <= i < |ps| => ps[i].name)
  }

  /** The `fields[name] = ...` assignments, in loop order. */
  function FieldPairs(ps: seq<Parameter>, hints: map<string, Ty>, descriptions: Dicts.Dict<string, string>)
    : seq<(string, FieldSpec)>
  {
    seq(|ps|, i requires 0 <= i < |ps| => (ps[i].name, FieldFor(ps[i], hints, descriptions)))
  }

  /** The names of the required fields, in field order: a selection from
      `names`, in the same order and, for distinct names, without repeats. */
  function RequiredNames(names: seq<string>, fields: map<string, FieldSpec>): (r: seq<string>)
    ensures forall k :: k in r <==> k in names && k in fields && fields[k].fieldDefault == Required
    ensures |r| <= |names|
    ensures Dicts.InOrderOf(r, names)
    ensures Dicts.Distinct(names) ==> Dicts.Distinct(r)
  {
    if names == [] then []
    else
      var rest := RequiredNames(names[1..], fields);
      Dicts.ConsInOrder(names, rest);
      if names[0] in fields && fields[names[0]].fieldDefault == Required then [names[0]] + rest else rest
  }

  /** The schema generated from the field map: an object whose properties
      are the fields, and whose `required` lists the fields without a default,
      each once, in field order. */
  function ModelJsonSchema(fields: Dicts.Dict<string, FieldSpec>): (r: ParametersSchema)
    ensures r.typeTag == "object" && r.properties == fields
    ensures forall n :: n in r.required <==>
      n in fields.keys && fields.Get(n).Some? && fields.Get(n).value.fieldDefault == Required
    ensures fields.Valid() ==> Dicts.Distinct(r.required) && Dicts.InOrderOf(r.required, fields.keys)
  {
    ParametersSchema("object", fields, RequiredNames(fields.keys, fields.values))
  }

  /** The schema the compiler produces for `f`: the fixed envelope around
      one property per parameter name. */
  function SchemaOf(f: Callable): (r: ToolSchema)
    ensures r.typeTag == "function" && r.fn.parameters.typeTag == "object"
    ensures r.fn.name == f.name
    ensures r.fn.parameters.properties.Valid()
    ensures forall n :: n in r.fn.parameters.properties.values <==> n in Names(f.params)
  {
    var docInfo := FuncDocumentation.GenerateFuncDocumentation(f.name, f.doc);
    var pairs := FieldPairs(f.params, f.hints, ParamDescriptionsOf(f));
    assert Dicts.Firsts(pairs) == Names(f.params);
    var fields := Dicts.FromPairs(pairs);
    ToolSchema("function", FunctionSpec(docInfo.name, docInfo.description, ModelJsonSchema(fields)))
  }

  /** The descriptions the fields are annotated with. */
  function ParamDescriptionsOf(f: Callable): Dicts.Dict<string, string> {
    FuncDocumentation.GenerateFuncDocumentation(f.name, f.doc).paramDescriptions.GetOr(Dicts.Empty())
  }

  /** One more loop iteration assigns one more field. */
  lemma FieldPairsStep(ps: seq<Parameter>, j: nat, hints: map<string, Ty>, descriptions: Dicts.Dict<string, string>)
    requires j < |ps|
    ensures Dicts.FromPairs(FieldPairs(ps[..j + 1], hints, descriptions))
         == Dicts.FromPairs(FieldPairs(ps[..j], hints, descriptions)).Set(ps[j].name, FieldFor(ps[j], hints, descriptions))
  {
    var pairs := FieldPairs(ps[..j + 1], hints, descriptions);
    assert pairs[..j] == FieldPairs(ps[..j], hints, descriptions);
  }

  /** The first pass over the signature: copies the parameters, first one
      and then the rest. The annotation lookups of that pass are dead and
      are not modelled. */
  method CollectParameters(params: seq<Parameter>) returns (filtered: seq<Parameter>)
    ensures filtered == params
  {
    filtered := [];
    if |params| > 0 {
      filtered := filtered + [params[0]];
    }
    var i := 1;
    while i < |params|
      invariant 1 <= i
      invariant |params| > 0 ==> i <= |params| && filtered == params[..i]
      invariant |params| == 0 ==> filtered == []
    {
      filtered := filtered + [params[i]];
      i := i + 1;
    }
  }

  /** The body of the per-parameter loop: resolve the annotation, replace
      a missing one by `Any`, normalise variadic annotations, and decide the
      field's default and description. */
  method ParameterField(p: Parameter, hints: map<string, Ty>, paramDesc: Dicts.Dict<string, string>)
    returns (field: FieldSpec)
    ensures field == FieldFor(p, hints, paramDesc)
  {
    var ann := if p.name in hints then Some(hints[p.name]) else p.annotation;
    var ty := if ann == None then AnyTy else ann.value;
    var fieldDescription := paramDesc.Get(p.name);
    if p.kind == VarPositional {
      if ty.Origin() == Some(TupleOrigin) {
        var argsOfTuple := ty.Args();
        ty := if |argsOfTuple| == 2 && argsOfTuple[1] == EllipsisTy then ListOf(argsOfTuple[0]) else ListOf(AnyTy);
      } else {
        ty := ListOf(ty);
      }
      field := FieldSpec(ty, DefaultFactory(ListFactory), fieldDescription);
    } else if p.kind == VarKeyword {
      if ty.Origin() == Some(DictOrigin) {
        var dictArgs := ty.Args();
        ty := if |dictArgs| == 2 then DictOf(dictArgs[0], dictArgs[1]) else DictOf(StrTy, AnyTy);
      } else {
        ty := DictOf(StrTy, ty);
      }
      field := FieldSpec(ty, DefaultFactory(DictFactory), fieldDescription);
    } else if p.defaultValue == None {
      field := FieldSpec(ty, Required, fieldDescription);
    } else {
      field := FieldSpec(ty, Default(p.defaultValue.value), fieldDescription);
    }
  }

  /** The per-parameter loop: fills the field map, one `fields[name] = ...`
      per parameter, in order. */
  method BuildFields(filtered: seq<Parameter>, hints: map<string, Ty>, paramDesc: Dicts.Dict<string, string>)
    returns (fields: Dicts.Dict<string, FieldSpec>)
    ensures fields == Dicts.FromPairs(FieldPairs(filtered, hints, paramDesc))
  {
    fields := Dicts.Empty();
    for j := 0 to |filtered|
      invariant fields == Dicts.FromPairs(FieldPairs(filtered[..j], hints, paramDesc))
    {
      var p := filtered[j];
      var field := ParameterField(p, hints, paramDesc);
      FieldPairsStep(filtered, j, hints, paramDesc);
      fields := fields.Set(p.name, field);
    }
    assert filtered[..|filtered|] == filtered;
  }

  /** `convert_function_to_function_schema`. */
  method ConvertFunctionToFunctionSchema(f: Callable) returns (schema: ToolSchema)
    ensures schema == SchemaOf(f)
  {
    var docInfo := FuncDocumentation.GenerateFuncDocumentation(f.name, f.doc);
    var paramDesc := docInfo.paramDescriptions.GetOr(Dicts.Empty());
    var funcName := docInfo.name;
    var filtered := CollectParameters(f.params);
    var fields := BuildFields(filtered, f.hints, paramDesc);
    schema := ToolSchema("function", FunctionSpec(funcName, docInfo.description, ModelJsonSchema(fields)));
  }

  /* ---------------------------------------------------------------------
     Properties of the schema
     --------------------------------------------------------------------- */

  /** The envelope: `type` is "function", the name is the callable's
      `__name__`, `parameters.type` is "object", and the description is the
      docstring summary (absent without a docstring). */
  lemma SchemaEnvelope(f: Callable)
    ensures SchemaOf(f).typeTag == "function"
    ensures SchemaOf(f).fn.name == f.name
    ensures SchemaOf(f).fn.parameters.typeTag == "object"
    ensures SchemaOf(f).fn.description
         == if FuncDocumentation.IsMissing(f.doc) then None else FuncDocumentation.FirstText(f.doc.parsed)
  {
  }

  lemma FirstsOfFieldPairs(ps: seq<Parameter>, hints: map<string, Ty>, descriptions: Dicts.Dict<string, string>)
    ensures Dicts.Firsts(FieldPairs(ps, hints, descriptions)) == Names(ps)
  {
  }

  /** The properties are exactly the parameter names, each listed once;
      with distinct names (as every Python signature has) they are listed
      in declaration order. */
  lemma PropertiesAreParameters(f: Callable)
    ensures SchemaOf(f).fn.parameters.properties.Valid()
    ensures forall n :: n in SchemaOf(f).fn.parameters.properties.values <==> n in Names(f.params)
    ensures Dicts.Distinct(Names(f.params)) ==> SchemaOf(f).fn.parameters.properties.keys == Names(f.params)
  {
    FirstsOfFieldPairs(f.params, f.hints, ParamDescriptionsOf(f));
    if Dicts.Distinct(Names(f.params)) {
      Dicts.FromPairsKeyOrder(FieldPairs(f.params, f.hints, ParamDescriptionsOf(f)));
    }
  }

  /** The property stored for a parameter is the field built from that
      parameter (from the last one, should a name repeat). */
  lemma PropertyOfParameter(f: Callable, i: nat)
    requires i < |f.params|
    requires forall j | i < j < |f.params| :: f.params[j].name != f.params[i].name
    ensures SchemaOf(f).fn.parameters.properties.Get(f.params[i].name)
         == Some(FieldFor(f.params[i], f.hints, ParamDescriptionsOf(f)))
  {
    Dicts.FromPairsLastWins(FieldPairs(f.params, f.hints, ParamDescriptionsOf(f)), i);
  }

  /** `required` names exactly the properties whose field has no default. */
  lemma RequiredAreProperties(f: Callable, n: string)
    ensures n in SchemaOf(f).fn.parameters.required <==>
      SchemaOf(f).fn.parameters.properties.Get(n).Some? &&
      SchemaOf(f).fn.parameters.properties.Get(n).value.fieldDefault == Required
  {
  }

  /** A parameter's name is in `required` exactly when it is a normal
      parameter without a default. */
  lemma RequiredIffNoDefault(f: Callable, i: nat)
    requires i < |f.params|
    requires forall j | i < j < |f.params| :: f.params[j].name != f.params[i].name
    ensures f.params[i].name in SchemaOf(f).fn.parameters.required <==>
      !IsVariadic(f.params[i].kind) && f.params[i].defaultValue == None
  {
    PropertyOfParameter(f, i);
    RequiredAreProperties(f, f.params[i].name);
  }

  /** With distinct parameter names, `required` lists the names of the normal
      parameters without a default, each once, in declaration order. */
  lemma RequiredInDeclarationOrder(f: Callable)
    requires Dicts.Distinct(Names(f.params))
    ensures Dicts.Distinct(SchemaOf(f).fn.parameters.required)
    ensures Dicts.InOrderOf(SchemaOf(f).fn.parameters.required, Names(f.params))
    ensures forall i | 0 <= i < |f.params| ::
      f.params[i].name in SchemaOf(f).fn.parameters.required <==>
      !IsVariadic(f.params[i].kind) && f.params[i].defaultValue == None
  {
    PropertiesAreParameters(f);
    forall i | 0 <= i < |f.params|
      ensures f.params[i].name in SchemaOf(f).fn.parameters.required <==>
        !IsVariadic(f.params[i].kind) && f.params[i].defaultValue == None
    {
      assert forall j | i < j < |f.params| :: Names(f.params)[j] == f.params[j].name;
      assert Names(f.params)[i] == f.params[i].name;
      RequiredIffNoDefault(f, i);
    }
  }

  /** A callable without parameters gets no properties and no required names. */
  lemma NoParameters(f: Callable)
    requires f.params == []
    ensures SchemaOf(f).fn.parameters.properties.keys == []
    ensures SchemaOf(f).fn.parameters.required == []
  {
  }

  /** Variadic fields are never required; `*args` defaults to an empty list
      and `**kwargs` to an empty dict. */
  lemma VariadicFieldsOptional(p: Parameter, hints: map<string, Ty>, descriptions: Dicts.Dict<string, string>)
    requires IsVariadic(p.kind)
    ensures FieldFor(p, hints, descriptions).fieldDefault != Required
    ensures p.kind == VarPositional ==>
      FieldFor(p, hints, descriptions).fieldDefault.DefaultFactory? &&
      Produce(FieldFor(p, hints, descriptions).fieldDefault.factory) == ListValue([])
    ensures p.kind == VarKeyword ==>
      FieldFor(p, hints, descriptions).fieldDefault.DefaultFactory? &&
      Produce(FieldFor(p, hints, descriptions).fieldDefault.factory) == DictValue(map[])
  {
  }

  /** A normal parameter keeps its declared type; it is required iff it has
      no default, and otherwise its declared default is recorded unchanged. */
  lemma NormalFieldDefault(p: Parameter, hints: map<string, Ty>, descriptions: Dicts.Dict<string, string>)
    requires !IsVariadic(p.kind)
    ensures FieldFor(p, hints, descriptions).ty == DeclaredType(p, hints)
    ensures FieldFor(p, hints, descriptions).fieldDefault == Required <==> p.defaultValue == None
    ensures p.defaultValue.Some? ==> FieldFor(p, hints, descriptions).fieldDefault == Default(p.defaultValue.value)
  {
  }

  /** A `*args` field's type is the `*args` normalisation of the declared
      type, and a `**kwargs` field's type the `**kwargs` one. */
  lemma VariadicFieldType(p: Parameter, hints: map<string, Ty>, descriptions: Dicts.Dict<string, string>)
    ensures p.kind == VarPositional ==> FieldFor(p, hints, descriptions).ty == VarPositionalType(DeclaredType(p, hints))
    ensures p.kind == VarKeyword ==> FieldFor(p, hints, descriptions).ty == VarKeywordType(DeclaredType(p, hints))
  {
  }

  /** A missing annotation becomes `Any` before any variadic wrapping. */
  lemma MissingAnnotationIsAny(p: Parameter, hints: map<string, Ty>, descriptions: Dicts.Dict<string, string>)
    requires p.name !in hints && p.annotation == None
    ensures p.kind == VarPositional ==> FieldFor(p, hints, descriptions).ty == ListOf(AnyTy)
    ensures p.kind == VarKeyword ==> FieldFor(p, hints, descriptions).ty == DictOf(StrTy, AnyTy)
    ensures !IsVariadic(p.kind) ==> FieldFor(p, hints, descriptions).ty == AnyTy
  {
  }

  /** `*args` normalisation: `tuple[X, ...]` becomes `list[X]`, any other
      tuple shape `list[Any]`, and any other annotation `T` becomes `list[T]`. */
  lemma VarPositionalNormalisation(x: Ty, y: Ty, args: seq<Ty>, t: Ty)
    ensures VarPositionalType(TupleOf([x, EllipsisTy])) == ListOf(x)
    ensures y != EllipsisTy ==> VarPositionalType(TupleOf([x, y])) == ListOf(AnyTy)
    ensures |args| != 2 ==> VarPositionalType(TupleOf(args)) == ListOf(AnyTy)
    ensures t.Origin() != Some(TupleOrigin) ==> VarPositionalType(t) == ListOf(t)
  {
  }

  /** `**kwargs` normalisation: `dict[K, V]` stays `dict[K, V]`, a `dict`
      origin with another number of arguments becomes `dict[str, Any]`, and
      any other annotation `T` becomes `dict[str, T]`. */
  lemma VarKeywordNormalisation(k: Ty, v: Ty, args: seq<Ty>, t: Ty)
    ensures VarKeywordType(DictOf(k, v)) == DictOf(k, v)
    ensures |args| != 2 ==> VarKeywordType(GenericTy(DictOrigin, args)) == DictOf(StrTy, AnyTy)
    ensures t.Origin() != Some(DictOrigin) ==> VarKeywordType(t) == DictOf(StrTy, t)
  {
  }

  /** A parameter's field carries the docstring's description of that name,
      and none when the docstring does not describe it or is missing. */
  lemma DescriptionPropagation(f: Callable, i: nat)
    requires i < |f.params|
    requires forall j | i < j < |f.params| :: f.params[j].name != f.params[i].name
    ensures var field := SchemaOf(f).fn.parameters.properties.Get(f.params[i].name);
      field.Some? &&
      field.value.description ==
        if FuncDocumentation.IsMissing(f.doc) then None
        else FuncDocumentation.ParamDescriptions(f.doc.parsed).Get(f.params[i].name)
  {
    PropertyOfParameter(f, i);
  }

  /** `add(a: int, b: int = 0)`, documented "Adds two numbers." with an
      `Args:` section `a: first`, `b: second`. */
  function AddCallable(): Callable {
    var intTy := ClassTy("int");
    var doc := FuncDocumentation.Docstring(
      Some("Adds two numbers.\n\nArgs:\n  a: first\n  b: second"),
      [FuncDocumentation.TextSection("Adds two numbers."),
       FuncDocumentation.ParametersSection([FuncDocumentation.DocParam("a", "first"),
                                            FuncDocumentation.DocParam("b", "second")])]);
    Callable("add", doc,
      [Parameter("a", PositionalOrKeyword, Some(intTy), None),
       Parameter("b", PositionalOrKeyword, Some(intTy), Some(IntValue(0)))],
      map["a" := intTy, "b" := intTy])
  }

  lemma AddParamDescriptions()
    ensures FuncDocumentation.ParamDescriptions(AddCallable().doc.parsed)
         == Dicts.Dict(["a", "b"], map["a" := "first", "b" := "second"])
  {
    var parsed := AddCallable().doc.parsed;
    var entries := [FuncDocumentation.DocParam("a", "first"), FuncDocumentation.DocParam("b", "second")];
    assert FuncDocumentation.DocParams(parsed[1..]) == entries + FuncDocumentation.DocParams(parsed[2..]);
    assert FuncDocumentation.DocParams(parsed) == entries;
    var descPairs := FuncDocumentation.DescriptionPairs(entries);
    assert descPairs == [("a", "first"), ("b", "second")];
    assert descPairs[..1][..0] == [];
    assert descPairs[..1] == [("a", "first")];
    var first := Dicts.FromPairs(descPairs[..1]);
    assert first == Dicts.FromPairs([]).Set("a", "first");
    assert Dicts.FromPairs(descPairs) == first.Set("b", "second");
  }

  lemma AddDescriptions()
    ensures FuncDocumentation.GenerateFuncDocumentation("add", AddCallable().doc)
         == FuncDocumentation.DocInfo("add", Some("Adds two numbers."), Some(Dicts.Dict(["a", "b"], map["a" := "first", "b" := "second"])))
  {
    AddParamDescriptions();
  }

  lemma AddFields(fieldA: FieldSpec, fieldB: FieldSpec)
    requires fieldA == FieldSpec(ClassTy("int"), Required, Some("first"))
    requires fieldB == FieldSpec(ClassTy("int"), Default(IntValue(0)), Some("second"))
    ensures Dicts.FromPairs(FieldPairs(AddCallable().params, AddCallable().hints,
                                     Dicts.Dict(["a", "b"], map["a" := "first", "b" := "second"])))
         == Dicts.Dict(["a", "b"], map["a" := fieldA, "b" := fieldB])
  {
    var f := AddCallable();
    var descriptions := Dicts.Dict(["a", "b"], map["a" := "first", "b" := "second"]);
    var a, b := f.params[0], f.params[1];
    assert DeclaredType(a, f.hints) == ClassTy("int") && descriptions.Get("a") == Some("first");
    assert DeclaredType(b, f.hints) == ClassTy("int") && descriptions.Get("b") == Some("second");
    assert FieldFor(a, f.hints, descriptions) == fieldA;
    assert FieldFor(b, f.hints, descriptions) == fieldB;
    var pairs := FieldPairs(f.params, f.hints, descriptions);
    assert pairs == [("a", fieldA), ("b", fieldB)];
    assert pairs[..1][..0] == [];
    assert Dicts.FromPairs(pairs[..1]) == Dicts.Dict(["a"], map["a" := fieldA]);
  }

  lemma AddSchema(fieldA: FieldSpec, fieldB: FieldSpec)
    requires fieldA == FieldSpec(ClassTy("int"), Required, Some("first"))
    requires fieldB == FieldSpec(ClassTy("int"), Default(IntValue(0)), Some("second"))
    ensures SchemaOf(AddCallable()) == ToolSchema("function", FunctionSpec("add", Some("Adds two numbers."),
      ParametersSchema("object", Dicts.Dict(["a", "b"], map["a" := fieldA, "b" := fieldB]), ["a"])))
  {
    AddDescriptions();
    assert ParamDescriptionsOf(AddCallable()) == Dicts.Dict(["a", "b"], map["a" := "first", "b" := "second"]);
    AddFields(fieldA, fieldB);
    AddRequired(fieldA, fieldB);
  }

  lemma AddRequired(fieldA: FieldSpec, fieldB: FieldSpec)
    requires fieldA.fieldDefault == Required && fieldB.fieldDefault != Required
    ensures RequiredNames(["a", "b"], map["a" := fieldA, "b" := fieldB]) == ["a"]
  {
    assert RequiredNames(["b"], map["a" := fieldA, "b" := fieldB]) == [];
  }

  /** For `add`: `a` is required, `b` defaults to 0, and each property
      carries its description. */
  lemma AddExample()
    ensures var schema := SchemaOf(AddCallable());
      schema.fn.name == "add" &&
      schema.fn.description == Some("Adds two numbers.") &&
      schema.fn.parameters.properties.keys == ["a", "b"] &&
      schema.fn.parameters.properties.Get("a") == Some(FieldSpec(ClassTy("int"), Required, Some("first"))) &&
      schema.fn.parameters.properties.Get("b") == Some(FieldSpec(ClassTy("int"), Default(IntValue(0)), Some("second"))) &&
      schema.fn.parameters.required == ["a"]
  {
    AddSchema(FieldSpec(ClassTy("int"), Required, Some("first")),
              FieldSpec(ClassTy("int"), Default(IntValue(0)), Some("second")));
  }

  /** `log(*tags: str)`: `tags` is a `list[str]`, not required, defaulting
      to an empty list. */
  lemma LogExample()
    ensures
      var log := Callable("log", FuncDocumentation.Docstring(None, []),
        [Parameter("tags", VarPositional, Some(StrTy), None)], map["tags" := StrTy]);
      var schema := SchemaOf(log);
      schema.fn.parameters.properties.Get("tags")
        == Some(FieldSpec(ListOf(StrTy), DefaultFactory(ListFactory), None)) &&
      schema.fn.parameters.required == []
  {
  }
}
