/** Schema side of the `soukousei_derive` crate: how one field's `#[layer(...)]`
    attributes become `LayerFieldArgs`, how the `env` attribute is parsed, and how a
    field is classified as nested or plain. The attribute syntax is modelled only as far
    as these rules look at it. */
module Derive {
  import opened Wrappers

  /** An outer attribute (`#[...]`) attached to an expression, kept as its text. */
  type Attribute = string

  /** The literal kinds the `env` attribute tells apart. */
  datatype Lit = StrLit(value: string) | OtherLit(text: string)

  /** The expression shapes the `env` attribute tells apart: an array, a literal, or
      anything else. */
  datatype Expr =
    | ArrayExpr(attrs: seq<Attribute>, elems: seq<Expr>)
    | LitExpr(attrs: seq<Attribute>, lit: Lit)
    | OtherExpr(text: string)

  /** `LayerParamEnv`: one variable name, or candidates in precedence order. */
  datatype LayerParamEnv = Single(name: string) | Multiple(names: seq<string>)

  /** `darling::Error::unexpected_expr_type`, carrying the offending expression. */
  datatype DarlingError = UnexpectedExprType(expr: Expr)

  /** A string literal without attributes: the only array element `env` accepts. */
  predicate IsPlainStrLit(e: Expr)
  {
    e.LitExpr? && |e.attrs| == 0 && e.lit.StrLit?
  }

  /** The guard of the array arm: no attributes and at least one element. */
  predicate IsCandidateArray(e: Expr)
  {
    e.ArrayExpr? && |e.attrs| == 0 && |e.elems| > 0
  }

  /** The expressions `env` accepts: a plain string literal, or a candidate array of them. */
  predicate IsEnvExpr(e: Expr)
  {
    IsPlainStrLit(e) || (IsCandidateArray(e) && forall i :: 0 <= i < |e.elems| ==> IsPlainStrLit(e.elems[i]))
  }

  /** How an accepted `env` value is written in an attribute. */
  function EnvToExpr(env: LayerParamEnv): Expr
  {
    match env
    case Single(name) => LitExpr([], StrLit(name))
    case Multiple(names) => ArrayExpr([], seq(|names|, i requires 0 <= i < |names| => LitExpr([], StrLit(names[i]))))
  }

  /** The element mapping of the array arm, collected into a `Result`: the literal values
      in order when every element is a plain string literal, otherwise the error for the
      first element that is not. */
  function CollectStrLits(elems: seq<Expr>): (r: Result<seq<string>, DarlingError>)
    ensures r.Ok? <==> forall i :: 0 <= i < |elems| ==> IsPlainStrLit(elems[i])
    ensures r.Ok? ==> |r.value| == |elems| && forall i :: 0 <= i < |elems| ==> r.value[i] == elems[i].lit.value
    ensures r.Err? ==> exists j :: 0 <= j < |elems|
                          && (forall i :: 0 <= i < j ==> IsPlainStrLit(elems[i]))
                          && !IsPlainStrLit(elems[j])
                          && r.error == UnexpectedExprType(elems[j])
  {
    if |elems| == 0 then Ok([])
    else if IsPlainStrLit(elems[0]) then
      match CollectStrLits(elems[1..])
      case Ok(rest) => Ok([elems[0].lit.value] + rest)
      case Err(err) => Err(err)
    else Err(UnexpectedExprType(elems[0]))
  }

  /** `LayerParamEnv::from_expr`: succeeds exactly on a plain string literal (`Single`) or
      a non-empty, attribute-free array of plain string literals (`Multiple`, order kept),
      and the value it returns is the one written. A candidate array fails on its first
      bad element; every other expression fails on itself. */
  function FromExpr(e: Expr): (r: Result<LayerParamEnv, DarlingError>)
    ensures r.Ok? <==> IsEnvExpr(e)
    ensures r.Ok? ==> EnvToExpr(r.value) == e
    ensures r.Ok? ==> (r.value.Single? <==> e.LitExpr?)
    ensures r.Err? && !IsCandidateArray(e) ==> r.error == UnexpectedExprType(e)
    ensures r.Err? && IsCandidateArray(e) ==>
              exists j :: 0 <= j < |e.elems|
                && (forall i :: 0 <= i < j ==> IsPlainStrLit(e.elems[i]))
                && !IsPlainStrLit(e.elems[j])
                && r.error == UnexpectedExprType(e.elems[j])
  {
    match e
    case ArrayExpr(attrs, elems) =>
      if |attrs| == 0 && |elems| > 0 then
        match CollectStrLits(elems)
        case Ok(literals) =>
          assert EnvToExpr(Multiple(literals)).elems == elems;
          Ok(Multiple(literals))
        case Err(err) => Err(err)
      else Err(UnexpectedExprType(e))
    case LitExpr(attrs, StrLit(value)) =>
      if |attrs| == 0 then Ok(Single(value)) else Err(UnexpectedExprType(e))
    case _ => Err(UnexpectedExprType(e))
  }

  /** An `env` value survives being written as an attribute and parsed back, as long as
      a candidate list is non-empty (an empty array is rejected). */
  lemma EnvRoundTrip(env: LayerParamEnv)
    requires env.Multiple? ==> |env.names| > 0
    ensures FromExpr(EnvToExpr(env)) == Ok(env)
  {
    if env.Multiple? {
      var e := EnvToExpr(env);
      assert forall i :: 0 <= i < |e.elems| ==> IsPlainStrLit(e.elems[i]);
      var lits := CollectStrLits(e.elems).value;
      assert lits == env.names;
    }
  }

  /** `LayerFieldArgs`: what darling extracts from one field. */
  datatype LayerFieldArgs = LayerFieldArgs(
    ident: Option<string>,
    ty: string,
    defaultValue: Option<string>,
    env: Option<LayerParamEnv>,
    nested: bool)

  /** A field's `#[layer(...)]` options as written: `default = "..."`, `env = <expr>`, and
      the `nested` flag (`#[layer(nested)]` is `Some(true)`). */
  datatype FieldAttrs = FieldAttrs(defaultValue: Option<string>, env: Option<Expr>, nested: Option<bool>)

  /** The darling extraction of `LayerFieldArgs`: `default` is taken as written, `env` goes
      through `FromExpr` and its error aborts the extraction, and an omitted `nested`
      defaults to `false`. */
  function ArgsFromAttrs(ident: Option<string>, ty: string, attrs: FieldAttrs): (r: Result<LayerFieldArgs, DarlingError>)
    ensures r.Ok? <==> attrs.env.None? || IsEnvExpr(attrs.env.value)
    ensures r.Ok? ==> r.value.ident == ident && r.value.ty == ty && r.value.defaultValue == attrs.defaultValue
    ensures r.Ok? ==> (r.value.nested <==> attrs.nested == Some(true))
    ensures r.Ok? ==> (r.value.env.Some? <==> attrs.env.Some?)
    ensures r.Ok? && r.value.env.Some? ==> EnvToExpr(r.value.env.value) == attrs.env.value
  {
    var nested := match attrs.nested case Some(flag) => flag case None => false;
    match attrs.env
    case None => Ok(LayerFieldArgs(ident, ty, attrs.defaultValue, None, nested))
    case Some(expr) =>
      match FromExpr(expr)
      case Ok(env) => Ok(LayerFieldArgs(ident, ty, attrs.defaultValue, Some(env), nested))
      case Err(err) => Err(err)
  }

  /** `LayerFieldBase`: the field's name and type. */
  datatype LayerFieldBase = LayerFieldBase(ident: string, ty: string)

  /** `LayerField`: a field delegating to a nested layer, or a plain field with its
      optional default and environment candidates. */
  datatype LayerField =
    | Nested(base: LayerFieldBase)
    | Field(base: LayerFieldBase, defaultValue: Option<string>, env: Option<LayerParamEnv>)

  /** The unit error of the classification: the schema is rejected. */
  datatype SchemaError = SchemaError

  /** `LayerField::try_from`: a field without a name is rejected; `nested` with neither
      `default` nor `env` is `Nested`; without `nested` it is a `Field` carrying `default`
      and `env` unchanged; `nested` together with `default` or `env` is rejected. */
  function TryFromArgs(args: LayerFieldArgs): (r: Result<LayerField, SchemaError>)
    ensures r.Err? <==> args.ident.None? || (args.nested && (args.defaultValue.Some? || args.env.Some?))
    ensures r.Ok? ==> r.value.base == LayerFieldBase(args.ident.value, args.ty)
    ensures r.Ok? ==> (r.value.Nested? <==> args.nested)
    ensures r.Ok? && r.value.Field? ==> r.value.defaultValue == args.defaultValue && r.value.env == args.env
  {
    match args.ident
    case None => Err(SchemaError)
    case Some(ident) =>
      var base := LayerFieldBase(ident, args.ty);
      if args.nested then
        if args.defaultValue.None? && args.env.None? then Ok(Nested(base)) else Err(SchemaError)
      else Ok(Field(base, args.defaultValue, args.env))
  }

  /** The two rejected schemas the source's pending tests name: a nested field with an
      `env` and a nested field with a `default`. */
  lemma NestedWithDefaultOrEnvIsRejected(name: string, ty: string, defaultValue: string, env: LayerParamEnv)
    ensures TryFromArgs(LayerFieldArgs(Some(name), ty, None, Some(env), true)) == Err(SchemaError)
    ensures TryFromArgs(LayerFieldArgs(Some(name), ty, Some(defaultValue), None, true)) == Err(SchemaError)
  {
  }

  /** The attribute test of the derive crate: five fields, each extracted and classified. */
  lemma ParseAllAttributes()
    ensures ArgsFromAttrs(Some("foo"), "u32", FieldAttrs(Some("100"), None, None))
              == Ok(LayerFieldArgs(Some("foo"), "u32", Some("100"), None, false))
    ensures ArgsFromAttrs(Some("bar"), "Option<String>", FieldAttrs(None, None, None))
              == Ok(LayerFieldArgs(Some("bar"), "Option<String>", None, None, false))
    ensures ArgsFromAttrs(Some("baz"), "bool", FieldAttrs(None, Some(LitExpr([], StrLit("ENV"))), None))
              == Ok(LayerFieldArgs(Some("baz"), "bool", None, Some(Single("ENV")), false))
    ensures ArgsFromAttrs(Some("foo_bar"), "u32",
                          FieldAttrs(None, Some(ArrayExpr([], [LitExpr([], StrLit("FOO")), LitExpr([], StrLit("BAR"))])), None))
              == Ok(LayerFieldArgs(Some("foo_bar"), "u32", None, Some(Multiple(["FOO", "BAR"])), false))
    ensures ArgsFromAttrs(Some("nested"), "AnotherConfig", FieldAttrs(None, None, Some(true)))
              == Ok(LayerFieldArgs(Some("nested"), "AnotherConfig", None, None, true))
    ensures TryFromArgs(LayerFieldArgs(Some("foo_bar"), "u32", None, Some(Multiple(["FOO", "BAR"])), false))
              == Ok(Field(LayerFieldBase("foo_bar", "u32"), None, Some(Multiple(["FOO", "BAR"]))))
    ensures TryFromArgs(LayerFieldArgs(Some("nested"), "AnotherConfig", None, None, true))
              == Ok(Nested(LayerFieldBase("nested", "AnotherConfig")))
  {
    var arr := ArrayExpr([], [LitExpr([], StrLit("FOO")), LitExpr([], StrLit("BAR"))]);
    assert IsPlainStrLit(arr.elems[0]) && IsPlainStrLit(arr.elems[1]);
    var lits := CollectStrLits(arr.elems);
    assert lits.Ok? && |lits.value| == 2 && lits.value[0] == "FOO" && lits.value[1] == "BAR";
    assert lits.value == ["FOO", "BAR"];
  }
}
