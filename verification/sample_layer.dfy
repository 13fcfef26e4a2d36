/** `SampleLayer`, the hand-written layer of the `Sample` configuration: three plain fields
    (`with_default_foo` with default 100, the optional `optional_bar`, the required
    `required_baz`), the nested layer `nested` and the max-merged `custom`. */
module SampleLayers {
  import opened Wrappers
  import opened Soukousei
  import opened Layers
  import opened Env
  import NestedLayers
  import CustomLayers
  import TestEnvProvider

  /** `SampleLayer`: plain fields optional, nested fields layers of their own. */
  datatype SampleLayer = SampleLayer(
    withDefaultFoo: Option<uint32>,
    optionalBar: Option<string>,
    requiredBaz: Option<bool>,
    nested: NestedLayers.NestedLayer,
    custom: CustomLayers.CustomLayer)

  /** `Sample`: the completed configuration. */
  datatype Sample = Sample(
    withDefaultFoo: uint32,
    optionalBar: Option<string>,
    requiredBaz: bool,
    nested: NestedLayers.Nested,
    custom: uint32)

  /** `Layer::new`: plain fields absent, nested fields their own `new()`; a left and a
      right identity of `Merge`. */
  function New(): (r: SampleLayer)
    ensures r.withDefaultFoo.None? && r.optionalBar.None? && r.requiredBaz.None?
    ensures r.nested == NestedLayers.New() && r.custom == CustomLayers.New()
    ensures forall x :: Merge(r, x) == x && Merge(x, r) == x
  {
    SampleLayer(None, None, None, NestedLayers.New(), CustomLayers.New())
  }

  /** `Layer::merge`: every plain field is overridden by `other`'s value when present;
      the nested fields are combined by their own merge, never replaced wholesale. */
  function Merge(layer: SampleLayer, other: SampleLayer): (r: SampleLayer)
    ensures Overrides(r.withDefaultFoo, layer.withDefaultFoo, other.withDefaultFoo)
    ensures Overrides(r.optionalBar, layer.optionalBar, other.optionalBar)
    ensures Overrides(r.requiredBaz, layer.requiredBaz, other.requiredBaz)
    ensures Overrides(r.nested.fooEnv, layer.nested.fooEnv, other.nested.fooEnv)
    ensures Overrides(r.nested.barEnvMultiple, layer.nested.barEnvMultiple, other.nested.barEnvMultiple)
    ensures r.custom == CustomLayers.Merge(layer.custom, other.custom)
  {
    SampleLayer(
      other.withDefaultFoo.Or(layer.withDefaultFoo),
      other.optionalBar.Or(layer.optionalBar),
      other.requiredBaz.Or(layer.requiredBaz),
      NestedLayers.Merge(layer.nested, other.nested),
      CustomLayers.Merge(layer.custom, other.custom))
  }

  /** Merging is associative, so a pipeline of sources may be grouped freely. */
  lemma MergeAssociative(a: SampleLayer, b: SampleLayer, c: SampleLayer)
    ensures Merge(Merge(a, b), c) == Merge(a, Merge(b, c))
  {
    NestedLayers.MergeAssociative(a.nested, b.nested, c.nested);
    CustomLayers.MergeAssociative(a.custom, b.custom, c.custom);
  }

  /** The entries `complete` must report: one per absent required field, in visit order,
      with the path stored leaf-first. */
  function MissingEntries(layer: SampleLayer): seq<WithPath<MissingFieldError>>
  {
    (if layer.withDefaultFoo.None? then [WithPath(["with_default_foo"], MissingFieldError)] else [])
    + (if layer.requiredBaz.None? then [WithPath(["required_baz"], MissingFieldError)] else [])
    + (if layer.nested.fooEnv.None? then [WithPath(["foo_env", "nested"], MissingFieldError)] else [])
    + (if layer.custom.inner.None? then [WithPath(["custom"], MissingFieldError)] else [])
  }

  /** Every required field, at every depth, is present. */
  predicate Satisfied(layer: SampleLayer)
  {
    && layer.withDefaultFoo.Some?
    && layer.requiredBaz.Some?
    && layer.nested.fooEnv.Some?
    && layer.custom.inner.Some?
  }

  /** `Default::default`: `with_default_foo` is 100, the nested layers take their own
      defaults, and everything else is absent; completing it fails on `required_baz`
      alone. */
  function Default(): (r: SampleLayer)
    ensures r.withDefaultFoo == Some(100) && r.optionalBar.None? && r.requiredBaz.None?
    ensures r.nested == NestedLayers.Default() && r.custom == CustomLayers.Default()
    ensures Complete(r) == Err(MissingFields(MultipleFieldsError(FieldsAcc([WithPath(["required_baz"], MissingFieldError)]))))
  {
    SampleLayer(Some(100), None, None, NestedLayers.Default(), CustomLayers.Default())
  }

  /** `Layer::complete`: visits every field, never stopping early. It succeeds exactly when
      every required field is present, and the completed value then holds the layer's
      values, with `optional_bar` and `bar_env_multiple` passed through as they are.
      Otherwise it fails with `MissingFields` holding exactly one entry per absent
      required field, in visit order. */
  function Complete(layer: SampleLayer): (r: Result<Sample, CompleteError>)
    ensures r.Ok? <==> Satisfied(layer)
    ensures r.Ok? ==> r.value == Sample(
                        layer.withDefaultFoo.value,
                        layer.optionalBar,
                        layer.requiredBaz.value,
                        NestedLayers.Nested(layer.nested.fooEnv.value, layer.nested.barEnvMultiple),
                        layer.custom.inner.value)
    ensures r.Err? ==> r.error.MissingFields? && Entries(r.error.acc) == MissingEntries(layer)
  {
    assert ["foo_env"] + ["nested"] == ["foo_env", "nested"];
    assert NestedEntries([WithPath(["foo_env"], MissingFieldError)], "nested") == [WithPath(["foo_env", "nested"], MissingFieldError)];
    var errors := Soukousei.New();
    var errors := AddIfNone(errors, layer.withDefaultFoo, "with_default_foo");
    var errors := AddIfNone(errors, layer.requiredBaz, "required_baz");
    var (nested, errors) := CompleteNestIfErr(NestedLayers.Complete(layer.nested), errors, "nested");
    var (custom, errors) := CompleteNestIfErr(CustomLayers.Complete(layer.custom), errors, "custom");
    match AsResult(errors)
    case Err(e) => Err(MissingFields(e))
    case Ok(_) =>
      Ok(Sample(layer.withDefaultFoo.value, layer.optionalBar, layer.requiredBaz.value, nested.value, custom.value))
  }

  /** No fail-fast, counted: `complete` reports one entry per absent required field,
      nothing more and nothing less. */
  lemma CompleteReportsEveryMissingField(layer: SampleLayer)
    ensures var missing := (if layer.withDefaultFoo.None? then 1 else 0) + (if layer.requiredBaz.None? then 1 else 0)
                           + (if layer.nested.fooEnv.None? then 1 else 0) + (if layer.custom.inner.None? then 1 else 0);
            && (missing == 0 <==> Complete(layer).Ok?)
            && (Complete(layer).Err? ==> |Entries(Complete(layer).error.acc)| == missing)
  {
  }

  /** Three required fields absent, one of them nested: `with_default_foo`, `required_baz`
      and the nested `foo_env`, with `custom` present. Exactly three items are reported, in
      visit order; the nested one renders leaf first. */
  lemma ThreeMissingFieldsReported(optionalBar: Option<string>, bar: Option<uint32>, custom: uint32)
    ensures var layer := SampleLayer(None, optionalBar, None, NestedLayers.NestedLayer(None, bar), CustomLayers.CustomLayer(Some(custom)));
            && Complete(layer).Err?
            && Complete(layer).error.MissingFields?
            && IntoDiagnostic(Complete(layer).error.acc) ==
                 [FieldError("with_default_foo", MissingFieldError),
                  FieldError("required_baz", MissingFieldError),
                  FieldError("foo_env.nested", MissingFieldError)]
  {
    var layer := SampleLayer(None, optionalBar, None, NestedLayers.NestedLayer(None, bar), CustomLayers.CustomLayer(Some(custom)));
    var acc := Complete(layer).error.acc;
    var entries := [WithPath(["with_default_foo"], MissingFieldError),
                    WithPath(["required_baz"], MissingFieldError),
                    WithPath(["foo_env", "nested"], MissingFieldError)];
    assert MissingEntries(layer) == entries;
    assert Entries(acc) == entries;
    assert Join(["with_default_foo"], ".") == "with_default_foo";
    assert Join(["required_baz"], ".") == "required_baz";
    assert Join(["foo_env", "nested"], ".") == "foo_env.nested";
    var d := IntoDiagnostic(acc);
    assert |d| == 3;
    assert d[0] == FieldError("with_default_foo", MissingFieldError);
    assert d[1] == FieldError("required_baz", MissingFieldError);
    assert d[2] == FieldError("foo_env.nested", MissingFieldError);
  }

  /** A `custom` that is absent altogether is `MissingSelf` in its own layer and becomes
      one ordinary entry at "custom" in the parent's report. */
  lemma MissingCustomIsOneEntry(layer: SampleLayer)
    requires layer.withDefaultFoo.Some? && layer.requiredBaz.Some? && layer.nested.fooEnv.Some?
    requires layer.custom.inner.None?
    ensures CustomLayers.Complete(layer.custom) == Err(MissingSelf)
    ensures Complete(layer) == Err(MissingFields(MultipleFieldsError(FieldsAcc([WithPath(["custom"], MissingFieldError)]))))
  {
  }

  /** `FromEnv::from_env`: the plain fields stay absent, `nested` comes from its own
      `from_env` and `custom` from its own (which never fails); a failure of the nested
      read is reported with every entry nested under "nested". */
  function FromEnv<R>(fetch: string -> Result<Option<string>, R>, parseU32: string -> Result<uint32, R>)
    : (r: Result<SampleLayer, MultipleFieldsError<FieldFromEnvError<R>>>)
    ensures var n := NestedLayers.FromEnv(fetch, parseU32);
            && (r.Ok? <==> n.Ok?)
            && (r.Ok? ==> r.value == SampleLayer(None, None, None, n.value, CustomLayers.New()))
            && (r.Err? ==> Entries(r.error) == NestedEntries(Entries(n.error), "nested"))
  {
    var errors := Soukousei.New();
    var (nested, errors) := NestIfErr(errors, NestedLayers.FromEnv(fetch, parseU32), "nested");
    var (custom, errors) := NestIfErr(errors, CustomLayers.FromEnv(fetch), "custom");
    match AsResult(errors)
    case Err(e) => Err(e)
    case Ok(_) => Ok(SampleLayer(None, None, None, nested.value, custom.value))
  }

  /** Defaults, then a document that sets only `required_baz = false`, then an environment
      where only FOO is set, merged in that order. The result completes, with
      `with_default_foo` and `custom` still at their default 100, `required_baz` from the
      document and `foo_env` from the environment. */
  lemma DefaultDocumentEnvironmentRoundTrip<R>(parseU32: string -> Result<uint32, R>, foo: string)
    ensures var document := SampleLayer(None, None, Some(false), NestedLayers.New(), CustomLayers.New());
            var env := TestEnvProvider.Add(TestEnvProvider.New(), "FOO", foo);
            var fromEnv := FromEnv(TestEnvProvider.Provider<R>(env), parseU32);
            && fromEnv.Ok?
            && Complete(Merge(Merge(Default(), document), fromEnv.value))
                 == Ok(Sample(100, None, false, NestedLayers.Nested(foo, None), 100))
  {
    var env := TestEnvProvider.Add(TestEnvProvider.New(), "FOO", foo);
    var p := TestEnvProvider.Provider<R>(env);
    assert p("FOO") == Ok(Some(foo));
    assert p("SPECIFIC_BAR") == Ok(None);
    assert p("BAR") == Ok(None);
    assert TryFetchMultipleAndParse(p, NestedLayers.BarVariables, parseU32) == Ok(None);
  }
}
