/** `NestedLayer`, the hand-written layer of the `Nested` configuration: `foo_env` (read
    from FOO, with a default) and the optional `bar_env_multiple` (read from SPECIFIC_BAR,
    then BAR). */
module NestedLayers {
  import opened Wrappers
  import opened Soukousei
  import opened Layers
  import opened Env
  import TestEnvProvider

  /** `NestedLayer`: every field optional. */
  datatype NestedLayer = NestedLayer(fooEnv: Option<string>, barEnvMultiple: Option<uint32>)

  /** `Nested`: the completed configuration; `bar_env_multiple` is optional by type. */
  datatype Nested = Nested(fooEnv: string, barEnvMultiple: Option<uint32>)

  /** The declared default of `foo_env`. */
  const FooDefault: string := "I am default foo!"

  /** The variable `foo_env` is read from. */
  const FooVariable: string := "FOO"

  /** `BAR_ENV_MULTIPLE_VARIABLES`: the candidates for `bar_env_multiple`, in precedence order. */
  const BarVariables: seq<string> := ["SPECIFIC_BAR", "BAR"]

  /** `Layer::new`: both fields absent; a left and a right identity of `Merge`. */
  function New(): (r: NestedLayer)
    ensures r.fooEnv.None? && r.barEnvMultiple.None?
    ensures forall x :: Merge(r, x) == x && Merge(x, r) == x
  {
    NestedLayer(None, None)
  }

  /** `Layer::merge`: per field, `other`'s value wins when present, else `layer`'s is kept. */
  function Merge(layer: NestedLayer, other: NestedLayer): (r: NestedLayer)
    ensures Overrides(r.fooEnv, layer.fooEnv, other.fooEnv)
    ensures Overrides(r.barEnvMultiple, layer.barEnvMultiple, other.barEnvMultiple)
  {
    NestedLayer(other.fooEnv.Or(layer.fooEnv), other.barEnvMultiple.Or(layer.barEnvMultiple))
  }

  /** Override merging is associative: only the order of the sources matters. */
  lemma MergeAssociative(a: NestedLayer, b: NestedLayer, c: NestedLayer)
    ensures Merge(Merge(a, b), c) == Merge(a, Merge(b, c))
  {
  }

  /** The layer obtained by merging `sources` one after another onto `New()`. */
  function MergeAll(sources: seq<NestedLayer>): NestedLayer
  {
    if |sources| == 0 then New() else Merge(MergeAll(sources[..|sources| - 1]), sources[|sources| - 1])
  }

  /** `v` is what the last source that has a value holds, or absent when none has one. */
  ghost predicate LastPresent<T>(xs: seq<Option<T>>, v: Option<T>)
  {
    && (v.None? <==> forall k :: 0 <= k < |xs| ==> xs[k].None?)
    && (v.Some? ==> exists j :: 0 <= j < |xs| && xs[j] == v && forall k :: j < k < |xs| ==> xs[k].None?)
  }

  /** The last-applied source wins, field by field: after merging any chain of sources,
      each field holds the value of the latest source that set it. */
  lemma {:induction false} LastSourceWins(sources: seq<NestedLayer>)
    ensures LastPresent(seq(|sources|, k requires 0 <= k < |sources| => sources[k].fooEnv), MergeAll(sources).fooEnv)
    ensures LastPresent(seq(|sources|, k requires 0 <= k < |sources| => sources[k].barEnvMultiple), MergeAll(sources).barEnvMultiple)
  {
    if |sources| > 0 {
      var n := |sources| - 1;
      var init := sources[..n];
      LastSourceWins(init);
      var foos := seq(|sources|, k requires 0 <= k < |sources| => sources[k].fooEnv);
      var initFoos := seq(|init|, k requires 0 <= k < |init| => init[k].fooEnv);
      var bars := seq(|sources|, k requires 0 <= k < |sources| => sources[k].barEnvMultiple);
      var initBars := seq(|init|, k requires 0 <= k < |init| => init[k].barEnvMultiple);
      assert initFoos == foos[..n];
      assert initBars == bars[..n];
      LastPresentSnoc(initFoos, MergeAll(init).fooEnv, foos[n]);
      assert foos == initFoos + [foos[n]];
      LastPresentSnoc(initBars, MergeAll(init).barEnvMultiple, bars[n]);
      assert bars == initBars + [bars[n]];
    }
  }

  /** One more source on top: the new value when it has one, else the old winner. */
  lemma LastPresentSnoc<T>(xs: seq<Option<T>>, v: Option<T>, x: Option<T>)
    requires LastPresent(xs, v)
    ensures LastPresent(xs + [x], x.Or(v))
  {
    var ys := xs + [x];
    if x.Some? {
      assert ys[|xs|] == x;
    } else if v.Some? {
      var j :| 0 <= j < |xs| && xs[j] == v && forall k :: j < k < |xs| ==> xs[k].None?;
      assert ys[j] == v;
    } else {
      assert forall k :: 0 <= k < |ys| ==> ys[k].None? by {
        forall k | 0 <= k < |ys| ensures ys[k].None? {
          if k < |xs| { assert ys[k] == xs[k]; }
        }
      }
    }
  }

  /** `Default::default`: `foo_env` holds its declared default and `bar_env_multiple` is
      absent, which is enough to complete. */
  function Default(): (r: NestedLayer)
    ensures r.fooEnv == Some(FooDefault) && r.barEnvMultiple.None?
    ensures Complete(r) == Ok(Nested(FooDefault, None))
  {
    NestedLayer(Some(FooDefault), None)
  }

  /** `Layer::complete`: succeeds exactly when the required `foo_env` is present, carrying
      both fields over; otherwise reports exactly one missing entry, at `foo_env`. */
  function Complete(layer: NestedLayer): (r: Result<Nested, CompleteError>)
    ensures r.Ok? <==> layer.fooEnv.Some?
    ensures r.Ok? ==> r.value == Nested(layer.fooEnv.value, layer.barEnvMultiple)
    ensures r.Err? ==> r.error.MissingFields? && Entries(r.error.acc) == [WithPath(["foo_env"], MissingFieldError)]
  {
    var errors := AddIfNone(Soukousei.New(), layer.fooEnv, "foo_env");
    match AsResult(errors)
    case Err(e) => Err(MissingFields(e))
    case Ok(_) => Ok(Nested(layer.fooEnv.value, layer.barEnvMultiple))
  }

  /** `FromEnv::from_env`: `foo_env` from FOO and `bar_env_multiple` from the first of
      SPECIFIC_BAR, BAR that is set. Both fields are always examined: the layer is
      returned only when neither lookup failed, and otherwise every failure is reported,
      under its own field's name, in field order. */
  function FromEnv<R>(fetch: string -> Result<Option<string>, R>, parseU32: string -> Result<uint32, R>)
    : (r: Result<NestedLayer, MultipleFieldsError<FieldFromEnvError<R>>>)
    ensures var foo := FetchAndParse(fetch, FooVariable, ParseString);
            var bar := TryFetchMultipleAndParse(fetch, BarVariables, parseU32);
            && (r.Ok? <==> foo.Ok? && bar.Ok?)
            && (r.Ok? ==> r.value == NestedLayer(foo.value, bar.value))
            && (r.Err? ==>
                  Entries(r.error) == (if foo.Err? then [WithPath(["foo_env"], foo.error)] else [])
                                      + (if bar.Err? then [WithPath(["bar_env_multiple"], bar.error)] else []))
    ensures r.Err? ==> Entries(r.error) != []
  {
    var errors := Soukousei.New();
    var (fooEnv, errors) := AddIfErr(errors, "foo_env", FetchAndParse(fetch, FooVariable, ParseString));
    var (barEnvMultiple, errors) := AddIfErr(errors, "bar_env_multiple", TryFetchMultipleAndParse(fetch, BarVariables, parseU32));
    match AsResult(errors)
    case Err(e) => Err(e)
    case Ok(_) => Ok(NestedLayer(fooEnv, barEnvMultiple))
  }

  /** Candidate precedence against the test provider: with only BAR set, its value is used;
      with SPECIFIC_BAR set as well, SPECIFIC_BAR wins. */
  lemma BarPrecedence<R>(parseU32: string -> Result<uint32, R>, specific: string, bar: string, n: uint32, m: uint32)
    requires parseU32(bar) == Ok(n) && parseU32(specific) == Ok(m)
    ensures var env := TestEnvProvider.Add(TestEnvProvider.New(), "BAR", bar);
            FromEnv(TestEnvProvider.Provider<R>(env), parseU32) == Ok(NestedLayer(None, Some(n)))
    ensures var env := TestEnvProvider.Add(TestEnvProvider.Add(TestEnvProvider.New(), "BAR", bar), "SPECIFIC_BAR", specific);
            FromEnv(TestEnvProvider.Provider<R>(env), parseU32) == Ok(NestedLayer(None, Some(m)))
  {
    var env1 := TestEnvProvider.Add(TestEnvProvider.New(), "BAR", bar);
    var p1 := TestEnvProvider.Provider<R>(env1);
    assert p1("FOO") == Ok(None);
    assert p1("SPECIFIC_BAR") == Ok(None);
    assert p1("BAR") == Ok(Some(bar));
    FirstPresentKeyDecides(p1, BarVariables, parseU32, 1);
    var env2 := TestEnvProvider.Add(env1, "SPECIFIC_BAR", specific);
    var p2 := TestEnvProvider.Provider<R>(env2);
    assert p2("FOO") == Ok(None);
    assert p2("SPECIFIC_BAR") == Ok(Some(specific));
    FirstPresentKeyDecides(p2, BarVariables, parseU32, 0);
  }
}
