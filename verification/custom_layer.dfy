/** `CustomLayer` of the hand-written layer example: a layer over a single `u32` whose
    merge keeps the larger value instead of overriding. */
module CustomLayers {
  import opened Wrappers
  import opened Soukousei
  import opened Env

  /** `CustomLayer(Option<u32>)`. */
  datatype CustomLayer = CustomLayer(inner: Option<uint32>)

  /** `Layer::new`: absent; a left and a right identity of `Merge`. */
  function New(): (r: CustomLayer)
    ensures r.inner.None?
    ensures forall x :: Merge(r, x) == x && Merge(x, r) == x
  {
    CustomLayer(None)
  }

  /** `Layer::merge`: the larger value when both are present, otherwise whichever is
      present; never smaller than either side. */
  function Merge(layer: CustomLayer, other: CustomLayer): (r: CustomLayer)
    ensures r.inner.Some? <==> layer.inner.Some? || other.inner.Some?
    ensures layer.inner.Some? ==> r.inner.Some? && r.inner.value >= layer.inner.value
    ensures other.inner.Some? ==> r.inner.Some? && r.inner.value >= other.inner.value
    ensures r.inner.Some? ==> r.inner == layer.inner || r.inner == other.inner
  {
    match (layer.inner, other.inner)
    case (Some(a), Some(b)) => CustomLayer(Some(Max(a, b)))
    case (Some(a), None) => CustomLayer(Some(a))
    case (None, Some(b)) => CustomLayer(Some(b))
    case (None, None) => CustomLayer(None)
  }

  /** Unlike the override merge of plain fields, the max-merge is order-independent. */
  lemma MergeCommutative(a: CustomLayer, b: CustomLayer)
    ensures Merge(a, b) == Merge(b, a)
  {
  }

  /** The max-merge is associative, so a chain of sources may be grouped freely. */
  lemma MergeAssociative(a: CustomLayer, b: CustomLayer, c: CustomLayer)
    ensures Merge(Merge(a, b), c) == Merge(a, Merge(b, c))
  {
  }

  /** `Default::default`: 100, which completes. */
  function Default(): (r: CustomLayer)
    ensures r.inner == Some(100)
    ensures Complete(r) == Ok(100)
  {
    CustomLayer(Some(100))
  }

  /** `Layer::complete`: the value when present; otherwise `MissingSelf`, never a
      field-level report. */
  function Complete(layer: CustomLayer): (r: Result<uint32, CompleteError>)
    ensures r.Ok? <==> layer.inner.Some?
    ensures r.Ok? ==> layer.inner == Some(r.value)
    ensures r.Err? ==> r.error == MissingSelf
  {
    match layer.inner
    case Some(v) => Ok(v)
    case None => Err(MissingSelf)
  }

  /** `FromEnv::from_env`: reads nothing and never fails; the result is the empty layer
      whatever the provider holds. */
  function FromEnv<R>(fetch: string -> Result<Option<string>, R>): (r: Result<CustomLayer, MultipleFieldsError<FieldFromEnvError<R>>>)
    ensures r.Ok? && r.value.inner.None?
  {
    Ok(New())
  }
}
