/** The merge rule shared by every layer of the `soukousei` crate: the `Layer` trait's
    `merge(self, other)` lets the newer source `other` win on every plain field it sets. */
module Layers {
  import opened Wrappers

  /** The right-biased per-field override rule of `Layer::merge`: the newer source's value
      when it has one, otherwise the older one's. */
  ghost predicate Overrides<T>(merged: Option<T>, older: Option<T>, newer: Option<T>)
  {
    && (newer.Some? ==> merged == newer)
    && (newer.None? ==> merged == older)
  }
}
