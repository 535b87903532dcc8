/** The option type used throughout the model for Python's `None`, and small helpers. */
module Wrappers {
  datatype Option<+T> = None | Some(value: T)

  function Min(a: nat, b: nat): nat {
    if a <= b then a else b
  }

  function Max(a: nat, b: nat): nat {
    if a >= b then a else b
  }

  lemma SubsetSize<T>(v: set<T>, w: set<T>)
    requires v <= w
    ensures |v| <= |w| && (v != w ==> |v| < |w|)
  {
    assert w == v + (w - v);
  }
}
