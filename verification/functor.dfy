/**
 * `Functor` (src/sections/Functor/Functor.js): a box around one value whose
 * `map` builds a new box from `fn(value)` and leaves the receiver alone.
 */
module Boxes {
  import opened Values

  datatype Functor = Functor(value: Value)
  {
    /** `map(fn)`: a new `Functor` holding `fn(value)`. */
    function Map(fn: Value -> Value): (r: Functor)
      ensures r.value == fn(value)
    {
      Functor(fn(value))
    }
  }

  /** Mapping the identity gives back an equal functor. */
  lemma MapIdentity(x: Functor)
    ensures x.Map(v => v) == x
  {
  }

  /** `map(f).map(g)` equals `map(x => g(f(x)))`. */
  lemma MapComposes(x: Functor, f: Value -> Value, g: Value -> Value)
    ensures x.Map(f).Map(g) == x.Map(v => g(f(v)))
  {
  }
}
