/** Sums of real numbers, shared by the engines and pages that add up rows of figures. */
module Reals {
  /** The sum of a sequence of reals, accumulated from the first to the last. */
  function Sum(xs: seq<real>): real
    decreases |xs|
  {
    if xs == [] then 0.0 else Sum(xs[..|xs| - 1]) + xs[|xs| - 1]
  }
}
