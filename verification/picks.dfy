/** The per-step pick stream `choose_number(n)`. */
module Picks {
  import opened Sources
  import opened WeightSchedule

  /**
   * The weighted draw `random.choices([1, 2, 3], weights)[0]`, supplied by the caller:
   * given the draw's step index and the weights in force, the id it lands on.
   */
  type Sampler = (nat, Weights) -> SourceId

  /** The first k draws of a run whose phases are laid out for n steps. */
  function Draws(k: nat, n: int, sample: Sampler): (r: seq<SourceId>)
    ensures |r| == k
    ensures forall i :: 0 <= i < k ==> r[i] == sample(i, GetWeights(i, n).value)
  {
    if k == 0 then [] else Draws(k - 1, n, sample) + [sample(k - 1, GetWeights(k - 1, n).value)]
  }

  /** One id per step of `range(n)`, the i-th drawn with the weights of step i. */
  function ChooseNumber(n: int, sample: Sampler): (r: seq<SourceId>)
    ensures |r| == if n > 0 then n else 0
    ensures forall i :: 0 <= i < |r| ==> GetWeights(i, n).Ok? && r[i] == sample(i, GetWeights(i, n).value)
  {
    if n > 0 then Draws(n, n, sample) else []
  }
}
