/** The phase lookup `get_weights(i, n)`: a step index mapped to one of three weight vectors. */
module WeightSchedule {

  /** Relative sampling weights for sources 1, 2 and 3. */
  datatype Weights = Weights(w1: real, w2: real, w3: real)

  const Early := Weights(0.7, 0.2, 0.1)
  const Middle := Weights(0.1, 0.7, 0.2)
  const Late := Weights(0.2, 0.1, 0.7)

  datatype Result<T> = Ok(value: T) | ValueError(message: string)

  /**
   * The dictionary literal keyed by 0, n // 3 and 2 * n // 3. Python's floor division by 3
   * agrees with Dafny's Euclidean `/` because the divisor is positive. When keys collide
   * (n < 3), the later entry overwrites the earlier one, as in a Python dict display.
   */
  function WeightTable(n: int): map<int, Weights> {
    map[0 := Early][n / 3 := Middle][(2 * n) / 3 := Late]
  }

  /** `get_weights(i, n)` as written: the branch tests and the lookups in the dictionary. */
  function GetWeights(i: int, n: int): (r: Result<Weights>)
    ensures r.ValueError? <==> i < 0
    ensures r.Ok? ==> r.value == Early || r.value == Middle || r.value == Late
  {
    var table := WeightTable(n);
    if i < 0 then ValueError("i must be non-negative")
    else if i > 0 && i < n / 3 then Ok(table[0])
    else if i >= n / 3 && i < (2 * n) / 3 then Ok(table[n / 3])
    else Ok(table[(2 * n) / 3])
  }

  /** Reference definition: the three phases as plain thresholds, with no dictionary. */
  function PhaseWeights(i: nat, n: int): Weights {
    if 0 < i < n / 3 then Early
    else if n / 3 <= i < (2 * n) / 3 then Middle
    else Late
  }

  /** Every key collision in the dictionary is harmless: each branch reads its own phase's vector. */
  lemma GetWeightsByPhase(i: int, n: int)
    ensures GetWeights(i, n) == if i < 0 then ValueError("i must be non-negative") else Ok(PhaseWeights(i, n))
  {
  }

  lemma NegativeStepFails(i: int, n: int)
    requires i < 0
    ensures GetWeights(i, n) == ValueError("i must be non-negative")
  {
  }

  lemma EarlyPhase(i: int, n: int)
    requires 0 < i < n / 3
    ensures GetWeights(i, n) == Ok(Early)
  {
  }

  lemma MiddlePhase(i: int, n: int)
    requires n / 3 <= i < (2 * n) / 3
    ensures GetWeights(i, n) == Ok(Middle)
  {
  }

  lemma LatePhase(i: int, n: int)
    requires 0 <= i
    requires !(0 < i < n / 3) && !(n / 3 <= i < (2 * n) / 3)
    ensures GetWeights(i, n) == Ok(Late)
  {
  }

  /** Step 0 misses the first branch (it tests i > 0) and, once n >= 3, also the second. */
  lemma StepZeroIsLate(n: int)
    requires n >= 3
    ensures GetWeights(0, n) == Ok(Late)
  {
  }

  /** There is no upper bound on i: steps at or past n fall into the last phase. */
  lemma PastEndIsLate(i: int, n: int)
    requires 0 <= n <= i
    ensures GetWeights(i, n) == Ok(Late)
  {
  }

  /** With n == 2 the keys 0 and n // 3 collide; step 0 still reads the middle vector. */
  lemma CollidingKeys()
    ensures WeightTable(2) == map[0 := Middle, 1 := Late]
    ensures GetWeights(0, 2) == Ok(Middle) && GetWeights(1, 2) == Ok(Late)
  {
  }
}
