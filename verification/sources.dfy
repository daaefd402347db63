/** Source identifiers and per-source bookkeeping shared by the scheduler. */
module Sources {

  /** The keys of the scheduler's `loaders` and `finished` dictionaries: 1, 2 or 3. */
  type SourceId = c: int | 1 <= c <= 3 witness 1

  /** One value per source, standing for a dictionary keyed by 1, 2 and 3. */
  datatype Trio<A> = Trio(one: A, two: A, three: A) {

    function At(c: SourceId): A {
      if c == 1 then one else if c == 2 then two else three
    }

    /** The dictionary after `d[c] = v`: entry c replaced, the other two untouched. */
    function With(c: SourceId, v: A): (r: Trio<A>)
      ensures r.At(c) == v
      ensures forall d: SourceId :: d != c ==> r.At(d) == At(d)
    {
      if c == 1 then Trio(v, two, three)
      else if c == 2 then Trio(one, v, three)
      else Trio(one, two, v)
    }
  }

  function Total(t: Trio<nat>): nat {
    t.one + t.two + t.three
  }

  predicate AllTrue(t: Trio<bool>) {
    t.one && t.two && t.three
  }
}
