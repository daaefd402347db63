/** `collate_fn(batch)`: a batch of (data, label, ref) triples split into three parallel lists. */
module Collate {

  datatype Collated<A, B, C> = Collated(dataList: seq<A>, labelList: seq<B>, refList: seq<C>)

  /** The loop appends each triple's components, in input order, to the three lists. */
  function CollateFn<A, B, C>(batch: seq<(A, B, C)>): (r: Collated<A, B, C>)
    ensures |r.dataList| == |batch| && |r.labelList| == |batch| && |r.refList| == |batch|
    ensures forall k :: 0 <= k < |batch| ==>
      r.dataList[k] == batch[k].0 && r.labelList[k] == batch[k].1 && r.refList[k] == batch[k].2
  {
    if |batch| == 0 then Collated([], [], [])
    else
      var prev := CollateFn(batch[..|batch| - 1]);
      var (d, l, f) := batch[|batch| - 1];
      Collated(prev.dataList + [d], prev.labelList + [l], prev.refList + [f])
  }

  /** The inverse: three lists of equal length zipped back into triples. */
  function Zip<A, B, C>(c: Collated<A, B, C>): (batch: seq<(A, B, C)>)
    requires |c.labelList| == |c.dataList| && |c.refList| == |c.dataList|
    ensures |batch| == |c.dataList|
  {
    seq(|c.dataList|, k requires 0 <= k < |c.dataList| => (c.dataList[k], c.labelList[k], c.refList[k]))
  }

  function Append<A, B, C>(x: Collated<A, B, C>, y: Collated<A, B, C>): Collated<A, B, C> {
    Collated(x.dataList + y.dataList, x.labelList + y.labelList, x.refList + y.refList)
  }

  /** An empty batch gives three empty lists. */
  lemma CollateEmpty<A, B, C>()
    ensures CollateFn<A, B, C>([]) == Collated([], [], [])
  {
  }

  /** Collating loses nothing: zipping the three lists gives back the batch. */
  lemma ZipCollate<A, B, C>(batch: seq<(A, B, C)>)
    ensures var c := CollateFn(batch); Zip(c) == batch
  {
  }

  /** Every triple of equal-length lists is the collation of its zip. */
  lemma CollateZip<A, B, C>(c: Collated<A, B, C>)
    requires |c.labelList| == |c.dataList| && |c.refList| == |c.dataList|
    ensures CollateFn(Zip(c)) == c
  {
  }

  /** Input order is kept: collating a concatenation concatenates the collated parts. */
  lemma {:induction false} CollateConcat<A, B, C>(x: seq<(A, B, C)>, y: seq<(A, B, C)>)
    ensures CollateFn(x + y) == Append(CollateFn(x), CollateFn(y))
  {
    var whole, left, right := CollateFn(x + y), CollateFn(x), CollateFn(y);
    assert whole.dataList == left.dataList + right.dataList;
    assert whole.labelList == left.labelList + right.labelList;
    assert whole.refList == left.refList + right.refList;
  }
}
