/**
 * The curriculum interleaver `get_batches(l1_loader, l2_loader, l3_loader)`.
 *
 * Each loader is a finite sequence read through a cursor; `next(loaders[c])` succeeds when the
 * cursor of c has not reached the end and raises StopIteration otherwise. The weighted picks come
 * from `Picks.ChooseNumber`; the uniform re-picks `random.choice([1, 2, 3])` made after a
 * StopIteration are read, in order, from a caller-supplied sequence `fallback`.
 */
module Interleave {
  import opened Sources
  import Picks
  import WeightSchedule

  /** L1 + L2 + L3: how many batches the three loaders hold together, the `n` of `choose_number(n)`. */
  function Capacity<T>(loaders: Trio<seq<T>>): nat {
    Total(Trio(|loaders.one|, |loaders.two|, |loaders.three|))
  }

  /** Whether `next(loaders[c])` would hand out a batch. */
  predicate Live<T>(loaders: Trio<seq<T>>, cursor: Trio<nat>, c: SourceId) {
    cursor.At(c) < |loaders.At(c)|
  }

  /** The ids one retry loop tries when it consumes fallback[pos..end]: the step's pick, then the re-picks. */
  function Tried(choice: SourceId, fallback: seq<SourceId>, pos: nat, end: nat): (t: seq<SourceId>)
    requires pos <= end <= |fallback|
    ensures |t| == end - pos + 1
  {
    [choice] + fallback[pos..end]
  }

  /**
   * The outcome of one retry loop: a successful pull from `src` with the updated `finished` flags,
   * the number of re-picks consumed so far and the entries appended to the choice log; or
   * `OutOfPicks` when the supplied re-picks ran out before one named a live source.
   */
  datatype Attempt =
    | Pulled(src: SourceId, finished: Trio<bool>, fallbackPos: nat, entries: seq<SourceId>)
    | OutOfPicks

  /**
   * The `while not returned` loop of one step. A failed pull marks its source finished and
   * re-picks among all three ids, live or not; because `finally` runs after `except`, a failed
   * attempt logs the replacement id, and a successful one logs the id that supplied the batch.
   */
  function RetryLoop<T>(loaders: Trio<seq<T>>, cursor: Trio<nat>, flags: Trio<bool>,
                    choice: SourceId, fallback: seq<SourceId>, pos: nat): (r: Attempt)
    requires pos <= |fallback|
    ensures r.OutOfPicks? <==>
      (!Live(loaders, cursor, choice) && (forall j :: pos <= j < |fallback| ==> !Live(loaders, cursor, fallback[j])))
    ensures r.Pulled? ==> pos <= r.fallbackPos <= |fallback| && Live(loaders, cursor, r.src)
    ensures r.Pulled? ==>
      && pos <= r.fallbackPos <= |fallback|
      && r.src == (if r.fallbackPos == pos then choice else fallback[r.fallbackPos - 1])
    ensures r.Pulled? ==>
      && pos <= r.fallbackPos <= |fallback|
      && |r.entries| == r.fallbackPos - pos + 1
      && r.entries[r.fallbackPos - pos] == r.src
      && (forall j :: pos <= j < r.fallbackPos ==> r.entries[j - pos] == fallback[j])
    ensures Live(loaders, cursor, choice) ==> r == Pulled(choice, flags, pos, [choice])
    ensures r.Pulled? ==> (forall d: SourceId :: flags.At(d) ==> r.finished.At(d))
    decreases |fallback| - pos
  {
    if Live(loaders, cursor, choice) then Pulled(choice, flags, pos, [choice])
    else if pos == |fallback| then OutOfPicks
    else
      var repick := fallback[pos];
      var rest := RetryLoop(loaders, cursor, flags.With(choice, true), repick, fallback, pos + 1);
      if rest.OutOfPicks? then OutOfPicks
      else Pulled(rest.src, rest.finished, rest.fallbackPos, [repick] + rest.entries)
  }

  /**
   * What one retry loop does to the `finished` flags: every id it tried before the successful
   * one names an exhausted source and is flagged, and a flag is newly set only for an
   * exhausted source.
   */
  lemma {:induction false} RetryFlags<T>(loaders: Trio<seq<T>>, cursor: Trio<nat>, finished: Trio<bool>,
                                         choice: SourceId, fallback: seq<SourceId>, pos: nat)
    requires pos <= |fallback|
    ensures var r := RetryLoop(loaders, cursor, finished, choice, fallback, pos);
      r.Pulled? ==>
        && (forall j :: 0 <= j < r.fallbackPos - pos ==>
              !Live(loaders, cursor, Tried(choice, fallback, pos, r.fallbackPos)[j])
              && r.finished.At(Tried(choice, fallback, pos, r.fallbackPos)[j]))
        && (forall d: SourceId :: r.finished.At(d) ==> finished.At(d) || !Live(loaders, cursor, d))
    decreases |fallback| - pos
  {
    var r := RetryLoop(loaders, cursor, finished, choice, fallback, pos);
    if r.Pulled? && !Live(loaders, cursor, choice) {
      var next := fallback[pos];
      var marked := finished.With(choice, true);
      RetryFlags(loaders, cursor, marked, next, fallback, pos + 1);
      var r' := RetryLoop(loaders, cursor, marked, next, fallback, pos + 1);
      assert r.finished == r'.finished && r.fallbackPos == r'.fallbackPos;
      assert Tried(choice, fallback, pos, r.fallbackPos) == [choice] + Tried(next, fallback, pos + 1, r.fallbackPos);
    }
  }

  /**
   * The generator's state between steps. `origins[k]` is the source that supplied `batches[k]`;
   * it is bookkeeping of the model, the Python code yields only the batch.
   */
  datatype Run<T> = Run(cursor: Trio<nat>, finished: Trio<bool>, fallbackPos: nat,
                        batches: seq<T>, origins: seq<SourceId>, log: seq<SourceId>)

  function Start<T>(): Run<T> {
    Run(Trio(0, 0, 0), Trio(false, false, false), 0, [], [], [])
  }

  /** How the generator ended: it ran to completion, or it needed more re-picks than were supplied. */
  datatype Outcome<T> = Completed(run: Run<T>) | NeedsMorePicks(run: Run<T>)

  /** `p = next(loaders[src])` succeeded: yield p, advance src's cursor, record the step's log entries. */
  function Yield<T>(loaders: Trio<seq<T>>, run: Run<T>, a: Attempt): Run<T>
    requires a.Pulled? && Live(loaders, run.cursor, a.src)
  {
    var c := run.cursor.At(a.src);
    Run(run.cursor.With(a.src, c + 1), a.finished, a.fallbackPos,
        run.batches + [loaders.At(a.src)[c]], run.origins + [a.src], run.log + a.entries)
  }

  /** The `for choice in choose_number(n)` loop from step k on, with the all-finished `break`. */
  function Steps<T>(loaders: Trio<seq<T>>, picks: seq<SourceId>, fallback: seq<SourceId>,
                    k: nat, run: Run<T>): (o: Outcome<T>)
    requires k <= |picks| && run.fallbackPos <= |fallback|
    ensures run.fallbackPos <= o.run.fallbackPos <= |fallback|
    ensures run.batches <= o.run.batches && run.log <= o.run.log
    ensures |o.run.batches| <= |run.batches| + (|picks| - k)
    ensures |o.run.log| - |run.log| == (|o.run.batches| - |run.batches|) + (o.run.fallbackPos - run.fallbackPos)
    ensures forall c: SourceId :: run.finished.At(c) ==> o.run.finished.At(c)
    decreases |picks| - k
  {
    if k == |picks| then Completed(run)
    else
      var a := RetryLoop(loaders, run.cursor, run.finished, picks[k], fallback, run.fallbackPos);
      if a.OutOfPicks? then NeedsMorePicks(run)
      else
        var next := Yield(loaders, run, a);
        if AllTrue(a.finished) then Completed(next)
        else Steps(loaders, picks, fallback, k + 1, next)
  }

  /** `get_batches(l1, l2, l3)`: n = L1 + L2 + L3 weighted picks, each followed by its retry loop. */
  function GetBatches<T>(l1: seq<T>, l2: seq<T>, l3: seq<T>, sample: Picks.Sampler,
                         fallback: seq<SourceId>): (o: Outcome<T>)
    ensures |o.run.batches| <= Capacity(Trio(l1, l2, l3))
    ensures |o.run.log| == |o.run.batches| + o.run.fallbackPos
  {
    var loaders := Trio(l1, l2, l3);
    Steps(loaders, Picks.ChooseNumber(Capacity(loaders), sample), fallback, 0, Start())
  }

  // ---------------------------------------------------------------------------------------------
  // Per-source view of the merged stream

  /** The batches yielded so far that came from source c, in the order they were yielded. */
  function From<T>(batches: seq<T>, origins: seq<SourceId>, c: SourceId): seq<T>
    requires |batches| == |origins|
    decreases |batches|
  {
    if |batches| == 0 then []
    else
      From(batches[..|batches| - 1], origins[..|origins| - 1], c)
      + (if origins[|origins| - 1] == c then [batches[|batches| - 1]] else [])
  }

  /**
   * What holds of the generator's state after every step: each source has handed out exactly a
   * prefix of its batches, in order; a source is flagged finished only once drained; and the
   * choice log has one entry per yield plus one per failed pull.
   */
  ghost predicate Consistent<T>(loaders: Trio<seq<T>>, run: Run<T>) {
    && |run.origins| == |run.batches|
    && |run.batches| == Total(run.cursor)
    && |run.log| == |run.batches| + run.fallbackPos
    && (forall c: SourceId :: run.cursor.At(c) <= |loaders.At(c)|)
    && (forall c: SourceId :: run.finished.At(c) ==> !Live(loaders, run.cursor, c))
    && (forall c: SourceId :: From(run.batches, run.origins, c) == loaders.At(c)[..run.cursor.At(c)])
  }

  /**
   * The pull of one retry loop, as `RetryLoop` describes it: from a source that still has a batch,
   * after flagging only drained sources and logging one entry per attempt.
   */
  ghost predicate GoodPull<T>(loaders: Trio<seq<T>>, run: Run<T>, a: Attempt) {
    && a.Pulled?
    && Live(loaders, run.cursor, a.src)
    && run.fallbackPos <= a.fallbackPos
    && |a.entries| == a.fallbackPos - run.fallbackPos + 1
    && forall d: SourceId :: a.finished.At(d) ==> run.finished.At(d) || !Live(loaders, run.cursor, d)
  }

  lemma RetryPullIsGood<T>(loaders: Trio<seq<T>>, run: Run<T>, choice: SourceId, fallback: seq<SourceId>)
    requires run.fallbackPos <= |fallback|
    requires RetryLoop(loaders, run.cursor, run.finished, choice, fallback, run.fallbackPos).Pulled?
    ensures GoodPull(loaders, run, RetryLoop(loaders, run.cursor, run.finished, choice, fallback, run.fallbackPos))
  {
    RetryFlags(loaders, run.cursor, run.finished, choice, fallback, run.fallbackPos);
  }

  /**
   * The source that supplies a step's batch is never flagged finished, so right after a successful
   * pull `all(finished.values())` is false and the `break` cannot fire.
   */
  lemma NoEarlyBreak<T>(loaders: Trio<seq<T>>, run: Run<T>, a: Attempt)
    requires Consistent(loaders, run) && GoodPull(loaders, run, a)
    ensures !a.finished.At(a.src) && !AllTrue(a.finished)
  {
  }

  /** One successful step keeps the generator's state consistent and yields exactly one batch. */
  lemma YieldPreserves<T>(loaders: Trio<seq<T>>, run: Run<T>, a: Attempt)
    requires Consistent(loaders, run) && GoodPull(loaders, run, a)
    ensures Consistent(loaders, Yield(loaders, run, a))
    ensures |Yield(loaders, run, a).batches| == |run.batches| + 1
  {
  }

  /** While fewer than L1 + L2 + L3 batches have been yielded, some source still has a batch. */
  lemma LiveSourceExists<T>(loaders: Trio<seq<T>>, run: Run<T>)
    requires Consistent(loaders, run)
    requires |run.batches| < Capacity(loaders)
    ensures exists c: SourceId :: Live(loaders, run.cursor, c)
  {
    if !Live(loaders, run.cursor, 1) && !Live(loaders, run.cursor, 2) {
      assert Live(loaders, run.cursor, 3);
    }
  }

  /**
   * Every step from k on keeps the state consistent; the loop never breaks early, so a completed
   * run has yielded one batch per pick, and a run that ran out of re-picks stopped short of that.
   */
  lemma {:induction false} StepsPreserve<T>(loaders: Trio<seq<T>>, picks: seq<SourceId>,
                                            fallback: seq<SourceId>, k: nat, run: Run<T>)
    requires k <= |picks| && run.fallbackPos <= |fallback|
    requires Consistent(loaders, run) && |run.batches| == k
    ensures Consistent(loaders, Steps(loaders, picks, fallback, k, run).run)
    ensures Steps(loaders, picks, fallback, k, run).Completed? ==>
      |Steps(loaders, picks, fallback, k, run).run.batches| == |picks|
    ensures Steps(loaders, picks, fallback, k, run).NeedsMorePicks? ==>
      |Steps(loaders, picks, fallback, k, run).run.batches| < |picks|
    decreases |picks| - k
  {
    if k < |picks| {
      var a := RetryLoop(loaders, run.cursor, run.finished, picks[k], fallback, run.fallbackPos);
      if a.Pulled? {
        RetryPullIsGood(loaders, run, picks[k], fallback);
        NoEarlyBreak(loaders, run, a);
        YieldPreserves(loaders, run, a);
        StepsPreserve(loaders, picks, fallback, k + 1, Yield(loaders, run, a));
      }
    }
  }

  /** Every window of w consecutive re-picks names all three sources. */
  predicate WindowCovers(fallback: seq<SourceId>, j: nat, w: nat)
    requires j + w <= |fallback|
  {
    1 in fallback[j..j + w] && 2 in fallback[j..j + w] && 3 in fallback[j..j + w]
  }

  predicate Fair(fallback: seq<SourceId>, w: nat) {
    forall j: nat :: j + w <= |fallback| ==> WindowCovers(fallback, j, w)
  }

  /** The retry loop stops no later than the first re-pick that names a source with a batch left. */
  lemma {:induction false} RetryReaches<T>(loaders: Trio<seq<T>>, cursor: Trio<nat>, finished: Trio<bool>,
                                           choice: SourceId, fallback: seq<SourceId>, pos: nat, i: nat)
    requires pos <= i < |fallback| && Live(loaders, cursor, fallback[i])
    ensures RetryLoop(loaders, cursor, finished, choice, fallback, pos).Pulled?
    ensures RetryLoop(loaders, cursor, finished, choice, fallback, pos).fallbackPos <= i + 1
    decreases i - pos
  {
    if !Live(loaders, cursor, choice) && pos < i {
      RetryReaches(loaders, cursor, finished.With(choice, true), fallback[pos], fallback, pos + 1, i);
    }
  }

  /** With fair re-picks and a source left to draw from, one step consumes at most w re-picks. */
  lemma FairStep<T>(loaders: Trio<seq<T>>, run: Run<T>, choice: SourceId, fallback: seq<SourceId>, w: nat)
    requires Consistent(loaders, run)
    requires |run.batches| < Capacity(loaders)
    requires Fair(fallback, w) && run.fallbackPos + w <= |fallback|
    ensures RetryLoop(loaders, run.cursor, run.finished, choice, fallback, run.fallbackPos).Pulled?
    ensures RetryLoop(loaders, run.cursor, run.finished, choice, fallback, run.fallbackPos).fallbackPos
      <= run.fallbackPos + w
  {
    LiveSourceExists(loaders, run);
    var d: SourceId :| Live(loaders, run.cursor, d);
    assert WindowCovers(fallback, run.fallbackPos, w);
    assert d in fallback[run.fallbackPos..run.fallbackPos + w];
    var i :| run.fallbackPos <= i < run.fallbackPos + w && fallback[i] == d;
    RetryReaches(loaders, run.cursor, run.finished, choice, fallback, run.fallbackPos, i);
  }

  /** The re-picks that m steps may consume when each consumes at most w of them. */
  function Budget(w: nat, m: nat): nat {
    if m == 0 then 0 else w + Budget(w, m - 1)
  }

  lemma {:induction false} BudgetIsProduct(w: nat, m: nat)
    ensures Budget(w, m) == w * m
  {
    if m > 0 {
      BudgetIsProduct(w, m - 1);
    }
  }

  /** A successful step from a consistent state continues the loop from a consistent state. */
  lemma StepOnce<T>(loaders: Trio<seq<T>>, picks: seq<SourceId>, fallback: seq<SourceId>,
                    k: nat, run: Run<T>) returns (next: Run<T>)
    requires k < |picks| && run.fallbackPos <= |fallback|
    requires Consistent(loaders, run) && |run.batches| == k
    requires RetryLoop(loaders, run.cursor, run.finished, picks[k], fallback, run.fallbackPos).Pulled?
    ensures Consistent(loaders, next) && |next.batches| == k + 1
    ensures next.fallbackPos == RetryLoop(loaders, run.cursor, run.finished, picks[k], fallback, run.fallbackPos).fallbackPos
    ensures next.fallbackPos <= |fallback|
    ensures Steps(loaders, picks, fallback, k, run) == Steps(loaders, picks, fallback, k + 1, next)
  {
    var a := RetryLoop(loaders, run.cursor, run.finished, picks[k], fallback, run.fallbackPos);
    RetryPullIsGood(loaders, run, picks[k], fallback);
    NoEarlyBreak(loaders, run, a);
    YieldPreserves(loaders, run, a);
    next := Yield(loaders, run, a);
  }

  /**
   * One step of a fair run: it succeeds within w re-picks, so the state after it is consistent
   * and still has w re-picks for each step that remains.
   */
  lemma FairStepOnce<T>(loaders: Trio<seq<T>>, picks: seq<SourceId>, fallback: seq<SourceId>,
                        w: nat, k: nat, run: Run<T>) returns (next: Run<T>)
    requires k < |picks| && |picks| == Capacity(loaders)
    requires Consistent(loaders, run) && |run.batches| == k
    requires Fair(fallback, w) && run.fallbackPos + Budget(w, |picks| - k) <= |fallback|
    ensures Consistent(loaders, next) && |next.batches| == k + 1
    ensures next.fallbackPos + Budget(w, |picks| - (k + 1)) <= |fallback|
    ensures Steps(loaders, picks, fallback, k + 1, next).Completed? ==>
      Steps(loaders, picks, fallback, k, run).Completed?
  {
    FairStep(loaders, run, picks[k], fallback, w);
    next := StepOnce(loaders, picks, fallback, k, run);
  }

  /**
   * With re-picks in which every window of w names all three ids, and at least w of them per
   * remaining step, the run from step k completes.
   */
  lemma {:induction false} StepsCompleteWhenFair<T>(loaders: Trio<seq<T>>, picks: seq<SourceId>,
                                                   fallback: seq<SourceId>, w: nat, k: nat, run: Run<T>)
    requires k <= |picks| && |picks| == Capacity(loaders)
    requires Consistent(loaders, run) && |run.batches| == k
    requires Fair(fallback, w) && run.fallbackPos + Budget(w, |picks| - k) <= |fallback|
    ensures Steps(loaders, picks, fallback, k, run).Completed?
    decreases |picks| - k
  {
    if k < |picks| {
      var next := FairStepOnce(loaders, picks, fallback, w, k, run);
      StepsCompleteWhenFair(loaders, picks, fallback, w, k + 1, next);
    }
  }

  // ---------------------------------------------------------------------------------------------
  // Properties of get_batches

  /**
   * Whatever the picks, each source's batches are handed out in the source's own order, each at
   * most once; only drained sources are flagged finished; the choice log holds one entry per
   * yielded batch plus one per failed pull.
   */
  lemma GetBatchesInOrder<T>(l1: seq<T>, l2: seq<T>, l3: seq<T>, sample: Picks.Sampler, fallback: seq<SourceId>)
    ensures Consistent(Trio(l1, l2, l3), GetBatches(l1, l2, l3, sample, fallback).run)
  {
    StepsPreserve(Trio(l1, l2, l3), Picks.ChooseNumber(Capacity(Trio(l1, l2, l3)), sample), fallback, 0, Start());
  }

  /**
   * A run that completes yields exactly L1 + L2 + L3 batches and drains every source, each in
   * full and in order, even when some source is empty.
   */
  lemma GetBatchesComplete<T>(l1: seq<T>, l2: seq<T>, l3: seq<T>, sample: Picks.Sampler, fallback: seq<SourceId>)
    requires GetBatches(l1, l2, l3, sample, fallback).Completed?
    ensures var r := GetBatches(l1, l2, l3, sample, fallback).run;
      && |r.origins| == |r.batches|
      && |r.batches| == Capacity(Trio(l1, l2, l3))
      && r.cursor == Trio(|l1|, |l2|, |l3|)
      && From(r.batches, r.origins, 1) == l1
      && From(r.batches, r.origins, 2) == l2
      && From(r.batches, r.origins, 3) == l3
  {
    var loaders := Trio(l1, l2, l3);
    var picks := Picks.ChooseNumber(Capacity(loaders), sample);
    StepsPreserve(loaders, picks, fallback, 0, Start());
    var r := Steps(loaders, picks, fallback, 0, Start()).run;
    assert r == GetBatches(l1, l2, l3, sample, fallback).run;
    FullRunDrains(loaders, r);
  }

  /** A consistent state that has yielded L1 + L2 + L3 batches has handed out every source in full. */
  lemma FullRunDrains<T>(loaders: Trio<seq<T>>, run: Run<T>)
    requires Consistent(loaders, run) && |run.batches| == Capacity(loaders)
    ensures run.cursor == Trio(|loaders.one|, |loaders.two|, |loaders.three|)
    ensures forall c: SourceId :: From(run.batches, run.origins, c) == loaders.At(c)
  {
    assert run.cursor.At(1) <= |loaders.At(1)| && run.cursor.At(2) <= |loaders.At(2)| && run.cursor.At(3) <= |loaders.At(3)|;
    forall c: SourceId
      ensures From(run.batches, run.origins, c) == loaders.At(c)
    {
      assert loaders.At(c)[..run.cursor.At(c)] == loaders.At(c);
    }
  }

  /**
   * The retry loop always reaches a live source when the re-picks are fair: if every window of w
   * consecutive re-picks names all three ids and w re-picks are available per step, the run
   * completes.
   */
  lemma GetBatchesTerminates<T>(l1: seq<T>, l2: seq<T>, l3: seq<T>, sample: Picks.Sampler,
                                fallback: seq<SourceId>, w: nat)
    requires Fair(fallback, w) && w * Capacity(Trio(l1, l2, l3)) <= |fallback|
    ensures GetBatches(l1, l2, l3, sample, fallback).Completed?
  {
    var loaders := Trio(l1, l2, l3);
    BudgetIsProduct(w, Capacity(loaders));
    StepsCompleteWhenFair(loaders, Picks.ChooseNumber(Capacity(loaders), sample), fallback, w, 0, Start());
  }

  /** Step 0 of the scenario below: source 2 is empty, the re-pick 2 fails again, the re-pick 1 supplies. */
  lemma ScenarioFirstStep()
    ensures RetryLoop(Trio([10], [], [30]), Trio(0, 0, 0), Trio(false, false, false), 2, [2, 1, 3], 0)
      == Pulled(1, Trio(false, true, false), 2, [2, 1, 1])
  {
  }

  /** Step 1 of the scenario below: source 2 fails once more, the re-pick 3 supplies. */
  lemma ScenarioSecondStep()
    ensures RetryLoop(Trio([10], [], [30]), Trio(1, 0, 0), Trio(false, true, false), 2, [2, 1, 3], 2)
      == Pulled(3, Trio(false, true, false), 3, [3, 3])
  {
  }

  /**
   * A run with an empty second source whose every weighted pick names it: each step fails over,
   * the failed attempt logs its replacement, and both batches are still yielded.
   */
  lemma EmptySourceScenario()
    ensures var o := GetBatches([10], [], [30], (i: nat, wt: WeightSchedule.Weights) => 2, [2, 1, 3]);
      && o.Completed?
      && o.run.batches == [10, 30]
      && o.run.log == [2, 1, 1, 3, 3]
      && o.run.finished == Trio(false, true, false)
  {
    var loaders: Trio<seq<int>> := Trio([10], [], [30]);
    var sample := (i: nat, wt: WeightSchedule.Weights) => 2;
    var fallback: seq<SourceId> := [2, 1, 3];
    var picks := Picks.ChooseNumber(2, sample);
    assert picks == [2, 2];
    var fin := Trio(false, true, false);
    ScenarioFirstStep();
    ScenarioSecondStep();
    var run1 := Run(Trio(1, 0, 0), fin, 2, [10], [1], [2, 1, 1]);
    var run2 := Run(Trio(1, 0, 1), fin, 3, [10, 30], [1, 3], [2, 1, 1, 3, 3]);
    var start: Run<int> := Start();
    assert Yield(loaders, start, Pulled(1, fin, 2, [2, 1, 1])) == run1;
    assert Yield(loaders, run1, Pulled(3, fin, 3, [3, 3])) == run2;
    assert Steps(loaders, picks, fallback, 2, run2) == Completed(run2);
    assert Steps(loaders, picks, fallback, 1, run1) == Completed(run2);
    assert Steps(loaders, picks, fallback, 0, start) == Completed(run2);
  }
}
