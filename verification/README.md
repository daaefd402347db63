# Curriculum batch scheduler — a Dafny model

This project models the curriculum batch scheduler of the Text-Simplification-CL training code
and proves properties of the model. The scheduler merges three batch sources, the loaders
`l1_loader`, `l2_loader` and `l3_loader`, into one stream. The training loop in `run_all.py` imports
`get_batches` but does not call it; it iterates a single loader. The model covers:

- `get_weights(i, n)` maps step `i` of an `n`-step run to one of three weight vectors, with phase
  thresholds `n // 3` and `2 * n // 3` (module `WeightSchedule`, file `weights.dfy`);
- `choose_number(n)` draws one source id in {1, 2, 3} per step with those weights
  (module `Picks`, file `picks.dfy`);
- `get_batches(l1, l2, l3)` runs `n = L1 + L2 + L3` steps; each step pulls from the drawn source
  and, when that source is exhausted, flags it finished and re-picks uniformly among all three ids
  until a pull succeeds, logging every attempt (module `Interleave`, file `interleave.dfy`);
- `collate_fn(batch)` unzips `(data, label, ref)` triples into three lists
  (module `Collate`, file `collate.dfy`).

Sources are sequences read through cursors (`Sources.Trio` holds one value per source id, as the
code's dictionaries keyed by 1, 2, 3 do). Randomness is a caller-supplied oracle:
`Picks.Sampler` gives the weighted draw for a step index and the weights in force, and the uniform
re-picks are a sequence consumed in order. If that sequence runs out before a re-pick names a
source with batches left, the model reports `NeedsMorePicks` instead of looping. The weights are
exact reals; they only matter as three distinct vectors.

Behaviour of the code that the model follows and a reader might not expect:

- Step 0 is not in the first phase once `n >= 3`. The first branch tests `i > 0`, so step 0 reads
  the last vector (`StepZeroIsLate`).
- Zero-length sources are not rejected. An empty source simply fails over on every pick.
- The choice log is not one entry per yielded batch. It has one entry per attempt, so its length
  is the number of yields plus the number of failed pulls. Because `finally` runs after `except`,
  a failed attempt logs the replacement id.
- The generator never stops early on "all finished". The source that just supplied a batch was
  never flagged, so the `break` check after each step is always false (`NoEarlyBreak`). The run
  ends because the `for` loop runs exactly `n` steps.

## Model

| member | source | states |
|---|---|---|
| WeightSchedule.GetWeights | Text-Simplification-CL/scheduler.py:5-24 | raises the "i must be non-negative" error exactly when `i < 0`; otherwise returns one of the three phase vectors |
| WeightSchedule.GetWeightsByPhase | Text-Simplification-CL/scheduler.py:6-24 | the dictionary lookup, with its possibly colliding keys `0`, `n // 3`, `2 * n // 3`, agrees for every `i` and `n` with a plain three-threshold phase definition |
| WeightSchedule.NegativeStepFails | Text-Simplification-CL/scheduler.py:17-18 | any negative step index fails, whatever `n` is |
| WeightSchedule.EarlyPhase | Text-Simplification-CL/scheduler.py:19-20 | `0 < i < n // 3` gives `[0.7, 0.2, 0.1]` |
| WeightSchedule.MiddlePhase | Text-Simplification-CL/scheduler.py:6-22 | `n // 3 <= i < 2 * n // 3` gives `[0.1, 0.7, 0.2]`, also for `n < 3` where dictionary keys collide |
| WeightSchedule.LatePhase | Text-Simplification-CL/scheduler.py:19-24 | every other non-negative `i` gives `[0.2, 0.1, 0.7]` |
| WeightSchedule.StepZeroIsLate | Text-Simplification-CL/scheduler.py:19-24 | for `n >= 3`, step 0 falls through to the last vector, not the first |
| WeightSchedule.PastEndIsLate | Text-Simplification-CL/scheduler.py:19-24 | there is no upper bound on `i`: every `i >= n >= 0` gives the last vector |
| WeightSchedule.CollidingKeys | Text-Simplification-CL/scheduler.py:6-10 | for `n = 2` the dictionary holds only keys 0 (middle vector) and 1 (last vector), and step 0 still reads the middle vector |
| Picks.Draws | Text-Simplification-CL/scheduler.py:36-41 | the first `k` draws: exactly `k` ids, the i-th drawn with the weights of step `i` |
| Picks.ChooseNumber | Text-Simplification-CL/scheduler.py:36-41 | `max(n, 0)` ids, each in {1, 2, 3}, the i-th drawn with `get_weights(i, n)`, which never fails there |
| Interleave.RetryLoop | Text-Simplification-CL/scheduler.py:66-77 | the retry loop gets stuck only when the pick and every remaining re-pick name exhausted sources; otherwise it pulls from a source with a batch left, which is the step's pick if that was live and the last re-pick consumed if not; the logged entries are the re-picks, unfiltered, followed by the supplying id; flags already set stay set |
| Interleave.RetryFlags | Text-Simplification-CL/scheduler.py:71-74 | every id tried before the successful one names an exhausted source and is flagged finished, and no source with batches left is ever flagged |
| Interleave.RetryPullIsGood | Text-Simplification-CL/scheduler.py:66-77 | a successful retry loop pulls from a live source, logs one entry per attempt and flags only drained sources |
| Interleave.Steps | Text-Simplification-CL/scheduler.py:64-80 | the step loop yields at most one batch per remaining pick, only appends to the yielded batches and the log, never resets a finished flag, and grows the log by yields plus failed pulls |
| Interleave.GetBatches | Text-Simplification-CL/scheduler.py:49-81 | at most `L1 + L2 + L3` batches are yielded, and the choice log length is yields plus failed pulls |
| Interleave.NoEarlyBreak | Text-Simplification-CL/scheduler.py:79-80 | after a successful pull the supplying source is not flagged, so `all(finished.values())` is false and the `break` never fires |
| Interleave.YieldPreserves | Text-Simplification-CL/scheduler.py:67-72 | a yield hands out the next batch of the supplying source, so the per-source order, the drained-only flags and the log count still hold |
| Interleave.LiveSourceExists | Text-Simplification-CL/scheduler.py:62-70 | while fewer than `L1 + L2 + L3` batches have been yielded, some source still has a batch, so the retry loop has a live source to reach |
| Interleave.StepsPreserve | Text-Simplification-CL/scheduler.py:64-80 | every step keeps the state consistent; a completed run has yielded one batch per pick; a run that ran out of re-picks stopped short of that |
| Interleave.RetryReaches | Text-Simplification-CL/scheduler.py:66-74 | the retry loop ends no later than the first re-pick naming a source with batches left |
| Interleave.FairStep | Text-Simplification-CL/scheduler.py:66-74 | if every window of `w` re-picks names all three ids, one step succeeds within `w` re-picks |
| Interleave.StepsCompleteWhenFair | Text-Simplification-CL/scheduler.py:64-80 | with such fair re-picks and `w` of them per remaining step, the loop runs to completion |
| Interleave.FairStepOnce | Text-Simplification-CL/scheduler.py:64-80 | with fair re-picks, one step from a consistent state succeeds and leaves a consistent state with one more batch and still `w` re-picks for each remaining step; if the loop completes from there, it completes from the step before |
| Interleave.StepOnce | Text-Simplification-CL/scheduler.py:64-80 | a successful pull from a consistent state continues the loop (no early break) from a consistent state with one more batch, having consumed exactly the re-picks the retry loop used |
| Interleave.GetBatchesInOrder | Text-Simplification-CL/scheduler.py:62-77 | for any picks, the batches from each source come out in that source's order, each at most once; a finished flag means the source is drained; the log has one entry per yield plus one per failed pull |
| Interleave.GetBatchesComplete | Text-Simplification-CL/scheduler.py:62-80 | a completed run yields exactly `L1 + L2 + L3` batches and drains every source fully and in order, including zero-length ones |
| Interleave.FullRunDrains | Text-Simplification-CL/scheduler.py:62-80 | once a consistent state has yielded `L1 + L2 + L3` batches, every cursor is at its source's end and each source has been handed out in full, in order |
| Interleave.GetBatchesTerminates | Text-Simplification-CL/scheduler.py:64-80 | if every window of `w` re-picks names all three ids and `w * n` re-picks are supplied, the run completes |
| Interleave.ScenarioFirstStep | Text-Simplification-CL/scheduler.py:66-77 | with source 2 empty, a pick of 2 followed by re-picks 2 and 1 logs `[2, 1, 1]`: the replacement ids, then the supplier |
| Interleave.ScenarioSecondStep | Text-Simplification-CL/scheduler.py:66-77 | a later pick of the finished source 2 fails over again and logs `[3, 3]` |
| Interleave.EmptySourceScenario | Text-Simplification-CL/scheduler.py:49-81 | sources `[10]`, `[]`, `[30]` with every weighted pick naming the empty source: both batches are yielded, the log is `[2, 1, 1, 3, 3]`, only source 2 is flagged |
| Collate.CollateFn | Text-Simplification-CL/run_all.py:48-54 | three lists as long as the batch, whose k-th entries are the first, second and third components of the k-th triple |
| Collate.CollateEmpty | Text-Simplification-CL/run_all.py:48-54 | an empty batch gives three empty lists |
| Collate.ZipCollate | Text-Simplification-CL/run_all.py:48-54 | zipping the three lists gives back the batch, so collating loses nothing |
| Collate.CollateZip | Text-Simplification-CL/run_all.py:48-54 | any three lists of equal length are the collation of their zip |
| Collate.CollateConcat | Text-Simplification-CL/run_all.py:50-53 | input order is kept: collating a concatenation concatenates the collated parts |

## Left out

- Probability: `random.choices` and `random.choice` (scheduler.py lines 39 and 74) are oracles. No distribution is modelled. In the code both draws share one global generator; the model gives them separate oracles.
- Interleave.GetBatchesTerminates: it proves termination of the retry loop under a window-fairness condition on the supplied re-picks, not almost-sure termination of uniform sampling.
- Generator mechanics: laziness, abandoning the generator midway, and when the `finally` append runs relative to `yield` are not modelled. A run is modelled as a completed computation.
- Iterator behaviour: `StopIteration` is "cursor at the end of the sequence". The model assumes `len(loader)` equals the number of batches a loader produces, and that an exhausted iterator keeps raising.
- The logging calls (scheduler.py lines 45 and 81), the unused `weights_by_step` in `choose_number` (lines 29-33) and its ignored `return choices` (line 46).
- The rest of run_all.py is left out: model and tokenizer setup, BLEU/SARI scoring, checkpoint I/O, the torch training loop and argument parsing. All of it is I/O, floating point or calls into external libraries.
- decoder.py is not part of this model: it is an interactive input loop around an external model's `generate`.
