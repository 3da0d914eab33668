# Binomial distribution simulation, modelled in Dafny

The repository is a single Python class, `BinomialDistSimulation`. It stores a
success probability `p` and a trial count `n`. It checks them before a run. A
run fills a results series with one Bernoulli trial per index, and a tally
counts the successes and the failures in that series.

`binomial_simulation.dfy` holds one module, `BinomialSimulation`:

- `Num` is a Python number together with its type (`IntNum` or `FloatNum`).
  The parameter check accepts only an int trial count and only a float
  probability, so an integer `0` or `1` is a rejected probability. Python's
  `bool` is a subclass of `int`, so `True` and `False` are `IntNum(1)` and
  `IntNum(0)`.
- The class `BinomialDistSimulation` has the source's three fields: `p`, `n`
  and `results` (a `seq<bool>` standing for the pandas series). The setters and
  `GenerateSimulation` reassign them. The other queries are functions that
  read them.
- The uniform random generator is injected. `GenerateSimulation(draws)` gets
  the draws it consumes, each in `[0, 1)`. `BernoulliTrial(draw)` is the
  strict comparison `draw < p`.
- `RunResults` says what the results series holds after a valid run. `CountTally`
  is the tally, counted recursively and specified by the multiset of the
  results.

## Where the code and its own comment disagree

The comment at line 81 says the results list is cleared first; line 82 does
not do it. Line 82 calls `Series.drop`, which is not in place, and
throws away its result, so nothing is cleared. The loop then writes positions
`0..n-1`, overwriting or appending. Entries at positions `n` and beyond from an
earlier, longer run stay in place. The model follows the code:

- `RunResults` keeps those entries, and its length is `max(old length, n)`.
- `LongerPriorSurvives` and `ShrinkingRerun` show that the tally then counts
  the stale entries.
- `ShortPriorReplaced` and `RerunOverwrites` show that the run nevertheless
  ends as if the list had been cleared whenever no earlier run was longer.

## Model

| member | source | states |
|---|---|---|
| `BinomialSimulation.BinomialDistSimulation.constructor` | binomial_distribution_class.py:17-21 | `p` and `n` are stored exactly as given, without validation, and the results start empty |
| `BinomialSimulation.BinomialDistSimulation.BernoulliTrial` | binomial_distribution_class.py:24-27 | a trial succeeds iff its draw is strictly below `p`; for draws in `[0,1)`, `p = 0` never succeeds and `p = 1` always succeeds |
| `BinomialSimulation.BinomialDistSimulation.ToString` | binomial_distribution_class.py:30-47 | the description starts with the heading and the probability label, the rendered `p` can be read back right after them, followed by the `"\n\t"` separator and the trials label, the rendered `n` sits just before the final newline, and the total length is fixed by the two renderings |
| `BinomialSimulation.BinomialDistSimulation.GetPSuccess` | binomial_distribution_class.py:50-51 | returns the stored probability, so it gives back whatever `SetPSuccess` stored |
| `BinomialSimulation.BinomialDistSimulation.SetPSuccess` | binomial_distribution_class.py:54-55 | stores any value, valid or not; `n` and the results are unchanged |
| `BinomialSimulation.BinomialDistSimulation.GetNTrials` | binomial_distribution_class.py:58-59 | returns the stored trial count, so it gives back whatever `SetNTrials` stored |
| `BinomialSimulation.BinomialDistSimulation.SetNTrials` | binomial_distribution_class.py:62-63 | stores any value, valid or not; `p` and the results are unchanged |
| `BinomialSimulation.BinomialDistSimulation.GenerateSimulationChecks` | binomial_distribution_class.py:66-73 | true iff `n` is an int with `n >= 1` and `p` is a float with `0 <= p <= 1`, both ends inclusive; an int-typed `p` is rejected |
| `BinomialSimulation.BinomialDistSimulation.GenerateSimulation` | binomial_distribution_class.py:76-86 | warns iff the check fails, and then changes nothing; otherwise the results become `RunResults(old results, draws, p, n)`; `p` and `n` never change |
| `BinomialSimulation.BinomialDistSimulation.GetCurrentSimulation` | binomial_distribution_class.py:89-93 | returns the "no data" sentinel iff there are no results, and otherwise the stored results themselves |
| `BinomialSimulation.BinomialDistSimulation.ReturnCurrentTally` | binomial_distribution_class.py:96-103 | `success` is the number of true results and `fail` the number of false results; they sum to the number of results and are both 0 when there are none |
| `BinomialSimulation.CountTally` | binomial_distribution_class.py:99-100 | counts the true and the false entries of a sequence, agreeing with its multiset, with counts that sum to its length |
| `BinomialSimulation.RunLength` | binomial_distribution_class.py:82-86 | a valid run leaves `max(old length, n)` results, which is exactly `n` when no longer run came before |
| `BinomialSimulation.RerunOverwrites` | binomial_distribution_class.py:82-86 | running twice with the same `n` gives the same results as the second run alone, so nothing is appended |
| `BinomialSimulation.ShortPriorReplaced` | binomial_distribution_class.py:82-86 | over earlier results no longer than `n`, a run's results do not depend on them |
| `BinomialSimulation.LongerPriorSurvives` | binomial_distribution_class.py:81-86 | over a longer earlier run, the entries from position `n` on are kept, and the tally covers all of them |
| `BinomialSimulation.AllFalseTally` | binomial_distribution_class.py:99-100 | a sequence with no true entry tallies as `{success: 0, fail: length}` |
| `BinomialSimulation.AllTrueTally` | binomial_distribution_class.py:99-100 | a sequence with no false entry tallies as `{success: length, fail: 0}` |
| `BinomialSimulation.FreshRunAtZero` | binomial_distribution_class.py:76-103 | after a run of `n` trials from empty results with `p = 0`, the tally is `{success: 0, fail: n}` |
| `BinomialSimulation.FreshRunAtOne` | binomial_distribution_class.py:76-103 | after a run of `n` trials from empty results with `p = 1`, the tally is `{success: n, fail: 0}` |
| `BinomialSimulation.DominatedSuccesses` | binomial_distribution_class.py:99 | of two equally long result sequences, the one that succeeds wherever the other does counts at least as many successes |
| `BinomialSimulation.RunMonotone` | binomial_distribution_class.py:24-27 | over the same draws and the same earlier results, a run with a higher probability counts at least as many successes |
| `BinomialSimulation.DescriptionIgnoresResults` | binomial_distribution_class.py:30-47 | two objects with the same parameters have the same description, whatever their results |
| `BinomialSimulation.AccessorRoundTrip` | binomial_distribution_class.py:50-73 | on one object, each getter returns exactly what its setter stored, valid or not (an `IntNum(-7)` trial count comes back as is), and only the parameter check judges validity |
| `BinomialSimulation.ShrinkingRerun` | binomial_distribution_class.py:76-103 | driving an object through its own operations: a fresh run of 3 trials with `p = 0.0` tallies `{0, 3}`; after `n` is set to 1 and the object runs again, the tally still covers 3 results |

## Left out

- The random generator (`np.random.rand`, line 26) is a global, nondeterministic source. It is replaced by the `draws` parameter. Each draw is required to lie in `[0, 1)`, and a valid run is required to get at least `n` draws.
- IEEE floating point is left out: probabilities and draws are Dafny `real`, so NaN and infinities are not modelled. The code only compares these values.
- pandas and numpy container details are left out: the series dtype, the index labels (always `0..len-1` here), and `np.nan` as a value. The results are a `seq<bool>`, the `nan` sentinel is `Current.NoData`, and the tally series is the `Tally` pair.
- `GetCurrentSimulation` returns the series by reference in the source, so a caller can later see or cause changes to it. The model returns a value, so this aliasing is not captured.
- Printed diagnostics are output only (lines 78 and 91). The line-78 warning is the `warned` result of `GenerateSimulation`. The line-91 warning happens exactly when `GetCurrentSimulation` returns `NoData`.
- `print_current_tally` (lines 106-107) only prints `ReturnCurrentTally`, so it is not modelled.
- `ToString` does not model Python's `str()` of numbers. The rendering is the `show` parameter, and only the fixed labels and layout are stated. The unused `results` string at line 32 has no effect and is not modelled.
- The module-level demonstration at lines 110-112 runs when the module is imported. It is not modelled; `ShrinkingRerun` exercises the same operations.
- Parameter values that are neither ints nor floats (strings, `None`) are not modelled. For `n`, line 68 compares it with `1` first, which raises `TypeError` in Python. For `p`, line 70 tests `isinstance(p, float)` before any comparison, so a non-number probability is rejected softly (the check returns False, and the getters and the description still work); that soft rejection is not modelled.
