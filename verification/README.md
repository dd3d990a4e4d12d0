# EmceeFitter in Dafny

A model of `EmceeFitter.py`, a chi-squared fitter that estimates the parameters
of a user-supplied model function by Markov-Chain Monte Carlo sampling with the
`emcee` ensemble sampler. The model covers the fitter's own decision logic:

- **`Fitter`** (`fitter.dfy`, module `BaseFitter`): ordered parameter ranges,
  the construction keywords and their defaults (100 walkers, 1 thread, no
  burn-in, 1000 steps), seeding of the `nWalkers x nDim` walker matrix, the
  strict uniform prior and the prior-family dispatch.
- **`EmceeChi2Fitter.lnLike` / `lnProb`** (`chi2.dfy`, module `Chi2`): the
  chi-squared log-likelihood with errors or with model-value weighting, the
  absorption of every failure into `-float_info.max`, and the log-posterior
  that short-circuits to `-inf` when the prior rejects.
- **Chain post-processing** (`chain.dfy`, module `ChainFilter`): the
  `lnprobs > -float_info.max` filter, which keeps order and alignment, and the
  first-maximum choice of the best vector.
- **`EmceeChi2Fitter.__call__`** (`run.dfy`, module `Run`): resolution of the
  run arguments against the stored settings, re-seeding on a supplied walker
  count, the burn-in / no-burn-in sequence of sampler calls, and the whole call.

Supporting modules: `outcomes.dfy` (`Option`, the raised errors, `Result`)
and `floats.dfy` (`MaxFloat` = 2^1024 - 2^971 exactly, the sentinel, and the
`NegInf | Fin(v)` log-probability).

Modelling choices:
- Reals stand for doubles. A value is finite when its magnitude is at most
  `MaxFloat`. `-np.inf` is the `NegInf` constructor.
- The user's model function is a parameter `(xobs, theta) -> Option<seq<real>>`;
  `None` means it raised.
- `np.random.uniform(lo, hi)` is `lo + (hi - lo) * u`, for a unit draw `u` in
  `[0, 1)`. The draws come from an injected stream `draw: nat -> real`, taken
  in row-major order (walker, then parameter).
- The ensemble sampler is external. `__call__` is modelled up to the
  sampler: the walker count, dimension and thread count it is built with, and
  the list of run/reset calls made on it. The flattened chain the sampler
  accumulated is an input.

Behaviour of the code that the model keeps:
- Parameters are linear throughout. There is no logarithmic scale, either
  when the likelihood is evaluated or when the chain is returned.
- Any supplied walker count re-seeds the walkers, even when it equals the
  stored count.
- Walker entries are drawn from the half-open `[lo, hi)` of numpy's `uniform`.
- If no sample survives the filter, `max` of the empty sequence raises.

## Model

| member | source | states |
|---|---|---|
| BaseFitter.UniformDraw | EmceeFitter.py:34 | a draw `lo + (hi - lo) * u` with `u` in `[0, 1)` lands in `[lo, hi)` (in `(hi, lo]` when the bounds are swapped, at `lo` when they are equal) |
| BaseFitter.InitialParameters | EmceeFitter.py:29-38 | for the uniform prior: a fresh matrix of exactly `nWalkers` rows of `nDim` entries, every entry in its column's range, entry `(w, p)` taken from draw number `w * nDim + p`; any other prior raises `UnsupportedPrior` and yields no matrix |
| BaseFitter.UniformPrior | EmceeFitter.py:40-45 | returns `0.0` exactly when every component paired by `zip` satisfies `lo < v < hi` for its own range, and `-inf` otherwise; a value equal to either bound is rejected |
| BaseFitter.PriorChoice | EmceeFitter.py:47-51 | raises exactly when the prior name is not "uniform"; otherwise `0.0` for a vector strictly inside the ranges and `-inf` for any other vector |
| BaseFitter.ResolveKeywordsAsWritten | EmceeFitter.py:14-17 | as written, keyword resolution raises exactly when `threads` is supplied, and otherwise agrees with the corrected resolution |
| BaseFitter.ThreadsKeywordRaises | EmceeFitter.py:15 | supplying `threads=4` raises under the code as written, while the corrected resolution stores 4 |
| BaseFitter.NewFitter | EmceeFitter.py:12-22 | construction stores the resolved settings, the ranges and the prior name, and leaves a valid walker matrix; it raises exactly when the prior is not "uniform" |
| Chi2.Weights | EmceeFitter.py:77-80 | with errors the divisors are the squared errors, one per error, never negative, and zero exactly where an error is zero |
| Chi2.ChiTerms | EmceeFitter.py:78-80 | one chi term per observation; a term with a positive divisor is non-negative; a term whose prediction equals its observation is zero |
| Chi2.SumNonNegative | EmceeFitter.py:81 | a sum of non-negative terms is non-negative |
| Chi2.Evaluate | EmceeFitter.py:73-85 | a raising model gives `Raised`; a successful evaluation is a finite double whose double is also finite (so it is never the sentinel), had predictions (and errors, when given) aligned with the observations, and had no zero divisor |
| Chi2.LnLike | EmceeFitter.py:72-86 | the log-likelihood is always a finite double; it equals the value of every successful evaluation; a raising model, misaligned arrays, a zero divisor or a chi-squared sum that overflows yield exactly `-float_info.max` |
| Chi2.LnLikePerfectFit | EmceeFitter.py:74-86 | a model that reproduces every observation, with no zero error (or no zero prediction when there are no errors), has log-likelihood exactly `0.0`, the bound `LnLikeNonPositiveWithErrors` allows |
| Chi2.LnLikeNonPositiveWithErrors | EmceeFitter.py:79-81 | with errors supplied the log-likelihood is never above zero |
| Chi2.LnProb | EmceeFitter.py:88-92 | `-inf` whenever `theta` is outside the prior ranges; otherwise `0.0 + lnLike(theta)`; raises exactly when the prior name is not "uniform" |
| Chi2.LnProbIgnoresModelWhenRejected | EmceeFitter.py:88-91 | for a rejected `theta` the result does not depend on the model function, which is never evaluated |
| Chi2.LnProbAboveSentinel | EmceeFitter.py:88-92 | a log-posterior passes the chain filter exactly when the prior accepts and the likelihood evaluation succeeded |
| ChainFilter.Filter | EmceeFitter.py:126-128 | every entry of the reference filter has a log-probability above `-float_info.max` |
| ChainFilter.FilterKeepsExactlyUsable | EmceeFitter.py:126-128 | the filter keeps every usable entry as often as it occurs in the chain and drops every other entry |
| ChainFilter.FilterEmptyIffNoneUsable | EmceeFitter.py:126-130 | the filtered chain is empty, so `max` raises, exactly when no chain entry has a log-probability above `-float_info.max` |
| ChainFilter.WhereUsable | EmceeFitter.py:126 | the `np.where` indices are strictly increasing, in range, point only at usable entries, and include every usable index |
| ChainFilter.Gather | EmceeFitter.py:127-128 | both columns are gathered at the same indices, so the k-th position and the k-th log-probability come from the same chain entry |
| ChainFilter.WhereUsableFilters | EmceeFitter.py:126-128 | gathering at the `np.where` indices equals the reference in-order filter of the chain |
| ChainFilter.FirstMaxIndex | EmceeFitter.py:130-131 | the index returned holds a value at least every other value, and every earlier index holds a strictly smaller value |
| ChainFilter.PostProcess | EmceeFitter.py:123-135 | the kept positions and log-probabilities are the in-order filter of the chain, split into aligned columns; the best vector is the kept position at the first maximum log-probability; it raises `EmptyChain` exactly when the filtered chain is empty |
| Run.Protocol | EmceeFitter.py:110-121 | the chain kept after the calls records exactly `ns` steps per walker; `nb + ns` steps are advanced in all; a reset happens exactly when there is a burn-in; the first advance starts from the seeded positions and every later advance continues from where the previous one ended |
| Run.ResolveRun | EmceeFitter.py:94-105 | each absent argument resolves to its stored setting; a supplied walker count is stored and re-seeds `pos0` with that many in-range rows; nothing else in the state changes; the fitter stays valid |
| Run.Call | EmceeFitter.py:94-135 | the sampler is built with the resolved walker count, the fitter's dimension and the resolved thread count, and driven by the protocol for the resolved burn-in and step counts; a supplied walker count re-seeds that many rows from the draw stream and changes nothing else in the fitter; the kept chain is the filter of the sampler's chain; the best vector is at its first maximum; it raises `UnsupportedPrior` for a non-uniform prior, and otherwise raises exactly when the filtered chain is empty |
| Run.KeptSamplesAccepted | EmceeFitter.py:88-128 | every sample kept from a chain scored by `lnProb` lies strictly inside the prior ranges and had a successful likelihood evaluation |

## Findings

| source | as written | input that shows it | evidently intended | confidence | as-written member | corrected member |
|---|---|---|---|---|---|---|
| EmceeFitter.py:15 | reads the keyword from the undefined name `kwards`, so supplying `threads` raises a NameError | `Fitter(ranges, threads=4)` | `kwargs['threads']`: store the supplied thread count | high (not executed) | BaseFitter.ResolveKeywordsAsWritten, BaseFitter.ThreadsKeywordRaises | BaseFitter.ResolveKeywords, BaseFitter.ResolveKeywordsDefaults |

The constructor and `__call__` in the model use the corrected keyword resolution.

## Left out

- The `emcee.EnsembleSampler` itself (lines 108, 112-124): its construction, `run_mcmc`, `reset` and the flattened chain are an external library. The model records how it is configured and which calls are made, and takes the accumulated chain as an input.
- Random number generation: numpy's generator is replaced by an injected stream of unit draws.
- Thread counts and parallel evaluation of `lnProb`: the count is passed through to the sampler; the concurrency belongs to the library.
- Floating point: rounding and NaN are not modelled, nor is the overflow of a single chi term or of a partial sum. The chi-squared sum `sum(chi)` is checked against `MaxFloat`, and a zero divisor stands for the infinity or NaN numpy produces.
- Chi2.Evaluate: numpy broadcasting of a length-1 prediction or error array is not modelled. Arrays of unequal length count as raising.
- Parameter names: the ranges dictionary becomes the ordered sequence of its values, which fixes the dimension order. Looking a range up by name then means taking it by position.
- BaseFitter.NewFitter: models the corrected keyword lookup, not the NameError at line 15. The as-written behaviour is `ResolveKeywordsAsWritten`.
- Run.Call: the model gives a fitter whose prior name is not "uniform", and which was not re-seeded, the same `UnsupportedPrior`. In the source that exception comes from the sampler's first call of `lnProb`.
- Negative step or walker counts: the counts are natural numbers.
