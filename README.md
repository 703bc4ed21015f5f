# Hyperparameter priors (RoBO `default_priors`)

A Dafny model of the three hyperparameter priors of RoBO's
`robo/priors/default_priors.py`: the bounded (tophat) prior, the horseshoe
shrinkage prior and the log-normal prior. A caller holds one prior per
log-scale hyperparameter. It asks the prior for a log-probability, a
gradient, or `n` samples returned as an `n`-by-1 column. The priors are
immutable value objects, so each one is a `datatype`, and each operation is
a pure function of the prior and its inputs.

- `ext.dfy` (module `ExtReal`): `Ext = NegInf | Fin(r) | PosInf`, the signed
  infinities the priors return instead of raising.
- `arrays.dfy` (module `Arrays`): the numpy operations the priors are built
  from. These are elementwise comparison, the reduction `any` and the reshape
  `v[:, newaxis]`. It also holds `Flatten`, the inverse of that reshape.
- `tophat.dfy` (module `Tophat`): construction with its bounds check,
  `lnprob`, `gradient` and `sample_from_prior`.
- `horseshoe.dfy` (module `Horseshoe`): the pole at zero and the closed-form
  kernel of `lnprob`, and the structure of `sample_from_prior`.
- `lognormal.dfy` (module `Lognormal`): the shape of `sample_from_prior`.

Random draws are parameters. `Tophat.SampleFromPrior` takes the uniform draws
`u`, each in `[0, 1)`. `Horseshoe.SampleFromPrior` takes the Cauchy draws `c`
and the one normal draw `z`. `Lognormal.SampleFromPrior` takes the positive
log-normal draws. `exp` and `log` are uninterpreted functions, passed in as
an `Elementary` value. The only property of `exp` that is assumed is that it
is positive, because the kernel divides by it.

Where the docstrings, or the textbook reading of a prior, differ from the code, the model follows the code:
- `TophatPrior.sample_from_prior` maps a uniform draw in `[0, 1)` affinely
  onto the support. Over exact reals every sample lies in the half-open
  `[min, max)`, not in the closed interval. In doubles the endpoint `max` can
  still be reached by rounding (see "Left out").
- `TophatPrior.gradient` returns the scalar `0` or `-inf`, not a `(D,)` array.
- `HorseshoePrior.lnprob` on a vector with no zero component returns one
  kernel value per component, because numpy broadcasts. The model's
  `LogDensity` keeps this scalar-or-vector distinction.

## Model

| member | source | states |
|---|---|---|
| `Arrays.Less` | robo/priors/default_priors.py:49 | `theta < b` is elementwise: one boolean per component, and entry `i` is `theta[i] < b`. `Any` and `Tophat.LnProb` rely on this pointwise reading |
| `Arrays.Greater` | robo/priors/default_priors.py:49 | `theta > b` is elementwise: one boolean per component, and entry `i` is `theta[i] > b` |
| `Arrays.Equal` | robo/priors/default_priors.py:123 | `theta == b` is elementwise: one boolean per component, and entry `i` is `theta[i] == b`. `Horseshoe.LnProb` relies on this pointwise reading |
| `Arrays.Any` | robo/priors/default_priors.py:49 | `np.any` over a boolean array is true exactly when some element is true, so it is false on an empty array |
| `Arrays.Column` | robo/priors/default_priors.py:70 | `p0[:, np.newaxis]` has one row per value, and row `i` is `[p0[i]]` |
| `Arrays.FlattenColumn` | robo/priors/default_priors.py:70 | the column has exactly one entry per row, and flattening it gives back the original vector, so the reshape loses nothing |
| `Tophat.OutOfBounds` | robo/priors/default_priors.py:49 | the shared test `any(theta < min) or any(theta > max)` holds exactly when some component lies below `min` or above `max` |
| `Tophat.New` | robo/priors/default_priors.py:27-31 | construction fails, with the source's message, exactly when `u_bound <= l_bound`; on success `min` and `max` are the given bounds and the invariant `max > min` holds |
| `Tophat.LnProb` | robo/priors/default_priors.py:49-52 | the result is `0` iff every component is in the closed box `[min, max]`, and `-inf` iff some component is below `min` or above `max`; nothing else is returned |
| `Tophat.Gradient` | robo/priors/default_priors.py:88-91 | `0` inside the closed box and `-inf` outside it, the same sentinel that marks infeasibility in `lnprob` |
| `Tophat.GradientIsLnProb` | robo/priors/default_priors.py:88-91 | `gradient` and `lnprob` agree on every prior and every input |
| `Tophat.BoundsInclusive` | robo/priors/default_priors.py:49 | on a valid prior, any vector (including the empty one) whose components sit exactly on `min` or `max` is in support (both comparisons are strict, so both bounds are inclusive) |
| `Tophat.EmptyInSupport` | robo/priors/default_priors.py:49-52 | the empty vector has no component out of range, so `lnprob` and `gradient` are both `0` |
| `Tophat.Stretch` | robo/priors/default_priors.py:69 | the affine map `min + u*(max-min)` sends the draw `0` to `min` and the value `1` to `max` |
| `Tophat.SampleFromPrior` | robo/priors/default_priors.py:69-70 | given `n` uniform draws there are exactly `n` rows of one column, and row `i` is the affine image `min + u[i]*(max-min)` of its own draw |
| `Tophat.StretchInRange` | robo/priors/default_priors.py:69 | on a valid prior, a draw in `[0, 1)` is mapped into `[min, max)` |
| `Tophat.StretchInvertible` | robo/priors/default_priors.py:69 | the draw is recovered from its sample as `(x - min)/(max - min)`, so distinct draws give distinct samples |
| `Tophat.StretchCoversSupport` | robo/priors/default_priors.py:69 | every point of `[min, max)` is the sample of some draw in `[0, 1)` |
| `Tophat.SamplesInSupport` | robo/priors/default_priors.py:49-70 | on a valid prior every sample lies in `[min, max)`, `lnprob` of each sample row is `0`, and `lnprob` of the whole flattened batch is `0` |
| `Tophat.Example` | robo/priors/default_priors.py:27-91 | for the box `[-3, 3]`: construction succeeds, `lnprob`/`gradient` are `0` at `[0]` and `-inf` at `[5]`, and the bounds `(3, 3)` and `(3, -3)` are rejected |
| `Horseshoe.InnerArgument` | robo/priors/default_priors.py:125 | over exact reals, `1 + 3*(scale/exp(theta))^2` is at least `1`, and equals `1` exactly when `scale` is zero |
| `Horseshoe.Kernel` | robo/priors/default_priors.py:125 | with a zero scale the kernel is the constant `log(log(1))`, whatever the component |
| `Horseshoe.LnProb` | robo/priors/default_priors.py:123-125 | the result is the scalar `+inf` iff some component is exactly `0.0`; otherwise it is one value per component, equal to the kernel `log(log(1 + 3*(scale/exp(theta[i]))^2))` |
| `Horseshoe.Abs` | robo/priors/default_priors.py:142 | `np.abs` is non-negative and equals its argument or its negation |
| `Horseshoe.AbsOfProduct` | robo/priors/default_priors.py:144 | the absolute value of a product is the product of the absolute values |
| `Horseshoe.AbsOfSampleProduct` | robo/priors/default_priors.py:144 | for a magnitude `lamda >= 0`, `|z * lamda * scale| = |z*scale| * lamda` |
| `Horseshoe.Magnitude` | robo/priors/default_priors.py:144 | the quantity one sample logs, `|z * lamda * scale|`, is the shared multiplier `|z*scale|` times the sample's own magnitude `lamda` |
| `Horseshoe.SampleFromPrior` | robo/priors/default_priors.py:142-145 | there are exactly `n` rows of one column, and row `i` is `log|z * |c[i]| * scale|` with the same normal draw `z` in every row |
| `Horseshoe.SamplesShareOneMultiplier` | robo/priors/default_priors.py:142-144 | every sample is `log(|z*scale| * |c[i]|)`: one multiplier, from the one normal draw, shared by the whole batch |
| `Horseshoe.AbsOfScaledMagnitude` | robo/priors/default_priors.py:144 | the logged quantity `|z * |c| * scale|` equals `|z| * |c| * |scale|`, so every sample is the same multiple `|z*scale|` of its own Cauchy magnitude |
| `Horseshoe.SharedDrawTiesSamples` | robo/priors/default_priors.py:144 | because `z` is shared, two Cauchy draws of equal magnitude give identical samples |
| `Horseshoe.ZeroDrawCollapsesBatch` | robo/priors/default_priors.py:144 | a zero normal draw makes every sample of the batch `log 0`, whatever the Cauchy draws were |
| `Horseshoe.Example` | robo/priors/default_priors.py:95-125 | with the default scale `0.1`: `lnprob([0.0])` is `+inf`, `lnprob([1.0])` is the one-element kernel vector, and a zero anywhere in the input gives `+inf` |
| `Lognormal.SampleFromPrior` | robo/priors/default_priors.py:215-218 | `n` positive draws become exactly `n` rows of one column, every entry positive, and flattening the column gives back the draws |

## Left out

- `robo/visualization.py`: plotting, figure saving, and black-box calls into
  the model, acquisition and objective functions. It has no logic to state.
- `LognormalPrior.lnprob`: a single call to scipy's log-normal log-density.
  That library is not part of this model.
- `HorseshoePrior.gradient` and `LognormalPrior.gradient`: their bodies are
  `pass`, so they return `None`. There is no behaviour to model.
- The base prior class `robo/priors/base_prior.py` is not part of this model.
- The numeric values of `exp` and `log` are left out. So are the
  floating-point effects on them: `log(0) = -inf`, an `exp` that underflows
  to `0`, and overflow to `inf`. These are opaque functions on reals.
- NaN: numpy comparisons with NaN are false, so a NaN component passes the
  tophat test. Dafny reals have no NaN.
- The distributions of `np.random.rand`, `standard_cauchy`, `randn` and
  `lognormal`, and the global random state. The draws are inputs, and only
  their ranges are assumed: `[0, 1)` for the uniform draws and positive for
  the log-normal draws.
- `Tophat.SampleFromPrior`, `Horseshoe.SampleFromPrior` and
  `Lognormal.SampleFromPrior` take `n` as a `nat`. A negative sample count,
  which numpy rejects with an error, is not modelled.
- `Lognormal.SampleFromPrior` does not relate the draws to `mean` and
  `sigma`, because that relation is a property of the distribution.
- `Horseshoe.LnProb` keeps the kernel uninterpreted. It does not state that
  the kernel is finite, only that its inner argument is at least 1.
- Constructor defaults are the constants `Horseshoe.DefaultScale` (`0.1`) and
  `Lognormal.DefaultMean` (`0`). The horseshoe and log-normal constructors
  only store their arguments, so the datatype constructors model them.
- `Tophat.SampleFromPrior`, `Tophat.StretchInRange` and
  `Tophat.SamplesInSupport` hold over exact reals only. In doubles the sum
  `min + u*(max-min)` is rounded: with `min = 1.0`, `max = 2.0` and the
  largest draw `u = 1 - 2^-53`, the sample rounds to exactly `max`. Near
  `±1.8e308`, `max - min` overflows to `inf`. The model does not capture
  either effect.
- `Lognormal.SampleFromPrior` requires every draw to be positive.
  `np.random.lognormal` can underflow to `0.0` in doubles, and the model
  excludes that draw.
- `Horseshoe.InnerArgument` and `Horseshoe.LnProb` hold over exact reals
  only. In doubles, `1 + 3*(scale/exp(theta))^2` rounds to exactly `1.0`
  once `3*(scale/exp(theta))^2` falls below `2^-53`. For the default scale
  `0.1` that happens near `theta = 16.6`, so `lnprob([20.0])` is `[-inf]`.
  The model's "`= 1` only at zero scale" does not hold there.
- The horseshoe sampler's single shared normal draw is reproduced as written.
  The model does not decide whether the authors meant it.
