# eeyore MCMC core in Dafny

This project models the sampling core of the eeyore Bayesian-inference
library:

- **the Monte Carlo chain store** `MCChain` (`mcchain.dfy`, module `MCChains`).
  It keeps a dictionary from field name to a list of recorded values. The store
  can be reset, appended to one record at a time, and queried for its length,
  last state, a theta coordinate across samples, the sample mean and the
  acceptance rate.
- **the Metropolis-Hastings sampler** (`metropolis_hastings.dfy`, module
  `MetropolisHastingsSampler`). Each data batch goes through one cycle: propose,
  score, compute the log acceptance rate (symmetric or asymmetric kernel),
  accept or reject, and optionally record the new state in the chain.
- **the Metropolis-adjusted Langevin sampler, MALA** (`mala.dfy`, module
  `MalaSampler`), in its unconstrained branch. It has the same cycle. The
  proposal is the Langevin drift `theta + step/2 * grad` plus scaled Gaussian
  noise, and the rate carries the forward and reverse proposal corrections.
- **shared numerics** (`numerics.dfy`, module `Numerics`): vectors of reals
  with coordinate-wise operations, sums, means, squared norms, and `log(u)` for
  a uniform draw `u`.

Each stateful entity is a class whose fields its methods change:
- `MCChain.vals` is a `map<string, seq<Value>>`.
- The sampler's `current` dictionary is a set of fields.
- The kernel's centre and the model parameters are fields too.

Each method is proved against specification functions:
- `Appended` is one `update`;
- `Step` is one sampler cycle;
- `Run` is a whole `draw`;
- `Records` is what a saving `draw` appends.

Lemmas state the properties of those functions.

Randomness is an input. Each cycle of a `draw` takes a `Cycle` value holding:
- the batch;
- the kernel's sample (Metropolis-Hastings) or the scaled noise
  `sqrt(step) * z` (MALA);
- `log(u)` for the uniform draw `u`. Because `u = 0` is possible, `log(u)` is
  either minus infinity or a negative real.

The model's log-target, its value-and-gradient oracle and the kernel's
log-density are function-valued parameters.

In the asymmetric case the code overwrites the symmetric log-rate. It then
adds the proposed target value back, so it never subtracts the current target
value (metropolis_hastings.py:41-45). The textbook Hastings log ratio
(`HastingsLogRate`) does subtract it. The model follows the code.
`AsymmetricRateOmitsCurrentTarget` proves the exact offset between the two.

## Model

| member | source | states |
|---|---|---|
| MCChains.MCChain.constructor | eeyore/mcmc/mcchain.py:7-9 | the declared keys are stored and every one of them maps to an empty list |
| MCChains.Empty | eeyore/mcmc/mcchain.py:17-18 | the reset store has exactly the declared keys, each with an empty list |
| MCChains.MCChain.Reset | eeyore/mcmc/mcchain.py:17-18 | the store becomes the empty store over the declared keys, and the length is 0 when `theta` is declared |
| MCChains.MCChain.Length | eeyore/mcmc/mcchain.py:14-15 | when all lists have equal length, every list has the returned length |
| MCChains.Count | eeyore/mcmc/mcchain.py:35-36 | the number of listings of a key is at most the number of keys, and zero exactly when the key is not listed |
| MCChains.CountDistinct | eeyore/mcmc/mcchain.py:35-36 | in a list of distinct keys a listed key occurs once |
| MCChains.Column | eeyore/mcmc/mcchain.py:21 | one entry per stored tensor, in order, entry `j` being coordinate `i` (Python indexing, negative from the end) of tensor `j` |
| MCChains.MCChain.GetTheta | eeyore/mcmc/mcchain.py:20-21 | the result has the chain's length and entry `j` is coordinate `i` of the `j`-th stored theta |
| MCChains.LastValues | eeyore/mcmc/mcchain.py:23-31 | a key is present exactly when its list is non-empty, and maps to the last element of its list |
| MCChains.EmptyKeys | eeyore/mcmc/mcchain.py:26-30 | exactly the keys whose list is empty, which are the ones the source warns about |
| MCChains.MCChain.State | eeyore/mcmc/mcchain.py:23-31 | the loop over the lists returns the last values of the non-empty lists and the set of keys it warns about |
| MCChains.Appended | eeyore/mcmc/mcchain.py:33-36 | the appending loop keeps the set of keys of the store |
| MCChains.AppendedOneMore | eeyore/mcmc/mcchain.py:35-36 | one more iteration of the loop appends `s[key]` to the list of `key` |
| MCChains.AppendedAt | eeyore/mcmc/mcchain.py:35-36 | an undeclared key's list is unchanged; a declared key's list keeps its old entries and gains one copy of `s[k]` per listing of `k` |
| MCChains.AppendedOnce | eeyore/mcmc/mcchain.py:35-36 | with distinct keys every list gains exactly `s[k]` at its end |
| MCChains.MCChain.Update | eeyore/mcmc/mcchain.py:33-36 | the store after the loop is `Appended` of the old store, and still has exactly the declared keys |
| MCChains.UpdateKeepsEqualLengths | eeyore/mcmc/mcchain.py:33-36 | with distinct keys, lists of equal length stay of equal length and each grows by exactly one |
| MCChains.RestrictToKeySet | eeyore/mcmc/mcchain.py:35 | restricting a record to the set of the declared keys equals restricting it to the key list |
| MCChains.StateAfterUpdate | eeyore/mcmc/mcchain.py:23-36 | right after `update(s)`, for any key list including one with repeated keys, `state()` is `s` restricted to the declared keys and warns about nothing |
| MCChains.AppendRecords | eeyore/mcmc/mcchain.py:33-36 | a run of updates keeps the set of keys of the store |
| MCChains.AppendRecordsOneMore | eeyore/mcmc/mcchain.py:33-36 | one more record in a run is one more `update` |
| MCChains.AppendRecordsFieldAt | eeyore/mcmc/mcchain.py:33-36 | with distinct keys, after a run of updates the list of `k` is its old entries followed by field `k` of each record in turn |
| MCChains.AppendRecordsFields | eeyore/mcmc/mcchain.py:33-36 | the same, for every key at once |
| MCChains.FilledFromEmpty | eeyore/mcmc/mcchain.py:17-36 | with distinct keys, a chain reset and then updated by a run of records holds, for each key, exactly that field of each record in turn |
| MCChains.VecSum | eeyore/mcmc/mcchain.py:40-41 | the stacked sum has the shape of a theta; `VecSumColumn` gives its coordinates |
| MCChains.VecSumColumn | eeyore/mcmc/mcchain.py:40-41 | coordinate `j` of the stacked sum is the sum of coordinate `j` of every stored theta |
| MCChains.MCChain.Mean | eeyore/mcmc/mcchain.py:38-41 | the mean has the shape of a theta and coordinate `j` is the average of `get_theta(j)` |
| MCChains.MeanOfConstant | eeyore/mcmc/mcchain.py:38-41 | a chain whose stored thetas are all `v` has mean `v` |
| MCChains.MeanOfOne | eeyore/mcmc/mcchain.py:38-41 | a chain holding the single theta `v` has mean `v` |
| MCChains.Numbers | eeyore/mcmc/mcchain.py:45 | the float tensor built from the list has one entry per value, in order |
| MCChains.FlagAverageBounds | eeyore/mcmc/mcchain.py:43-46 | the mean of a non-empty list of 0/1 flags lies in [0, 1] |
| MCChains.MCChain.AcceptanceRate | eeyore/mcmc/mcchain.py:43-46 | no rate (NaN in the source) exactly when the list is empty; otherwise the mean of the recorded values, in [0, 1] when they are 0/1 flags |
| MCChains.AllAcceptedRate | eeyore/mcmc/mcchain.py:43-46 | a non-empty list of all 1s has rate exactly 1 |
| MCChains.AllRejectedRate | eeyore/mcmc/mcchain.py:43-46 | a non-empty list of all 0s has rate exactly 0 |
| Numerics.Average | eeyore/mcmc/mcchain.py:41 | the mean of a non-empty list; `AverageConstant` and `AverageBounds` give its value on a constant list and its bounds for entries in [0, 1] |
| Numerics.AverageConstant | eeyore/mcmc/mcchain.py:41 | the mean of a constant non-empty list is that constant |
| Numerics.AverageBounds | eeyore/mcmc/mcchain.py:46 | the mean of entries in [0, 1] lies in [0, 1] |
| Numerics.SqNorm | eeyore/mcmc/samplers/mala.py:52 | `torch.sum(a ** 2)` is never negative; `SqDistanceSymmetric` and `ForwardDeviationIsNoise` relate it to the proposal |
| Numerics.Below | eeyore/mcmc/samplers/metropolis_hastings.py:47 | the test `log(u) < log_rate` passes for every uniform draw when the log-rate is not negative |
| Numerics.SqDistanceSymmetric | eeyore/mcmc/samplers/mala.py:52 | the squared deviation `sum((a - b) ** 2)` is symmetric in `a` and `b` |
| MetropolisHastingsSampler.LogRate | eeyore/mcmc/samplers/metropolis_hastings.py:40-45 | the log-rate the code computes; `SymmetricRateIsHastings` and `AsymmetricRateOmitsCurrentTarget` relate it to `HastingsLogRate` |
| MetropolisHastingsSampler.SymmetricRateIsHastings | eeyore/mcmc/samplers/metropolis_hastings.py:40 | for a kernel with symmetric density the symmetric rate `target' - target` is the Hastings log ratio |
| MetropolisHastingsSampler.AsymmetricRateOmitsCurrentTarget | eeyore/mcmc/samplers/metropolis_hastings.py:41-45 | with the kernel centred at the current theta, the asymmetric rate the code computes equals the Hastings log ratio plus the current target value |
| MetropolisHastingsSampler.Step | eeyore/mcmc/samplers/metropolis_hastings.py:40-54 | accept exactly when `log(u)` is below the rate; on accept theta and target take the proposed values, and an asymmetric kernel is recentred at the proposal; on reject theta and target are kept, the model's params are set to theta and the kernel is recentred there |
| MetropolisHastingsSampler.Run | eeyore/mcmc/samplers/metropolis_hastings.py:36 | after at least one batch an accept decision is recorded, and an asymmetric kernel is centred at the current theta |
| MetropolisHastingsSampler.ToRecord | eeyore/mcmc/samplers/metropolis_hastings.py:56-59 | the appended record has exactly the keys of `current` |
| MetropolisHastingsSampler.Records | eeyore/mcmc/samplers/metropolis_hastings.py:56-59 | a saving draw produces one record per batch, each with the keys of `current` |
| MetropolisHastingsSampler.RecordCoversKeys | eeyore/mcmc/samplers/metropolis_hastings.py:56-59 | the record carries every key of a chain whose keys are keys of `current`, so `update` cannot fail on it |
| MetropolisHastingsSampler.RunOneMore | eeyore/mcmc/samplers/metropolis_hastings.py:36 | one more batch is one more cycle and one more record |
| MetropolisHastingsSampler.SavedOneMore | eeyore/mcmc/samplers/metropolis_hastings.py:56-59 | one more saving batch is one more `update` with the new state |
| MetropolisHastingsSampler.RecordIsStateAfterCycle | eeyore/mcmc/samplers/metropolis_hastings.py:56-59 | record `i` is the post-decision state after batch `i` |
| MetropolisHastingsSampler.FlatTargetAcceptsAll | eeyore/mcmc/samplers/metropolis_hastings.py:40-50 | with a symmetric kernel and a constant target, every cycle accepts whatever the draws, the state ends at the last proposal and every record says accepted |
| MetropolisHastingsSampler.FlatTargetFullAcceptanceRate | eeyore/mcmc/samplers/metropolis_hastings.py:40-59 | such a run saved into an empty default chain records only 1s and has acceptance rate exactly 1 |
| MetropolisHastingsSampler.MetropolisHastings.constructor | eeyore/mcmc/samplers/metropolis_hastings.py:8-20 | the sampler keeps its target, kernel, flag and chain, and its state is the reset state at `theta0` with no accept decision |
| MetropolisHastingsSampler.MetropolisHastings.Reset | eeyore/mcmc/samplers/metropolis_hastings.py:27-31 | theta becomes `theta0` and the target value is the log-target at `theta0` on the first batch; nothing else changes |
| MetropolisHastingsSampler.MetropolisHastings.Advance | eeyore/mcmc/samplers/metropolis_hastings.py:37-59 | the loop body moves the state by one `Step` and, when saving, appends the new state to the chain, which is otherwise untouched |
| MetropolisHastingsSampler.MetropolisHastings.Draw | eeyore/mcmc/samplers/metropolis_hastings.py:33-62 | the state after the loop is `Run` of the batches; the chain gains exactly `Records` when saving and is untouched otherwise |
| MalaSampler.ProposalMean | eeyore/mcmc/samplers/mala.py:33 | the drift mean has theta's length and coordinate `i` is `theta[i] + 0.5 * step * grad[i]` |
| MalaSampler.NoDriftAtZeroGradient | eeyore/mcmc/samplers/mala.py:33 | a zero gradient gives the drift mean `theta` |
| MalaSampler.GaussianTargetDrift | eeyore/mcmc/samplers/mala.py:33 | for the gradient `-theta` of a standard Gaussian target the drift mean is `(1 - step/2) * theta` |
| MalaSampler.Proposal | eeyore/mcmc/samplers/mala.py:35-38 | the proposal `mean + sqrt(step) * z` has theta's length |
| MalaSampler.ForwardDeviationIsNoise | eeyore/mcmc/samplers/mala.py:35-52 | the forward deviation of the proposal from the drift mean is the noise, and so is its squared norm |
| MalaSampler.LogRate | eeyore/mcmc/samplers/mala.py:50-60 | the unconstrained log-rate the code computes; `LogRateIsHastingsRatio` relates it to the Gaussian proposal's log-densities |
| MalaSampler.CycleLogRate | eeyore/mcmc/samplers/mala.py:47-60 | the log-rate of one cycle, at the proposal and its oracle values; `CycleForwardTermIsNoise` gives its forward term |
| MalaSampler.CycleForwardTermIsNoise | eeyore/mcmc/samplers/mala.py:35-60 | a cycle's log-rate is the target difference plus `0.5 * ‖noise‖² / step` minus the reverse correction |
| MalaSampler.LogRateIsHastingsRatio | eeyore/mcmc/samplers/mala.py:50-60 | the rate is the target difference plus the reverse minus the forward log-density of the Gaussian proposal `N(theta + step/2 * grad, step * I)` |
| MalaSampler.FlatLogRateIsZero | eeyore/mcmc/samplers/mala.py:50-60 | with equal target values and zero gradients the rate is 0 |
| MalaSampler.FlatTargetRateIsZero | eeyore/mcmc/samplers/mala.py:47-60 | on a flat target every cycle has rate 0 |
| MalaSampler.Step | eeyore/mcmc/samplers/mala.py:67-74 | a cycle keeps theta's length, keeps the gradient of matching length and records an accept decision |
| MalaSampler.StepOutcome | eeyore/mcmc/samplers/mala.py:67-74 | accept exactly when `log(u)` is below the rate; on accept theta, target and gradient all come from the proposal and one oracle call; on reject all three are kept and the model's params are set to theta |
| MalaSampler.Run | eeyore/mcmc/samplers/mala.py:32 | a run keeps theta's length and gradient shape, and records an accept decision once it has at least one batch |
| MalaSampler.ToRecord | eeyore/mcmc/samplers/mala.py:76-79 | the appended record has exactly the four keys of `current` after a cycle |
| MalaSampler.RecordCoversKeys | eeyore/mcmc/samplers/mala.py:76-79 | the record carries every key of a chain whose keys are keys of `current` |
| MalaSampler.Records | eeyore/mcmc/samplers/mala.py:76-79 | a saving draw produces one record per batch, each with the keys of `current` |
| MalaSampler.RecordsOfInit | eeyore/mcmc/samplers/mala.py:76-79 | dropping the last batch keeps the earlier records |
| MalaSampler.RecordIsStateAfterCycle | eeyore/mcmc/samplers/mala.py:76-79 | record `i` is the post-decision state after batch `i` |
| MalaSampler.RunOneMore | eeyore/mcmc/samplers/mala.py:32 | one more batch is one more cycle and one more record |
| MalaSampler.SavedOneMore | eeyore/mcmc/samplers/mala.py:76-79 | one more saving batch is one more `update` with the new state |
| MalaSampler.FlatTargetRun | eeyore/mcmc/samplers/mala.py:67-71 | on a flat target a non-empty run ends in an accepted cycle whatever the noise and draws, and the target value and gradient stay at the flat level and zero |
| MalaSampler.FlatTargetRecordAccepted | eeyore/mcmc/samplers/mala.py:67-79 | on a flat target record `i` says accepted |
| MalaSampler.FlatTargetAcceptsAll | eeyore/mcmc/samplers/mala.py:67-79 | on a flat target every record says accepted |
| MalaSampler.Mala.constructor | eeyore/mcmc/samplers/mala.py:9-20 | the sampler builds a fresh empty chain over `keys` and its state is the reset state at `theta0` with no accept decision |
| MalaSampler.Mala.Reset | eeyore/mcmc/samplers/mala.py:22-27 | theta becomes `theta0`, and target value and gradient come from one oracle call at `theta0` on the first batch |
| MalaSampler.Mala.Advance | eeyore/mcmc/samplers/mala.py:33-79 | the loop body moves the state by one `Step` and, when saving, appends the new state to the chain, which is otherwise untouched |
| MalaSampler.Mala.Draw | eeyore/mcmc/samplers/mala.py:29-83 | the state after the loop is `Run` of the batches; the chain gains exactly `Records` when saving and is untouched otherwise |
| MalaSampler.DefaultChainOmitsGradient | eeyore/mcmc/samplers/mala.py:9-18 | a chain with the default keys has no `grad_val` list, so the gradient is never recorded |

## Left out

- `MCChain.save` and `MCChain.load` are disk I/O through `torch.save` and `torch.load`. `MCChain.__repr__`, which only formats a string, is left out too.
- `MCChains.MCChain.State`: this does not print the warning. It returns the set of warned-about keys instead.
- `MCChains.MCChain.Update`: the source raises `KeyError` when a declared key is missing from the state. Here that is a precondition.
- `MCChains.MCChain.Length` and `MCChains.MCChain.GetTheta`: a missing `theta` list or an out-of-range coordinate raises in the source. Here these are preconditions.
- `MCChains.MCChain.Mean`: a missing `theta` list raises `KeyError` in the source; here that is a precondition. `torch.stack` needs at least one theta, all of one shape. This is a precondition, not an error path. Tensor broadcasting and other shapes are not modelled.
- `MCChains.MCChain.AcceptanceRate`: a missing `accepted` list raises `KeyError` in the source; here that is a precondition. On an empty list the source returns the NaN of an empty mean. Here that is `None`. Values other than ints and scalars are excluded by a precondition.
- Floating point: every number is a real. Rounding, overflow, NaN and infinities are not modelled, apart from `log(0)` being minus infinity.
- Random number generation is an input. This covers `kernel.sample()`, `torch.randn` scaled by `sqrt(step)`, and `torch.rand`. The model says nothing about their distributions.
- The model's `log_target`, `upto_grad_log_target` and `set_params`, and the `NormalKernel` class, are not part of this model. The oracles are function-valued parameters and total functions. So exceptions are not modelled, and neither are their partial effects. This covers an exception raised by `log_target`, `upto_grad_log_target` or `kernel.log_density`. It also covers the `StopIteration` that `reset` raises on an empty data loader (metropolis_hastings.py:28, mala.py:23). One example of a partial effect: the second `log_density` call (metropolis_hastings.py:45) may raise after line 43 has already recentred the kernel at the proposal. `set_params` and `kernel.set_density` are recorded as the last vector passed. The default kernel construction (metropolis_hastings.py:22-25) is left out, and the caller supplies the kernel's density and centre.
- The Metropolis-Hastings chain is a `ChainList`, which is not part of this model. Here it is an `MCChain` with the same `update` contract. The shared mutable default chain argument is not modelled either: the caller passes the chain.
- MALA's truncated-normal branch (mala.py:39-45, 53-55, 61-65) is a call into scipy's `truncnorm`, and its text does not run as written. The model covers only the unconstrained branch. The branch condition reads the name `truncation`, which `draw` never binds. Here it is read as the constructor's default, unbounded interval.
- The branch conditions at mala.py:35, 51 and 59 each open three parentheses and close two, so mala.py as written does not parse and no part of MALA runs. The model reads the evident condition: `truncation` equals `[-inf, inf]`.
- `MalaSampler.Mala.Draw` and `MalaSampler.Run`: every noise vector must have theta's length, standing for `torch.randn(num_params)`, and the gradient oracle must return gradients of matching length. These are preconditions. The step size must be positive (`step > 0.0` in the constructor and in `ValidConfig`). The source never checks this: with step 0 it computes 0/0, which is NaN, and so rejects every cycle.
- Tensor `clone`, `detach`, `detach_`, dtype and device carry no value semantics and are not modelled. Aliasing between `current` and the recorded tensors is therefore not modelled either.
- The data loader is the sequence of cycles. `reset` takes the first batch as an argument.
