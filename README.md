# Adam driver for the DTW mean, in Dafny

This project models `run` in `app/optimizing/methods/adam.py`. That function is the
epoch/minibatch driver of the Adam optimizer that computes a Frechet (DTW) mean of a
set of time series. A run does the following:

- It allocates `n_steps + 1 = ceil(n_coverage / batch_size) + 1` slots for the
  first- and second-moment estimates `m` and `v`.
- It runs up to `n_epochs` epochs. Each epoch draws a permutation and walks it in
  windows of `batch_size`. Each window is one Adam step: a global step counter `t`,
  the moment recurrences, the bias corrections and the update of the estimate.
- The inner loop stops once the global count of visited samples reaches
  `n_coverage`, or once no full batch is left.
- After each epoch the run writes the objective value into slot `k + 1` of the
  caller's trace `f`. When that value is the minimum of the whole array, it takes a
  snapshot `z_` of the estimate.
- It stops early when the relative improvement `abs((f[k+1] - f[k]) / f[k])` drops
  below `d_converged`.

The project has three files:

- `adam_numerics.dfy` (module `AdamNumerics`): the fixed hyper-parameters, powers
  of the decay rates, the ceiling division that sizes the moment arrays, the
  minimum of the trace, the moment recurrences and the parameter update.
- `adam.dfy` (module `Adam`): the specification and the loop.
  - The specification is a set of functions: one step (`Step`), the number of
    batches an epoch takes (`EpochSteps`), an epoch (`Epoch`), the state after `n`
    epochs (`StateAfter`) and the epoch loop (`RunFrom`, `RunSpec`).
  - The loop is a set of methods over arrays: `StepInPlace`, `BatchInPlace`,
    `EpochInPlace`, `RunEpoch` and `Run`. They write `m[t]`, `v[t]` and `f[k + 1]`
    in place and are proved to compute what the specification says.
- `adam_properties.dfy` (module `AdamProperties`): what a run promises. This covers
  the batch windows, the counters against the allocated slots and the coverage
  budget, the first moments, and the outcome of a whole run. The outcome is given
  in closed form (`RunOutcome`) over the trace (`Trace`), the best snapshot
  (`BestAfter`) and the stopping test (`StopsAfter`). From it follow the trace left
  behind, the stopping rule, the returned estimate being a minimum of the trace,
  and when no snapshot is ever taken.

A run ends in one of three ways (`Status`):

- It returns the snapshot.
- It raises at the `return`, because `z_` was never bound (`UnboundBest`).
- It raises at the write `f[k + 1]` because that slot is past the end of the
  caller's array (`TraceIndexError`). In that case the trace keeps the slots
  written before.

Some behaviours of the code that the model keeps:

- The count of visited samples is never reset between epochs. `n_coverage`
  therefore budgets the whole run, not each epoch. Once the budget is used up,
  every later epoch takes no step (`CoveredStaysIdle`).
- With `0 < n_coverage <= batch_size <= N` the whole run takes exactly one step, in
  its first epoch, and every later epoch leaves the state as it was
  (`OneStepWhenCoverageAtMostBatch`).
- The snapshot is taken only by an epoch. If no epoch's value is the minimum, the
  code raises when it returns `z_`; it never returns the initial estimate
  (`RunUnboundIff`, `RunNoEpochs`).
- The minimum is taken over the whole array `f`, including the slots not yet
  written (`BestUnboundIff`).
- The test is `abs((f[k+1] - f[k]) / f[k]) < d_converged`. The absolute value
  covers the whole quotient. With `f[k] == 0`, IEEE division yields an infinity or
  NaN, which never compares below the threshold, so the test fails
  (`Converged` is false when `prev == 0`).

## Model

| member | source | states |
|---|---|---|
| `AdamNumerics.Pow` | app/optimizing/methods/adam.py:78-79 | np.power(beta, t) for a natural exponent; its bounds are PowInUnitInterval |
| `AdamNumerics.CeilDiv` | app/optimizing/methods/adam.py:35 | int(np.ceil(a / b)) for a >= 0 and b >= 1, non-negative; that it is the ceiling is CeilDivBounds |
| `AdamNumerics.Min` | app/optimizing/methods/adam.py:91 | np.amin of a non-empty trace; that it is the least element is MinIsLeast |
| `AdamNumerics.FirstMoment` | app/optimizing/methods/adam.py:74 | the first-moment recurrence beta1 m + (1 - beta1) g; its first value from zero is FirstStepMoments |
| `AdamNumerics.SecondMoment` | app/optimizing/methods/adam.py:75 | the second-moment recurrence beta2 v + (1 - beta2) g^2; its sign is SecondMomentNonNegative |
| `AdamNumerics.AdamUpdate` | app/optimizing/methods/adam.py:82 | the update z - alpha m_ / (sqrt(v_) + eps), defined because the square root of v_ >= 0 is non-negative; no property of its value is proved |
| `AdamNumerics.PowInUnitInterval` | app/optimizing/methods/adam.py:78-79 | a decay rate in [0, 1) raised to a power t >= 1 stays in [0, 1) |
| `AdamNumerics.BiasDenominatorsPositive` | app/optimizing/methods/adam.py:78-79 | for every step t >= 1 both bias-correction denominators 1 - beta1^t and 1 - beta2^t are positive, so m_ and v_ are defined |
| `AdamNumerics.CeilDivBounds` | app/optimizing/methods/adam.py:35 | n_steps = ceil(n_coverage / batch_size) is the least number of batches covering n_coverage samples: (n_steps - 1) * b < n_coverage <= n_steps * b |
| `AdamNumerics.SecondMomentNonNegative` | app/optimizing/methods/adam.py:75-79 | the second moment and its bias-corrected value stay non-negative, so the square root is taken of a non-negative number |
| `AdamNumerics.MinIsLeast` | app/optimizing/methods/adam.py:91 | np.amin(f) is one of the values of f and no value of f is below it |
| `AdamNumerics.MinAfterUpdate` | app/optimizing/methods/adam.py:91-92 | overwriting another slot with a value that is not the new minimum keeps the minimum held by an earlier slot |
| `Adam.NSteps` | app/optimizing/methods/adam.py:35 | n_steps is non-negative for a positive batch size and a non-negative budget |
| `Adam.Init` | app/optimizing/methods/adam.py:44-50 | the run starts with the single zero moment slot m = [0], v = [0], t = 0, no sample visited and the caller's estimate |
| `Adam.Step` | app/optimizing/methods/adam.py:68-85 | a step keeps one moment slot per step and every second moment non-negative, advances t by one and the sample count by batch_size |
| `Adam.Steps` | app/optimizing/methods/adam.py:56-85 | count steps keep the state well formed and advance t by count |
| `Adam.EpochSteps` | app/optimizing/methods/adam.py:56-65 | the number of batches an epoch takes from offset i under its two breaks; where they lie is EpochStepsWindows |
| `Adam.Epoch` | app/optimizing/methods/adam.py:54-85 | the steps of one epoch over its permutation; its counters are EpochCounters and its behaviour on a spent budget EpochIdle |
| `Adam.Converged` | app/optimizing/methods/adam.py:95-96 | the relative-improvement test, false when f[k] == 0; its use is RunStopRule |
| `Adam.RunFrom` | app/optimizing/methods/adam.py:52-97 | the epoch loop from epoch k with its trace write, snapshot and test; its closed form is RunFromOutcomeAlong |
| `Adam.RunSpec` | app/optimizing/methods/adam.py:30-99 | the whole run from the initial state; its closed form is RunSpecOutcome and the array loop Run computes it |
| `Adam.StateAfter` | app/optimizing/methods/adam.py:52-85 | the state after any number of epochs is well formed |
| `Adam.StepWithinBudget` | app/optimizing/methods/adam.py:45-85 | a step taken while visited < n_coverage, with visited = t * batch_size, writes slot t + 1 <= n_steps of m and v and keeps visited = t * batch_size |
| `Adam.StepInPlace` | app/optimizing/methods/adam.py:68-85 | writing m[t], v[t] in place and updating the estimate yields exactly the state of one specification step |
| `Adam.BatchInPlace` | app/optimizing/methods/adam.py:59-85 | one pass of the inner loop that does not break performs exactly one specification step (t + 1, visited + batch_size), stays within the allocated slots and leaves the rest of the epoch to the offset i + batch_size |
| `Adam.EpochInPlace` | app/optimizing/methods/adam.py:56-85 | the inner loop with its two breaks leaves the arrays and counters in exactly the state of one specification epoch, within the n_steps + 1 slots |
| `Adam.RunEpoch` | app/optimizing/methods/adam.py:52-97 | one pass of the epoch loop leaves the state of one specification epoch; it raises exactly when slot k + 1 is out of range, leaving f and the best estimate unchanged; otherwise f[k + 1] holds the objective of the new estimate and no other slot changes, the best estimate is replaced exactly when that value is the minimum of f, and the stop flag is the convergence test; the loop from epoch k has the specification's outcome |
| `Adam.Run` | app/optimizing/methods/adam.py:30-99 | run returns exactly the status and leaves exactly the trace of the specification run |
| `AdamProperties.EpochStepsWindows` | app/optimizing/methods/adam.py:56-65 | every batch of an epoch is a full window inside the N samples and starts while the budget lasts; after the last one the budget is used up or no full window is left |
| `AdamProperties.StepsVisited` | app/optimizing/methods/adam.py:85 | each step adds batch_size to the visited samples |
| `AdamProperties.EpochCounters` | app/optimizing/methods/adam.py:56-85 | an epoch keeps visited = t * batch_size and t <= n_steps |
| `AdamProperties.StateAfterCounters` | app/optimizing/methods/adam.py:45-85 | after any number of epochs visited = t * batch_size and t <= n_steps, so every write m[t], v[t] is in bounds |
| `AdamProperties.EpochIdle` | app/optimizing/methods/adam.py:59-60 | an epoch entered with the budget used up changes nothing |
| `AdamProperties.CoveredStaysIdle` | app/optimizing/methods/adam.py:49-60 | once the visited samples reach n_coverage, every later epoch leaves the state unchanged |
| `AdamProperties.OneStepWhenCoverageAtMostBatch` | app/optimizing/methods/adam.py:49-85 | with 0 < n_coverage <= batch_size <= N the whole run takes exactly one step, in the first epoch |
| `AdamProperties.FirstStepMoments` | app/optimizing/methods/adam.py:74-75 | the first step from the zero moments gives m[1] = (1 - beta1) g and v[1] = (1 - beta2) g^2 |
| `AdamProperties.Trace` | app/optimizing/methods/adam.py:88 | the trace keeps the length of the caller's array |
| `AdamProperties.TraceValues` | app/optimizing/methods/adam.py:88 | after k epochs slot j holds the objective of the estimate after epoch j for 1 <= j <= k and the caller's value otherwise |
| `AdamProperties.BestIsMinimum` | app/optimizing/methods/adam.py:91-92 | a bound snapshot is the estimate of some epoch j <= k whose value is the minimum of the trace after k epochs |
| `AdamProperties.BestUnboundIff` | app/optimizing/methods/adam.py:91-92 | the snapshot is unbound after k epochs exactly when no epoch j <= k set a new minimum of the whole array |
| `AdamProperties.RunOutcomeShape` | app/optimizing/methods/adam.py:52-99 | the loop ends at an epoch E within the epoch budget and the trace, leaves the trace of the first E epochs, and unless it raised on the write returns the snapshot of the first E epochs |
| `AdamProperties.RunOutcomeNoEarlyStop` | app/optimizing/methods/adam.py:94-97 | no convergence test fires before the epoch at which the loop ends |
| `AdamProperties.RunOutcomeEnd` | app/optimizing/methods/adam.py:52-97 | the loop ends because the write f[E + 1] was out of range while epochs were left, or the epochs are spent, or the test fired at E |
| `AdamProperties.TraceBestNext` | app/optimizing/methods/adam.py:88-96 | the write, the snapshot and the test of epoch k + 1 turn the trace and snapshot of k epochs into those of k + 1 epochs |
| `AdamProperties.RunFromNext` | app/optimizing/methods/adam.py:87-97 | entered with the trace and snapshot of k epochs, the loop goes on with those of k + 1 epochs unless the test fires after epoch k + 1 |
| `AdamProperties.RunFromOutcomeAlong` | app/optimizing/methods/adam.py:52-99 | the epoch loop entered at epoch k along the successive epoch states has the closed-form outcome RunOutcome |
| `AdamProperties.RunSpecOutcome` | app/optimizing/methods/adam.py:30-99 | a run has the closed-form outcome RunOutcome from epoch 0 |
| `AdamProperties.RunTrace` | app/optimizing/methods/adam.py:88-99 | the trace a run leaves holds the objective after epoch j in slot j for 1 <= j <= E and the caller's value elsewhere, with E <= n_epochs |
| `AdamProperties.RunStopRule` | app/optimizing/methods/adam.py:94-97 | no test fired before the last epoch E; a run that raised on the write had epochs left; any other run spent its epochs or stopped because the test fired at E |
| `AdamProperties.RunNoEpochs` | app/optimizing/methods/adam.py:52-99 | with no epochs the trace is untouched and returning raises because z_ is unbound |
| `AdamProperties.ReturnedBestIsMinimum` | app/optimizing/methods/adam.py:91-99 | a returned estimate has the least objective value of the final trace and is the estimate after one of the epochs run |
| `AdamProperties.RunUnboundIff` | app/optimizing/methods/adam.py:91-99 | a run that did not raise on the write raises on return exactly when no epoch set a new minimum of the whole array |

## Left out

- `util.py` (CSV loading and result files) is not part of this model: it is I/O around the optimizer.
- `get_subgradient` and `frechet` are parameters of the model (`grad`, `objective`); their bodies are not modelled.
- `rng.permutation(N)` is a parameter `shuffle` from the epoch number to the permutation; the model does not use the fact that it is a permutation.
- `np.sqrt` is a parameter `sqrt`; the model assumes only that it maps non-negative reals to non-negative reals.
- The estimate, subgradient and moments are single reals: every operation of the update is elementwise, so one coordinate stands for the array shape `d`.
- Floating point is modelled by reals: rounding, overflow and NaN propagation are not modelled, except that the convergence test with `f[k] == 0` is false as under IEEE arithmetic.
- Adam.Run: requires batch_size >= 1 and n_coverage >= 0. With batch_size == 0 the code raises (division by zero), and np.zeros raises when ceil(n_coverage / batch_size) <= -2. It runs without error when batch_size < 0 and n_coverage < 2 * |batch_size| (every negative n_coverage included: range(0, N, batch_size) is then empty), and when batch_size >= 1 and -2 * batch_size < n_coverage < 0 (the coverage test breaks at once). In all those cases no step is taken and every epoch writes frechet(z0, X) into f[k + 1]; they are not modelled.
- `N = X.shape[0]` is the length of the dataset sequence; the series themselves are only passed to the oracles.
