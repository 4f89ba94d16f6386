/** What the Adam driver promises: how many batches an epoch takes and where
    they lie, the step and sample counters against the allocated moment
    slots, what happens once the coverage budget is used up, the first
    moments, and the outcome of a whole run: its trace, its stopping rule
    and its best snapshot. */
module AdamProperties {
  import opened AdamNumerics
  import opened Adam

  // ---------------------------------------------------------------------
  // Batches of one epoch
  // ---------------------------------------------------------------------

  /** The batches an epoch takes from offset i: the last of the count windows
      [i + (count - 1) * b, i + count * b) still lies inside the n samples,
      the last batch starts while the budget is not used up, and after the
      count batches the loop stops because the budget is used up or no full
      window is left. Windows and budgets grow with the batch index, so
      every earlier batch satisfies the same bounds. */
  lemma {:induction false} EpochStepsWindows(n: int, b: int, nCoverage: int, visited: int, i: nat)
    requires b >= 1
    ensures var count := EpochSteps(n, b, nCoverage, visited, i);
      && (count == 0 || i + count * b <= n)
      && (count == 0 || visited + (count - 1) * b < nCoverage)
      && (!(visited + count * b < nCoverage) || n - (i + count * b) < b)
    decreases n - i
  {
    var count := EpochSteps(n, b, nCoverage, visited, i);
    if count > 0 {
      var rest := EpochSteps(n, b, nCoverage, visited + b, i + b);
      EpochStepsWindows(n, b, nCoverage, visited + b, i + b);
      assert count == rest + 1;
      assert i + count * b == (i + b) + rest * b;
      assert visited + count * b == (visited + b) + rest * b;
      assert visited + (count - 1) * b == (visited + b) + (rest - 1) * b;
    }
  }

  /** Each step advances the sample counter by one batch. */
  lemma {:induction false} StepsVisited(c: Config, s: State, perm: Permutation, i: nat, count: nat)
    requires ValidConfig(c) && WellFormed(s)
    ensures Steps(c, s, perm, i, count).visited == s.visited + count * c.batchSize
    decreases count
  {
    if count > 0 {
      StepsVisited(c, Step(c, s, perm, i), perm, i + c.batchSize, count - 1);
      assert (count - 1) * c.batchSize + c.batchSize == count * c.batchSize;
    }
  }

  // ---------------------------------------------------------------------
  // Counters against the allocated moment slots
  // ---------------------------------------------------------------------

  /** An epoch keeps visited == t * batchSize and never takes more steps than
      the n_steps moment slots the run allocates. */
  lemma EpochCounters(c: Config, s: State, perm: Permutation)
    requires ValidConfig(c) && WellFormed(s)
    requires s.visited == s.t * c.batchSize && s.t <= NSteps(c)
    ensures Epoch(c, s, perm).visited == Epoch(c, s, perm).t * c.batchSize
    ensures Epoch(c, s, perm).t <= NSteps(c)
  {
    var b := c.batchSize;
    var count := EpochSteps(|c.X|, b, c.nCoverage, s.visited, 0);
    StepsVisited(c, s, perm, 0, count);
    EpochStepsWindows(|c.X|, b, c.nCoverage, s.visited, 0);
    assert s.visited + count * b == (s.t + count) * b;
    if count > 0 {
      assert s.visited + (count - 1) * b == (s.t + count - 1) * b;
      StepWithinBudget(c, s.t + count - 1, s.visited + (count - 1) * b);
    }
  }

  /** After any number of epochs from the initial state, visited == t *
      batchSize and t <= n_steps: every write m[t], v[t] is in bounds. */
  lemma {:induction false} StateAfterCounters(c: Config, z0: real, n: nat)
    requires ValidConfig(c)
    ensures StateAfter(c, Init(z0), n).visited == StateAfter(c, Init(z0), n).t * c.batchSize
    ensures StateAfter(c, Init(z0), n).t <= NSteps(c)
  {
    if n > 0 {
      StateAfterCounters(c, z0, n - 1);
      EpochCounters(c, StateAfter(c, Init(z0), n - 1), c.shuffle(n - 1));
    }
  }

  // ---------------------------------------------------------------------
  // Once the budget is used up
  // ---------------------------------------------------------------------

  /** An epoch entered with the coverage budget used up breaks out before
      its first batch and leaves the state as it was. */
  lemma EpochIdle(c: Config, s: State, perm: Permutation)
    requires ValidConfig(c) && WellFormed(s) && s.visited >= c.nCoverage
    ensures Epoch(c, s, perm) == s
  {
    assert EpochSteps(|c.X|, c.batchSize, c.nCoverage, s.visited, 0) == 0;
  }

  /** Once the samples visited reach the coverage budget, every later epoch
      breaks out before its first batch: the state no longer changes. */
  lemma {:induction false} CoveredStaysIdle(c: Config, s0: State, k: nat, n: nat)
    requires ValidConfig(c) && WellFormed(s0) && k <= n
    requires StateAfter(c, s0, k).visited >= c.nCoverage
    ensures StateAfter(c, s0, n) == StateAfter(c, s0, k)
  {
    if n > k {
      CoveredStaysIdle(c, s0, k, n - 1);
      EpochIdle(c, StateAfter(c, s0, n - 1), c.shuffle(n - 1));
    }
  }

  /** With 0 < n_coverage <= batch_size <= N the whole run takes exactly one
      Adam step, in its first epoch; every later epoch changes nothing. */
  lemma OneStepWhenCoverageAtMostBatch(c: Config, z0: real, n: nat)
    requires ValidConfig(c) && 0 < c.nCoverage <= c.batchSize <= |c.X| && n >= 1
    ensures StateAfter(c, Init(z0), n).t == 1
    ensures StateAfter(c, Init(z0), n) == StateAfter(c, Init(z0), 1)
  {
    var b := c.batchSize;
    assert EpochSteps(|c.X|, b, c.nCoverage, b, b) == 0;
    assert EpochSteps(|c.X|, b, c.nCoverage, 0, 0) == 1;
    StepsVisited(c, Init(z0), c.shuffle(0), 0, 1);
    CoveredStaysIdle(c, Init(z0), 1, n);
  }

  // ---------------------------------------------------------------------
  // Moments
  // ---------------------------------------------------------------------

  /** The first step from the zero moments: m[1] = (1 - beta1) * g and
      v[1] = (1 - beta2) * g^2 for the subgradient g of the first batch. */
  lemma FirstStepMoments(c: Config, z0: real, perm: Permutation, i: int)
    requires ValidConfig(c)
    ensures var g := c.grad(c.X, z0, i, c.batchSize, perm);
      && Step(c, Init(z0), perm, i).m == [0.0, (1.0 - Beta1) * g]
      && Step(c, Init(z0), perm, i).v == [0.0, (1.0 - Beta2) * (g * g)]
  {
    StepMoments(c, Init(z0), perm, i);
  }

  // ---------------------------------------------------------------------
  // The bookkeeping of the epoch loop
  // ---------------------------------------------------------------------
  // The trace, the best snapshot and the stopping rule only look at the
  // objective value obj(j) and the estimate est(j) after each epoch j, so
  // they are stated here for any such values.

  /** The trace after the first k epochs: the caller's array with slots 1..k
      holding the objective values after epochs 1..k. */
  function Trace(f0: seq<real>, obj: nat -> real, k: nat): (r: seq<real>)
    requires k == 0 || k < |f0|
    ensures |r| == |f0|
  {
    if k == 0 then f0 else Trace(f0, obj, k - 1)[k := obj(k)]
  }

  /** Slot j of the trace after k epochs is the objective after epoch j when
      1 <= j <= k, and the caller's value otherwise. */
  lemma {:induction false} TraceValues(f0: seq<real>, obj: nat -> real, k: nat, j: nat)
    requires (k == 0 || k < |f0|) && j < |f0|
    ensures Trace(f0, obj, k)[j] == if 1 <= j <= k then obj(j) else f0[j]
  {
    if k > 0 {
      TraceValues(f0, obj, k - 1, j);
    }
  }

  /** The objective value of epoch j >= 1 is the minimum of the whole
      trace right after it was written. */
  predicate NewMinimumAt(f0: seq<real>, obj: nat -> real, j: nat)
    requires 1 <= j < |f0|
  {
    Min(Trace(f0, obj, j)) == obj(j)
  }

  /** The best snapshot after the first k epochs: the estimate of the last
      epoch that set a new minimum, or none. */
  function BestAfter(f0: seq<real>, obj: nat -> real, est: nat -> real, k: nat): Option<real>
    requires k == 0 || k < |f0|
  {
    if k == 0 then None
    else if NewMinimumAt(f0, obj, k) then Some(est(k))
    else BestAfter(f0, obj, est, k - 1)
  }

  /** The relative-improvement test after epoch j >= 1, on the trace as it
      stands then. */
  predicate StopsAfter(f0: seq<real>, obj: nat -> real, d: real, j: nat)
    requires 1 <= j < |f0|
  {
    Converged(Trace(f0, obj, j)[j - 1], obj(j), d)
  }

  /** The outcome of the epoch loop entered at epoch k, in terms of the
      first epochs alone: it ends when the nEpochs epochs are spent, when the
      trace slot k + 1 is past the end, or when the convergence test fires
      after epoch k + 1. */
  function RunOutcome(nEpochs: int, d: real, f0: seq<real>, obj: nat -> real, est: nat -> real, k: nat): RunResult
    requires k == 0 || k < |f0|
    decreases nEpochs - k
  {
    if k >= nEpochs then Finish(BestAfter(f0, obj, est, k), Trace(f0, obj, k), k)
    else if k + 1 >= |f0| then RunResult(TraceIndexError, Trace(f0, obj, k), k)
    else if StopsAfter(f0, obj, d, k + 1) then Finish(BestAfter(f0, obj, est, k + 1), Trace(f0, obj, k + 1), k + 1)
    else RunOutcome(nEpochs, d, f0, obj, est, k + 1)
  }

  /** The epoch loop that goes on after epoch k + 1 has the outcome of the
      loop entered at epoch k + 1. */
  lemma RunOutcomeGoesOn(nEpochs: int, d: real, f0: seq<real>, obj: nat -> real, est: nat -> real, k: nat)
    requires k < nEpochs && k + 1 < |f0| && !StopsAfter(f0, obj, d, k + 1)
    ensures RunOutcome(nEpochs, d, f0, obj, est, k) == RunOutcome(nEpochs, d, f0, obj, est, k + 1)
  {
  }

  /** The epoch loop entered at epoch k runs to an epoch E >= k, within the
      epoch budget and the trace, and leaves the trace of the first E epochs;
      unless the write f[E + 1] was out of range it returns the best
      snapshot of the first E epochs, or none. */
  lemma {:induction false} RunOutcomeShape(nEpochs: int, d: real, f0: seq<real>, obj: nat -> real, est: nat -> real, k: nat)
    requires k == 0 || (k <= nEpochs && k < |f0|)
    ensures var r := RunOutcome(nEpochs, d, f0, obj, est, k);
      && k <= r.epochs
      && (r.epochs == 0 || r.epochs < |f0|)
      && (r.epochs == k || r.epochs <= nEpochs)
      && r.f == Trace(f0, obj, r.epochs)
      && (r.status == TraceIndexError || r == Finish(BestAfter(f0, obj, est, r.epochs), r.f, r.epochs))
    decreases nEpochs - k
  {
    if k < nEpochs && k + 1 < |f0| && !StopsAfter(f0, obj, d, k + 1) {
      RunOutcomeShape(nEpochs, d, f0, obj, est, k + 1);
    }
  }

  /** No convergence test fires between the epoch k at which the loop is
      entered and the epoch E at which it ends. */
  lemma {:induction false} RunOutcomeNoEarlyStop(nEpochs: int, d: real, f0: seq<real>, obj: nat -> real, est: nat -> real, k: nat, j: nat)
    requires k == 0 || k < |f0|
    requires k < j < RunOutcome(nEpochs, d, f0, obj, est, k).epochs && j < |f0|
    ensures !StopsAfter(f0, obj, d, j)
    decreases nEpochs - k
  {
    if j > k + 1 {
      RunOutcomeNoEarlyStop(nEpochs, d, f0, obj, est, k + 1, j);
    }
  }

  /** Why the epoch loop entered at epoch k ended at epoch E: the write
      f[E + 1] was out of range while epochs were left, and the test did
      not fire at E; or the epoch budget is spent; or the test fired at E. */
  lemma {:induction false} RunOutcomeEnd(nEpochs: int, d: real, f0: seq<real>, obj: nat -> real, est: nat -> real, k: nat)
    requires k == 0 || k < |f0|
    ensures var r := RunOutcome(nEpochs, d, f0, obj, est, k);
      && (r.epochs == 0 || r.epochs < |f0|)
      && (r.status == TraceIndexError ==>
            r.epochs < nEpochs && r.epochs + 1 >= |f0|
            && (r.epochs == k || !StopsAfter(f0, obj, d, r.epochs)))
      && (r.status != TraceIndexError ==>
            r.epochs >= nEpochs || (r.epochs > k && StopsAfter(f0, obj, d, r.epochs)))
    decreases nEpochs - k
  {
    if k < nEpochs && k + 1 < |f0| && !StopsAfter(f0, obj, d, k + 1) {
      RunOutcomeEnd(nEpochs, d, f0, obj, est, k + 1);
    }
  }

  /** A snapshot names an epoch: the best snapshot after k epochs is the
      estimate after some epoch j <= k, and that epoch's objective value is
      the minimum of the trace after k epochs. */
  lemma {:induction false} BestIsMinimum(f0: seq<real>, obj: nat -> real, est: nat -> real, k: nat)
    requires (k == 0 || k < |f0|) && BestAfter(f0, obj, est, k).Some?
    ensures exists j :: (1 <= j <= k
      && BestAfter(f0, obj, est, k).value == est(j)
      && Trace(f0, obj, k)[j] == Min(Trace(f0, obj, k)))
  {
    var tr := Trace(f0, obj, k);
    if NewMinimumAt(f0, obj, k) {
      assert tr[k] == obj(k);
    } else {
      BestIsMinimum(f0, obj, est, k - 1);
      var prev := Trace(f0, obj, k - 1);
      var j :| 1 <= j <= k - 1 && BestAfter(f0, obj, est, k - 1).value == est(j) && prev[j] == Min(prev);
      MinAfterUpdate(prev, k, j, obj(k));
      assert tr[j] == prev[j];
    }
  }

  /** The snapshot stays unbound exactly when no epoch's value was the
      minimum of the trace right after it was written. */
  lemma {:induction false} BestUnboundIff(f0: seq<real>, obj: nat -> real, est: nat -> real, k: nat)
    requires k == 0 || k < |f0|
    ensures BestAfter(f0, obj, est, k).None? <==>
      forall j :: 1 <= j <= k ==> !NewMinimumAt(f0, obj, j)
  {
    if k > 0 {
      BestUnboundIff(f0, obj, est, k - 1);
      if BestAfter(f0, obj, est, k).None? {
        assert !NewMinimumAt(f0, obj, k) && BestAfter(f0, obj, est, k - 1).None?;
      } else if !NewMinimumAt(f0, obj, k) {
        assert BestAfter(f0, obj, est, k - 1).Some?;
        var j :| 1 <= j <= k - 1 && NewMinimumAt(f0, obj, j);
      }
    }
  }

  // ---------------------------------------------------------------------
  // A whole run
  // ---------------------------------------------------------------------

  /** The objective value after each epoch of a run from z0. */
  function ObjectiveAfter(c: Config, z0: real): nat -> real
    requires ValidConfig(c)
  {
    (j: nat) => c.objective(StateAfter(c, Init(z0), j).z, c.X)
  }

  /** The estimate after each epoch of a run from z0. */
  function EstimateAfter(c: Config, z0: real): nat -> real
    requires ValidConfig(c)
  {
    (j: nat) => StateAfter(c, Init(z0), j).z
  }

  /** One pass of the epoch loop of run with the trace slot k + 1 in range. */
  lemma RunFromStep(c: Config, k: nat, s: State, f: seq<real>, best: Option<real>)
    requires ValidConfig(c) && WellFormed(s) && k < c.nEpochs && k + 1 < |f|
    ensures var s' := Epoch(c, s, c.shuffle(k));
      var f' := f[k + 1 := c.objective(s'.z, c.X)];
      var best' := if Min(f') == f'[k + 1] then Some(s'.z) else best;
      RunFrom(c, k, s, f, best) ==
        if Converged(f'[k], f'[k + 1], c.dConverged) then Finish(best', f', k + 1)
        else RunFrom(c, k + 1, s', f', best')
  {
  }

  /** The epoch loop ends at epoch k when the nEpochs epochs are spent or
      the trace slot k + 1 is out of range. */
  lemma RunFromEnd(c: Config, k: nat, s: State, f: seq<real>, best: Option<real>)
    requires ValidConfig(c) && WellFormed(s) && (k >= c.nEpochs || k + 1 >= |f|)
    ensures RunFrom(c, k, s, f, best)
      == if k >= c.nEpochs then Finish(best, f, k) else RunResult(TraceIndexError, f, k)
  {
  }

  /** Writing the objective value y of epoch k + 1 into the trace of the
      first k epochs, and keeping its estimate e when y is the minimum, gives
      the trace and the best snapshot of the first k + 1 epochs; the stopping
      test compares y with slot k. */
  lemma TraceBestNext(f0: seq<real>, obj: nat -> real, est: nat -> real, d: real, k: nat, y: real, e: real)
    requires k + 1 < |f0| && obj(k + 1) == y && est(k + 1) == e
    ensures var f' := Trace(f0, obj, k)[k + 1 := y];
      && f' == Trace(f0, obj, k + 1)
      && (if Min(f') == f'[k + 1] then Some(e) else BestAfter(f0, obj, est, k)) == BestAfter(f0, obj, est, k + 1)
      && (Converged(f'[k], f'[k + 1], d) <==> StopsAfter(f0, obj, d, k + 1))
  {
  }

  /** One pass of the epoch loop entered with the trace and best snapshot of
      the first k epochs, the epoch taking state s to s': the loop goes on
      with the trace and best snapshot of the first k + 1 epochs unless the
      convergence test fires after epoch k + 1. */
  lemma RunFromNext(c: Config, k: nat, s: State, s': State, f0: seq<real>, obj: nat -> real, est: nat -> real)
    requires ValidConfig(c) && WellFormed(s) && k < c.nEpochs && k + 1 < |f0|
    requires s' == Epoch(c, s, c.shuffle(k)) && obj(k + 1) == c.objective(s'.z, c.X) && est(k + 1) == s'.z
    ensures RunFrom(c, k, s, Trace(f0, obj, k), BestAfter(f0, obj, est, k))
      == if StopsAfter(f0, obj, c.dConverged, k + 1)
         then Finish(BestAfter(f0, obj, est, k + 1), Trace(f0, obj, k + 1), k + 1)
         else RunFrom(c, k + 1, s', Trace(f0, obj, k + 1), BestAfter(f0, obj, est, k + 1))
  {
    RunFromStep(c, k, s, Trace(f0, obj, k), BestAfter(f0, obj, est, k));
    TraceBestNext(f0, obj, est, c.dConverged, k, obj(k + 1), est(k + 1));
  }

  /** st(j) is the state after epoch j of a run, each epoch taking the
      state of the one before to the next, and obj(j) and est(j) are the
      objective value and the estimate of st(j). */
  ghost predicate Along(c: Config, st: nat -> State, obj: nat -> real, est: nat -> real)
    requires ValidConfig(c)
  {
    && (forall j: nat :: WellFormed(st(j)))
    && (forall j: nat {:trigger Epoch(c, st(j), c.shuffle(j))} :: st(j + 1) == Epoch(c, st(j), c.shuffle(j)))
    && (forall j: nat :: obj(j) == c.objective(st(j).z, c.X) && est(j) == st(j).z)
  }

  /** The epoch loop entered at epoch k along the states st(k), st(k + 1),
      ... of successive epochs, with objective values obj and estimates est
      read off those states, has the outcome RunOutcome. */
  lemma {:induction false} RunFromOutcomeAlong(c: Config, st: nat -> State, f0: seq<real>, obj: nat -> real, est: nat -> real, k: nat)
    requires ValidConfig(c) && (k == 0 || k < |f0|) && Along(c, st, obj, est)
    ensures RunFrom(c, k, st(k), Trace(f0, obj, k), BestAfter(f0, obj, est, k))
      == RunOutcome(c.nEpochs, c.dConverged, f0, obj, est, k)
    decreases c.nEpochs - k
  {
    if k < c.nEpochs && k + 1 < |f0| {
      RunFromNext(c, k, st(k), st(k + 1), f0, obj, est);
      if !StopsAfter(f0, obj, c.dConverged, k + 1) {
        RunFromOutcomeAlong(c, st, f0, obj, est, k + 1);
        RunOutcomeGoesOn(c.nEpochs, c.dConverged, f0, obj, est, k);
      }
    } else {
      RunFromEnd(c, k, st(k), Trace(f0, obj, k), BestAfter(f0, obj, est, k));
    }
  }

  /** The run with the caller's trace f0 has the outcome RunOutcome from
      epoch 0. */
  lemma RunSpecOutcome(c: Config, z0: real, f0: seq<real>)
    requires ValidConfig(c)
    ensures RunSpec(c, z0, f0) == RunOutcome(c.nEpochs, c.dConverged, f0, ObjectiveAfter(c, z0), EstimateAfter(c, z0), 0)
  {
    var st: nat -> State := (j: nat) => StateAfter(c, Init(z0), j);
    RunFromOutcomeAlong(c, st, f0, ObjectiveAfter(c, z0), EstimateAfter(c, z0), 0);
  }

  /** The trace a run leaves: slot j for 1 <= j <= E holds the objective of
      the estimate after epoch j, every other slot keeps the caller's value;
      E is at most nEpochs and, when positive, a slot of the trace. */
  lemma RunTrace(c: Config, z0: real, f0: seq<real>, j: nat)
    requires ValidConfig(c) && j < |f0|
    ensures var r := RunSpec(c, z0, f0);
      && |r.f| == |f0|
      && (r.epochs == 0 || (r.epochs <= c.nEpochs && r.epochs < |f0|))
      && r.f[j] == if 1 <= j <= r.epochs then c.objective(StateAfter(c, Init(z0), j).z, c.X) else f0[j]
  {
    var obj, est := ObjectiveAfter(c, z0), EstimateAfter(c, z0);
    RunSpecOutcome(c, z0, f0);
    RunOutcomeShape(c.nEpochs, c.dConverged, f0, obj, est, 0);
    TraceValues(f0, obj, RunSpec(c, z0, f0).epochs, j);
  }

  /** The stopping rule of a run ending after epoch E: no relative-improvement
      test fired before E; a run that raised on the trace write had epochs
      left and f[E + 1] out of range; any other run spent its nEpochs epochs
      or stopped because the test fired after epoch E. */
  lemma RunStopRule(c: Config, z0: real, f0: seq<real>)
    requires ValidConfig(c)
    ensures var r := RunSpec(c, z0, f0);
      var obj := ObjectiveAfter(c, z0);
      && (r.epochs == 0 || r.epochs < |f0|)
      && (forall j :: 0 < j < r.epochs ==> !StopsAfter(f0, obj, c.dConverged, j))
      && (r.status == TraceIndexError ==>
            r.epochs < c.nEpochs && r.epochs + 1 >= |f0|
            && (r.epochs == 0 || !StopsAfter(f0, obj, c.dConverged, r.epochs)))
      && (r.status != TraceIndexError ==>
            r.epochs >= c.nEpochs || (r.epochs > 0 && StopsAfter(f0, obj, c.dConverged, r.epochs)))
  {
    var obj, est := ObjectiveAfter(c, z0), EstimateAfter(c, z0);
    RunSpecOutcome(c, z0, f0);
    RunOutcomeEnd(c.nEpochs, c.dConverged, f0, obj, est, 0);
    forall j | 0 < j < RunSpec(c, z0, f0).epochs
      ensures !StopsAfter(f0, obj, c.dConverged, j)
    {
      RunOutcomeNoEarlyStop(c.nEpochs, c.dConverged, f0, obj, est, 0, j);
    }
  }

  /** With no epochs to run, the trace is untouched and the snapshot is never
      bound, so returning raises. */
  lemma RunNoEpochs(c: Config, z0: real, f0: seq<real>)
    requires ValidConfig(c) && c.nEpochs <= 0
    ensures RunSpec(c, z0, f0) == RunResult(UnboundBest, f0, 0)
  {
  }

  /** The estimate a run returns has the least objective value in the final
      trace, and it is the estimate after one of the epochs run. */
  lemma ReturnedBestIsMinimum(c: Config, z0: real, f0: seq<real>)
    requires ValidConfig(c) && RunSpec(c, z0, f0).status.Returned?
    ensures var r := RunSpec(c, z0, f0);
      && 1 <= r.epochs < |r.f|
      && c.objective(r.status.best, c.X) == Min(r.f)
      && exists j :: 1 <= j <= r.epochs && r.status.best == StateAfter(c, Init(z0), j).z
  {
    var obj, est := ObjectiveAfter(c, z0), EstimateAfter(c, z0);
    var r := RunSpec(c, z0, f0);
    RunSpecOutcome(c, z0, f0);
    RunOutcomeShape(c.nEpochs, c.dConverged, f0, obj, est, 0);
    BestIsMinimum(f0, obj, est, r.epochs);
    var j :| 1 <= j <= r.epochs && r.status.best == est(j) && r.f[j] == Min(r.f);
    TraceValues(f0, obj, r.epochs, j);
  }

  /** A run that did not raise on the trace write returns a snapshot exactly
      when some epoch's value was the minimum of the trace right after it
      was written; otherwise returning raises. */
  lemma RunUnboundIff(c: Config, z0: real, f0: seq<real>)
    requires ValidConfig(c) && RunSpec(c, z0, f0).status != TraceIndexError
    ensures var r := RunSpec(c, z0, f0);
      var obj := ObjectiveAfter(c, z0);
      && (r.epochs == 0 || r.epochs < |f0|)
      && (r.status == UnboundBest <==> forall j :: 1 <= j <= r.epochs ==> !NewMinimumAt(f0, obj, j))
  {
    var obj, est := ObjectiveAfter(c, z0), EstimateAfter(c, z0);
    RunSpecOutcome(c, z0, f0);
    RunOutcomeShape(c.nEpochs, c.dConverged, f0, obj, est, 0);
    BestUnboundIff(f0, obj, est, RunSpec(c, z0, f0).epochs);
  }
}
