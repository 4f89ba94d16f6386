/** The epoch/minibatch driver `run` of the Adam optimizer for the DTW
    (Frechet) mean: Algorithm 1 of Kingma and Ba, "Adam: A Method for
    Stochastic Optimization", driven over shuffled minibatches with a global
    sample-coverage budget, one objective evaluation per epoch, a best-estimate
    snapshot and a relative-improvement stopping rule.

    The functions below are the specification: one optimization step, the
    batch schedule of an epoch, an epoch, the state after a number of epochs
    and the whole run. The methods at the end are the loop itself, over
    arrays, proved to compute exactly what the specification says.

    The estimate, its subgradient and the moments are single reals: every
    operation of the update rule is elementwise, so one coordinate stands for
    all of them. */
module Adam {
  import opened AdamNumerics

  /** One time series: a sequence of D-dimensional points. */
  type Series = seq<seq<real>>

  /** The shuffled sample order drawn for one epoch. */
  type Permutation = seq<int>

  datatype Option<T> = None | Some(value: T)

  /** The inputs of one run. The subgradient oracle, the objective (the
      Frechet cost of an estimate against the dataset), the per-epoch shuffle
      and the square root are parameters: their bodies are not part of the
      model. */
  datatype Config = Config(
    X: seq<Series>,
    batchSize: int,
    nCoverage: int,
    nEpochs: int,
    dConverged: real,
    shuffle: nat -> Permutation,
    grad: (seq<Series>, real, int, int, Permutation) -> real,
    objective: (real, seq<Series>) -> real,
    sqrt: real -> real)

  /** What the loop needs of its inputs: a positive batch size, a
      non-negative coverage budget and a square root that is non-negative on
      non-negative reals. */
  ghost predicate ValidConfig(c: Config)
  {
    c.batchSize >= 1 && c.nCoverage >= 0 && SqrtNonNegative(c.sqrt)
  }

  /** n_steps: the number of moment slots the run allocates, minus the
      initial one. */
  function NSteps(c: Config): (r: int)
    requires ValidConfig(c)
    ensures r >= 0
  {
    CeilDiv(c.nCoverage, c.batchSize)
  }

  /** The optimizer state: the estimate, the global step counter, the global
      count of visited samples, and the moment estimates m[0..t] and v[0..t]
      written so far (slot 0 is the zero moment). */
  datatype State = State(z: real, t: nat, visited: nat, m: seq<real>, v: seq<real>)

  /** One moment slot per step plus the initial one, and every second-moment
      estimate non-negative. */
  predicate WellFormed(s: State)
  {
    && |s.m| == s.t + 1
    && |s.v| == s.t + 1
    && (forall j :: 0 <= j < |s.v| ==> s.v[j] >= 0.0)
  }

  /** The state before the first epoch: zero moments, no step taken. */
  function Init(z0: real): (s: State)
    ensures WellFormed(s) && s.t == 0 && s.visited == 0 && s.z == z0
    ensures s.m == [0.0] && s.v == [0.0]
  {
    State(z0, 0, 0, [0.0], [0.0])
  }

  /** One Adam step on the batch starting at offset i of the permutation. */
  function Step(c: Config, s: State, perm: Permutation, i: int): (r: State)
    requires ValidConfig(c) && WellFormed(s)
    ensures WellFormed(r) && r.t == s.t + 1 && r.visited == s.visited + c.batchSize
  {
    var t := s.t + 1;
    var g := c.grad(c.X, s.z, i, c.batchSize, perm);
    var mt := FirstMoment(s.m[s.t], g);
    var vt := SecondMoment(s.v[s.t], g);
    BiasDenominatorsPositive(t);
    SecondMomentNonNegative(s.v[s.t], g, t);
    var mHat := mt / (1.0 - Pow(Beta1, t));
    var vHat := vt / (1.0 - Pow(Beta2, t));
    State(AdamUpdate(s.z, mHat, vHat, c.sqrt), t, s.visited + c.batchSize, s.m + [mt], s.v + [vt])
  }

  /** The number of batches one epoch processes from offset i on: range(0,
      n, b) yields the offsets i, i + b, ..., and the loop stops as soon as
      the global coverage budget is reached or no full batch is left. */
  function EpochSteps(n: int, b: int, nCoverage: int, visited: int, i: nat): nat
    requires b >= 1
    decreases n - i
  {
    if i >= n then 0
    else if !(visited < nCoverage) then 0
    else if n - i < b then 0
    else 1 + EpochSteps(n, b, nCoverage, visited + b, i + b)
  }

  /** The steps taken on the count batches at offsets i, i + b, ..., in order. */
  function Steps(c: Config, s: State, perm: Permutation, i: nat, count: nat): (r: State)
    requires ValidConfig(c) && WellFormed(s)
    ensures WellFormed(r) && r.t == s.t + count
    decreases count
  {
    if count == 0 then s
    else Steps(c, Step(c, s, perm, i), perm, i + c.batchSize, count - 1)
  }

  /** One epoch: the steps of its batches under the given permutation. */
  function Epoch(c: Config, s: State, perm: Permutation): State
    requires ValidConfig(c) && WellFormed(s)
  {
    Steps(c, s, perm, 0, EpochSteps(|c.X|, c.batchSize, c.nCoverage, s.visited, 0))
  }

  /** The state after the first n epochs, the permutation of epoch k being
      c.shuffle(k), when no early stop intervenes. */
  function StateAfter(c: Config, s0: State, n: nat): (r: State)
    requires ValidConfig(c) && WellFormed(s0)
    ensures WellFormed(r)
  {
    if n == 0 then s0 else Epoch(c, StateAfter(c, s0, n - 1), c.shuffle(n - 1))
  }

  function Abs(x: real): real
  {
    if x < 0.0 then -x else x
  }

  /** The stopping test abs((cur - prev) / prev) < d. With prev == 0 the
      division yields an infinity or NaN under IEEE arithmetic, and neither
      compares below a real threshold, so the test fails. */
  predicate Converged(prev: real, cur: real, d: real)
  {
    prev != 0.0 && Abs((cur - prev) / prev) < d
  }

  /** How a run ends: with the best snapshot, with the snapshot never bound
      (the return raises), or with an epoch whose trace slot is past the end
      of the caller's array (the write raises). */
  datatype Status = Returned(best: real) | UnboundBest | TraceIndexError

  /** The outcome, the trace array as the caller sees it afterwards, and the
      number of epochs whose trace slot was written. */
  datatype RunResult = RunResult(status: Status, f: seq<real>, epochs: nat)

  function Finish(best: Option<real>, f: seq<real>, epochs: nat): RunResult
  {
    RunResult(if best.Some? then Returned(best.value) else UnboundBest, f, epochs)
  }

  /** The epoch loop from epoch k on, with state s, trace f and the best
      snapshot so far. */
  function RunFrom(c: Config, k: nat, s: State, f: seq<real>, best: Option<real>): RunResult
    requires ValidConfig(c) && WellFormed(s)
    decreases c.nEpochs - k
  {
    if k >= c.nEpochs then Finish(best, f, k)
    else
      var s' := Epoch(c, s, c.shuffle(k));
      if k + 1 >= |f| then RunResult(TraceIndexError, f, k)
      else
        var f' := f[k + 1 := c.objective(s'.z, c.X)];
        var best' := if Min(f') == f'[k + 1] then Some(s'.z) else best;
        if Converged(f'[k], f'[k + 1], c.dConverged) then Finish(best', f', k + 1)
        else RunFrom(c, k + 1, s', f', best')
  }

  /** The whole run from the initial estimate z0 and the caller's trace f0. */
  function RunSpec(c: Config, z0: real, f0: seq<real>): RunResult
    requires ValidConfig(c)
  {
    RunFrom(c, 0, Init(z0), f0, None)
  }

  /** The moment recurrences of a step: slot t + 1 of m holds
      beta1 * m[t] + (1 - beta1) * g and slot t + 1 of v holds
      beta2 * v[t] + (1 - beta2) * g^2, g being the subgradient at the current
      estimate on the batch at offset i; the earlier slots are kept. */
  lemma StepMoments(c: Config, s: State, perm: Permutation, i: int)
    requires ValidConfig(c) && WellFormed(s)
    ensures var g := c.grad(c.X, s.z, i, c.batchSize, perm);
      && Step(c, s, perm, i).m == s.m + [FirstMoment(s.m[s.t], g)]
      && Step(c, s, perm, i).v == s.v + [SecondMoment(s.v[s.t], g)]
  {
    var g := c.grad(c.X, s.z, i, c.batchSize, perm);
    var r := Step(c, s, perm, i);
    assert r.m[..|s.m|] == s.m && r.v[..|s.v|] == s.v;
  }

  /** A step taken while the coverage budget is not used up fits in the
      allocated moment slots, and keeps visited == t * batchSize. */
  lemma StepWithinBudget(c: Config, t: nat, visited: nat)
    requires ValidConfig(c) && visited == t * c.batchSize && visited < c.nCoverage
    ensures t + 1 <= NSteps(c) && visited + c.batchSize == (t + 1) * c.batchSize
  {
    CeilDivBounds(c.nCoverage, c.batchSize);
    MulCancel(t, NSteps(c), c.batchSize);
  }

  /** A batch taken from offset i while the budget lasts and a full batch is
      left: the remaining steps of the epoch are those from offset i + b on,
      applied to the state after the step. */
  lemma StepsAdvance(c: Config, cur: State, next: State, perm: Permutation, i: nat, goal: State)
    requires ValidConfig(c) && WellFormed(cur)
    requires cur.visited < c.nCoverage && i < |c.X| && !(|c.X| - i < c.batchSize)
    requires next == Step(c, cur, perm, i)
    requires Steps(c, cur, perm, i, EpochSteps(|c.X|, c.batchSize, c.nCoverage, cur.visited, i)) == goal
    ensures Steps(c, next, perm, i + c.batchSize,
                  EpochSteps(|c.X|, c.batchSize, c.nCoverage, next.visited, i + c.batchSize)) == goal
  {
  }

  /** The abstract state that the estimate, the counters and the first
      t + 1 moment slots of the arrays stand for. */
  ghost function StateOf(z: real, t: nat, nVisited: nat, m: array<real>, v: array<real>): State
    reads m, v
    requires t < m.Length && t < v.Length
  {
    State(z, t, nVisited, m[..t + 1], v[..t + 1])
  }

  /** One pass of the inner loop of run: advance t, write m[t] and v[t] in
      place and update the estimate. */
  method StepInPlace(c: Config, m: array<real>, v: array<real>, z: real, t: nat, nVisited: nat,
                     perm: Permutation, i: int, ghost cur: State)
    returns (z': real, t': nat, nVisited': nat)
    requires ValidConfig(c) && m != v && t + 1 < m.Length && t + 1 < v.Length
    requires cur == StateOf(z, t, nVisited, m, v) && WellFormed(cur)
    modifies m, v
    ensures t' == t + 1 && nVisited' == nVisited + c.batchSize
    ensures StateOf(z', t', nVisited', m, v) == Step(c, cur, perm, i)
  {
    t' := t + 1;
    var g := c.grad(c.X, z, i, c.batchSize, perm);
    m[t'] := FirstMoment(m[t' - 1], g);
    v[t'] := SecondMoment(v[t' - 1], g);
    BiasDenominatorsPositive(t');
    SecondMomentNonNegative(v[t' - 1], g, t');
    var mHat := m[t'] / (1.0 - Pow(Beta1, t'));
    var vHat := v[t'] / (1.0 - Pow(Beta2, t'));
    z' := AdamUpdate(z, mHat, vHat, c.sqrt);
    nVisited' := nVisited + c.batchSize;
    StepMoments(c, cur, perm, i);
    assert m[..t' + 1] == cur.m + [m[t']] && v[..t' + 1] == cur.v + [v[t']];
  }

  /** One batch of the inner loop of run, taken while the budget lasts and a
      full batch is left: the step in place; it returns the next offset
      i + b, from which the rest of the epoch's steps now start. */
  method BatchInPlace(c: Config, m: array<real>, v: array<real>, z: real, t: nat, nVisited: nat,
                      perm: Permutation, i: nat, ghost cur: State, ghost goal: State)
    returns (z': real, t': nat, nVisited': nat, iNext: nat, ghost next: State)
    requires ValidConfig(c) && m != v && m.Length == NSteps(c) + 1 && v.Length == NSteps(c) + 1
    requires t <= NSteps(c) && nVisited == t * c.batchSize
    requires nVisited < c.nCoverage && i < |c.X| && !(|c.X| - i < c.batchSize)
    requires cur == StateOf(z, t, nVisited, m, v) && WellFormed(cur)
    requires Steps(c, cur, perm, i, EpochSteps(|c.X|, c.batchSize, c.nCoverage, cur.visited, i)) == goal
    modifies m, v
    ensures t' == t + 1 && nVisited' == nVisited + c.batchSize
    ensures t' <= NSteps(c) && nVisited' == t' * c.batchSize
    ensures next == StateOf(z', t', nVisited', m, v) && next == Step(c, cur, perm, i)
    ensures WellFormed(next) && iNext == i + c.batchSize
    ensures Steps(c, next, perm, iNext, EpochSteps(|c.X|, c.batchSize, c.nCoverage, next.visited, iNext)) == goal
  {
    StepWithinBudget(c, t, nVisited);
    z', t', nVisited' := StepInPlace(c, m, v, z, t, nVisited, perm, i, cur);
    next := StateOf(z', t', nVisited', m, v);
    iNext := i + c.batchSize;
    StepsAdvance(c, cur, next, perm, i, goal);
  }

  /** The inner loop of run: walk the permutation in windows of batchSize
      until the coverage budget is used up or no full batch is left. */
  method EpochInPlace(c: Config, m: array<real>, v: array<real>, z: real, t: nat, nVisited: nat,
                      perm: Permutation, ghost s0: State, ghost goal: State)
    returns (z': real, t': nat, nVisited': nat)
    requires ValidConfig(c) && m != v && m.Length == NSteps(c) + 1 && v.Length == NSteps(c) + 1
    requires t <= NSteps(c) && nVisited == t * c.batchSize
    requires s0 == StateOf(z, t, nVisited, m, v) && WellFormed(s0)
    requires goal == Epoch(c, s0, perm)
    modifies m, v
    ensures t' <= NSteps(c) && nVisited' == t' * c.batchSize
    ensures WellFormed(StateOf(z', t', nVisited', m, v))
    ensures StateOf(z', t', nVisited', m, v) == goal
  {
    z', t', nVisited' := z, t, nVisited;
    var n := |c.X|;
    var i: nat := 0;
    ghost var cur := s0;
    while i < n
      invariant t' <= NSteps(c) && nVisited' == t' * c.batchSize
      invariant cur == StateOf(z', t', nVisited', m, v) && WellFormed(cur)
      invariant Steps(c, cur, perm, i, EpochSteps(|c.X|, c.batchSize, c.nCoverage, cur.visited, i)) == goal
    {
      if !(nVisited' < c.nCoverage) {
        break;
      }
      if n - i < c.batchSize {
        break;
      }
      z', t', nVisited', i, cur := BatchInPlace(c, m, v, z', t', nVisited', perm, i, cur, goal);
    }
  }

  /** One pass of the epoch loop of run: the epoch's steps, then the trace
      write, the snapshot and the stopping test. What it reports is the
      epoch loop of the specification from epoch k on, one epoch unrolled. */
  method RunEpoch(c: Config, m: array<real>, v: array<real>, f: array<real>, k: nat,
                  z: real, t: nat, nVisited: nat, best: Option<real>, ghost s: State)
    returns (z': real, t': nat, nVisited': nat, best': Option<real>, indexError: bool, converged: bool)
    requires ValidConfig(c) && k < c.nEpochs && f != m && f != v
    requires m != v && m.Length == NSteps(c) + 1 && v.Length == NSteps(c) + 1
    requires t <= NSteps(c) && nVisited == t * c.batchSize
    requires s == StateOf(z, t, nVisited, m, v) && WellFormed(s)
    modifies m, v, f
    ensures t' <= NSteps(c) && nVisited' == t' * c.batchSize
    ensures StateOf(z', t', nVisited', m, v) == Epoch(c, s, c.shuffle(k))
    ensures WellFormed(StateOf(z', t', nVisited', m, v))
    ensures indexError <==> k + 1 >= f.Length
    ensures indexError ==> f[..] == old(f[..]) && best' == best && !converged
    ensures !indexError ==> f[..] == old(f[..])[k + 1 := c.objective(z', c.X)]
    ensures !indexError ==> best' == (if Min(f[..]) == f[k + 1] then Some(z') else best)
    ensures !indexError ==> converged == Converged(f[k], f[k + 1], c.dConverged)
    ensures indexError ==> RunFrom(c, k, s, old(f[..]), best) == RunResult(TraceIndexError, f[..], k)
    ensures !indexError && converged ==> RunFrom(c, k, s, old(f[..]), best) == Finish(best', f[..], k + 1)
    ensures !indexError && !converged ==>
      RunFrom(c, k, s, old(f[..]), best) == RunFrom(c, k + 1, StateOf(z', t', nVisited', m, v), f[..], best')
  {
    z', t', nVisited' := EpochInPlace(c, m, v, z, t, nVisited, c.shuffle(k), s, Epoch(c, s, c.shuffle(k)));
    best', indexError, converged := best, false, false;
    if k + 1 >= f.Length {
      indexError := true;
      return;
    }
    f[k + 1] := c.objective(z', c.X);
    if Min(f[..]) == f[k + 1] {
      best' := Some(z');
    }
    converged := Converged(f[k], f[k + 1], c.dConverged);
  }

  /** run: allocate n_steps + 1 moment slots, run the epochs, write f[k + 1]
      after epoch k, snapshot the estimate when that value is the minimum of
      f, and stop when the relative improvement drops below dConverged. */
  method Run(
    X: seq<Series>, z0: real, f: array<real>,
    batchSize: int, nCoverage: int, nEpochs: int, dConverged: real,
    shuffle: nat -> Permutation,
    grad: (seq<Series>, real, int, int, Permutation) -> real,
    objective: (real, seq<Series>) -> real,
    sqrt: real -> real)
    returns (status: Status)
    requires ValidConfig(Config(X, batchSize, nCoverage, nEpochs, dConverged, shuffle, grad, objective, sqrt))
    modifies f
    ensures var r := RunSpec(Config(X, batchSize, nCoverage, nEpochs, dConverged, shuffle, grad, objective, sqrt), z0, old(f[..]));
      status == r.status && f[..] == r.f
  {
    var c := Config(X, batchSize, nCoverage, nEpochs, dConverged, shuffle, grad, objective, sqrt);
    ghost var spec := RunSpec(c, z0, f[..]);
    var nSteps := CeilDiv(nCoverage, batchSize);
    var m := new real[nSteps + 1](_ => 0.0);
    var v := new real[nSteps + 1](_ => 0.0);
    var nVisited := 0;
    var t := 0;
    var z := z0;
    var best: Option<real> := None;
    ghost var s := StateOf(z, t, nVisited, m, v);
    assert s == Init(z0);
    var k: nat := 0;
    while k < nEpochs
      invariant t <= nSteps && nVisited == t * batchSize
      invariant s == StateOf(z, t, nVisited, m, v) && WellFormed(s)
      invariant RunFrom(c, k, s, f[..], best) == spec
    {
      var indexError, converged;
      z, t, nVisited, best, indexError, converged := RunEpoch(c, m, v, f, k, z, t, nVisited, best, s);
      if indexError {
        status := TraceIndexError;
        return;
      }
      if converged {
        break;
      }
      k := k + 1;
      s := StateOf(z, t, nVisited, m, v);
    }
    status := if best.Some? then Returned(best.value) else UnboundBest;
  }
}
