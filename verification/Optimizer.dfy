/** The parallel optimizer (`optimizer.hpp`): the parameter grid, and workers that claim its
    indices under a lock. */
module Optimizers {

  datatype ParamValue = IntValue(i: int) | RealValue(r: real) | BoolValue(b: bool) | TextValue(t: string)

  type ParamMap = map<string, ParamValue>

  datatype ParamRange = ParamRange(name: string, values: seq<ParamValue>)

  // ------------------------------------------------------------ the grid

  function Row(m: ParamMap, r: ParamRange): seq<ParamMap> {
    seq(|r.values|, k requires 0 <= k < |r.values| => m[r.name := r.values[k]])
  }

  function Cross(grid: seq<ParamMap>, r: ParamRange): seq<ParamMap> {
    if grid == [] then [] else Cross(grid[..|grid| - 1], r) + Row(grid[|grid| - 1], r)
  }

  /** All combinations of the ranges, one range at a time. */
  function Product(ranges: seq<ParamRange>): seq<ParamMap> {
    if ranges == [] then [map[]] else Cross(Product(ranges[..|ranges| - 1]), ranges[|ranges| - 1])
  }

  /** `generate_param_grid`; no ranges give no grid. */
  method GenerateParamGrid(ranges: seq<ParamRange>) returns (grid: seq<ParamMap>)
    ensures grid == if ranges == [] then [] else Product(ranges)
  {
    grid := [];
    if |ranges| == 0 {
      return;
    }
    for k := 0 to |ranges[0].values|
      invariant grid == Row(map[], ranges[0])[..k]
    {
      var m: ParamMap := map[];
      grid := grid + [m[ranges[0].name := ranges[0].values[k]]];
    }
    FirstRange(ranges);
    for r := 1 to |ranges|
      invariant grid == Product(ranges[..r])
    {
      assert ranges[..r + 1][..r] == ranges[..r];
      var newGrid: seq<ParamMap> := [];
      for e := 0 to |grid|
        invariant newGrid == Cross(grid[..e], ranges[r])
      {
        assert grid[..e + 1][..e] == grid[..e];
        newGrid := AppendRow(newGrid, grid[e], ranges[r]);
      }
      assert grid[..|grid|] == grid;
      grid := newGrid;
    }
    assert ranges[..|ranges|] == ranges;
  }

  lemma FirstRange(ranges: seq<ParamRange>)
    requires ranges != []
    ensures Product(ranges[..1]) == Row(map[], ranges[0])
    ensures Row(map[], ranges[0])[..|ranges[0].values|] == Row(map[], ranges[0])
  {
    assert ranges[..1][..0] == [];
    assert Cross([map[]], ranges[0]) == Cross([], ranges[0]) + Row(map[], ranges[0]);
  }

  method AppendRow(newGrid: seq<ParamMap>, existing: ParamMap, r: ParamRange) returns (grown: seq<ParamMap>)
    ensures grown == newGrid + Row(existing, r)
  {
    grown := newGrid;
    for k := 0 to |r.values|
      invariant grown == newGrid + Row(existing, r)[..k]
    {
      grown := grown + [existing[r.name := r.values[k]]];
    }
  }

  // -------------------------------------------------------- mixed radix

  function Size(ranges: seq<ParamRange>): nat {
    if ranges == [] then 1 else Size(ranges[..|ranges| - 1]) * |ranges[|ranges| - 1].values|
  }

  /** One choice per range, each within its range. */
  predicate Choice(ranges: seq<ParamRange>, ds: seq<nat>) {
    |ds| == |ranges| && forall k :: 0 <= k < |ds| ==> ds[k] < |ranges[k].values|
  }

  /** The number with these digits, the first range being the most significant. */
  function Index(ranges: seq<ParamRange>, ds: seq<nat>): nat
    requires |ds| == |ranges|
  {
    if ranges == [] then 0
    else
      var n := |ranges| - 1;
      Index(ranges[..n], ds[..n]) * |ranges[n].values| + ds[n]
  }

  /** The digits of a number. */
  function Digits(ranges: seq<ParamRange>, i: nat): seq<nat>
    requires i < Size(ranges)
  {
    if ranges == [] then []
    else
      var n := |ranges| - 1;
      var q := |ranges[n].values|;
      DivSmaller(i, Size(ranges[..n]), q);
      Digits(ranges[..n], i / q) + [i % q]
  }

  /** The parameters a choice stands for; of ranges with the same name the last one wins. */
  function Chosen(ranges: seq<ParamRange>, ds: seq<nat>): ParamMap
    requires Choice(ranges, ds)
  {
    if ranges == [] then map[]
    else
      var n := |ranges| - 1;
      Chosen(ranges[..n], ds[..n])[ranges[n].name := ranges[n].values[ds[n]]]
  }

  lemma DivSmaller(i: nat, m: nat, q: nat)
    requires i < m * q
    ensures q > 0 && i / q < m && i == i / q * q + i % q
  {
    assert q > 0;
    assert i / q < m by {
      if i / q >= m {
        MulOrdered(m, i / q, q);
        assert false;
      }
    }
  }

  lemma MulOrdered(a: nat, b: nat, q: nat)
    requires a <= b
    ensures a * q <= b * q
  {
  }

  lemma BelowProduct(a: nat, m: nat, d: nat, q: nat)
    requires a < m && d < q
    ensures a * q + d < m * q && (a * q + d) / q == a && (a * q + d) % q == d
  {
    MulOrdered(a + 1, m, q);
    assert (a + 1) * q == a * q + q;
    DivUnique(a * q + d, q, a, d);
  }

  lemma DivUnique(x: nat, q: nat, a: nat, d: nat)
    requires d < q && x == a * q + d
    ensures x / q == a && x % q == d
  {
    var b, e := x / q, x % q;
    assert x == b * q + e && e < q;
    if a < b {
      MulOrdered(a + 1, b, q);
    } else if b < a {
      MulOrdered(b + 1, a, q);
    }
  }

  /** Numbers below the size of the grid and choices of values correspond one to one. */
  lemma {:induction false} DigitsRoundTrip(ranges: seq<ParamRange>, i: nat)
    requires i < Size(ranges)
    ensures Choice(ranges, Digits(ranges, i)) && Index(ranges, Digits(ranges, i)) == i
  {
    if ranges != [] {
      var n := |ranges| - 1;
      var q := |ranges[n].values|;
      DivSmaller(i, Size(ranges[..n]), q);
      DigitsRoundTrip(ranges[..n], i / q);
      assert Digits(ranges, i)[..n] == Digits(ranges[..n], i / q);
    }
  }

  lemma {:induction false} IndexRoundTrip(ranges: seq<ParamRange>, ds: seq<nat>)
    requires Choice(ranges, ds)
    ensures Index(ranges, ds) < Size(ranges) && Digits(ranges, Index(ranges, ds)) == ds
  {
    if ranges != [] {
      var n := |ranges| - 1;
      IndexRoundTrip(ranges[..n], ds[..n]);
      BelowProduct(Index(ranges[..n], ds[..n]), Size(ranges[..n]), ds[n], |ranges[n].values|);
      assert ds == ds[..n] + [ds[n]];
    }
  }

  lemma {:induction false} CrossLength(grid: seq<ParamMap>, r: ParamRange)
    ensures |Cross(grid, r)| == |grid| * |r.values|
  {
    if grid != [] {
      var n := |grid| - 1;
      CrossLength(grid[..n], r);
      assert (n + 1) * |r.values| == n * |r.values| + |r.values|;
    }
  }

  lemma {:induction false} CrossAt(grid: seq<ParamMap>, r: ParamRange, i: nat, k: nat)
    requires i < |grid| && k < |r.values|
    ensures i * |r.values| + k < |Cross(grid, r)| && Cross(grid, r)[i * |r.values| + k] == grid[i][r.name := r.values[k]]
  {
    var n := |grid| - 1;
    CrossLength(grid[..n], r);
    BelowProduct(i, n + 1, k, |r.values|);
    if i < n {
      CrossAt(grid[..n], r, i, k);
    }
  }

  /** The grid is the row-major enumeration of all combinations: entry `i` is the choice
      whose mixed-radix number is `i`. */
  lemma {:induction false} GridIsRowMajor(ranges: seq<ParamRange>)
    ensures |Product(ranges)| == Size(ranges)
    ensures forall ds :: Choice(ranges, ds) ==>
              Index(ranges, ds) < Size(ranges) && Product(ranges)[Index(ranges, ds)] == Chosen(ranges, ds)
  {
    if ranges != [] {
      var n := |ranges| - 1;
      var init := ranges[..n];
      GridIsRowMajor(init);
      CrossLength(Product(init), ranges[n]);
      forall ds | Choice(ranges, ds)
        ensures Index(ranges, ds) < Size(ranges) && Product(ranges)[Index(ranges, ds)] == Chosen(ranges, ds)
      {
        assert Choice(init, ds[..n]);
        IndexRoundTrip(ranges, ds);
        CrossAt(Product(init), ranges[n], Index(init, ds[..n]), ds[n]);
      }
    }
  }

  predicate DistinctNames(ranges: seq<ParamRange>) {
    forall i, j :: 0 <= i < j < |ranges| ==> ranges[i].name != ranges[j].name
  }

  lemma {:induction false} ChosenReads(ranges: seq<ParamRange>, ds: seq<nat>, k: nat)
    requires DistinctNames(ranges) && Choice(ranges, ds) && k < |ranges|
    ensures ranges[k].name in Chosen(ranges, ds) && Chosen(ranges, ds)[ranges[k].name] == ranges[k].values[ds[k]]
  {
    var n := |ranges| - 1;
    if k < n {
      ChosenReads(ranges[..n], ds[..n], k);
    }
  }

  lemma {:induction false} ChosenNames(ranges: seq<ParamRange>, ds: seq<nat>, x: string)
    requires Choice(ranges, ds) && x in Chosen(ranges, ds)
    ensures exists k :: 0 <= k < |ranges| && ranges[k].name == x
  {
    var n := |ranges| - 1;
    if x != ranges[n].name {
      ChosenNames(ranges[..n], ds[..n], x);
      var k :| 0 <= k < n && ranges[..n][k].name == x;
      assert ranges[k].name == x;
    }
  }

  /** With distinct names, entry `i` gives each parameter the value at its digit of `i`, and
      nothing else. */
  lemma GridEntry(ranges: seq<ParamRange>, i: nat)
    requires DistinctNames(ranges) && i < Size(ranges)
    ensures i < |Product(ranges)| && Choice(ranges, Digits(ranges, i))
    ensures var m := Product(ranges)[i];
            && (forall k :: 0 <= k < |ranges| ==>
                  ranges[k].name in m && m[ranges[k].name] == ranges[k].values[Digits(ranges, i)[k]])
            && (forall x :: x in m ==> exists k :: 0 <= k < |ranges| && ranges[k].name == x)
  {
    DigitsRoundTrip(ranges, i);
    GridIsRowMajor(ranges);
    var ds := Digits(ranges, i);
    forall k | 0 <= k < |ranges|
      ensures ranges[k].name in Chosen(ranges, ds) && Chosen(ranges, ds)[ranges[k].name] == ranges[k].values[ds[k]]
    {
      ChosenReads(ranges, ds, k);
    }
    forall x | x in Chosen(ranges, ds) ensures exists k :: 0 <= k < |ranges| && ranges[k].name == x {
      ChosenNames(ranges, ds, x);
    }
  }

  // ----------------------------------------------------------- the workers

  datatype OptResult = OptResult(params: ParamMap, finalValue: real, sharpeRatio: real, maxDrawdown: real, totalTrades: nat)

  const NO_RESULT := OptResult(map[], 0.0, 0.0, 0.0, 0)

  /** A worker is about to take the lock, is running the combination it claimed, has stored
      what was extracted but not yet the parameters, or has returned. */
  datatype Worker = Idle | Running(index: nat) | Tagging(index: nat) | Returned {
    predicate Holds(i: nat) {
      (Running? || Tagging?) && index == i
    }
  }

  /** What the workers share, and where each of them is; `claims` logs the claimed indices. */
  datatype Pool = Pool(nextIndex: nat, results: seq<OptResult>, workers: seq<Worker>, claims: seq<nat>)

  /** A run of one combination followed by the extraction of its result, the same whenever
      and by whomever it is run; and whether the feeds can be cloned. */
  datatype Job = Job(grid: seq<ParamMap>, extract: ParamMap -> OptResult, cloneable: bool)

  function Launch(job: Job, threads: nat): Pool {
    Pool(0, seq(|job.grid|, _ => NO_RESULT), seq(if threads < |job.grid| then threads else |job.grid|, _ => Idle), [])
  }

  /** One step of worker `t`; only the claim happens under the lock. */
  function Step(job: Job, p: Pool, t: nat): Pool {
    if t >= |p.workers| then p
    else
      match p.workers[t]
      case Idle =>
        if p.nextIndex >= |job.grid| then p.(workers := p.workers[t := Returned])
        else p.(nextIndex := p.nextIndex + 1, workers := p.workers[t := Running(p.nextIndex)], claims := p.claims + [p.nextIndex])
      case Running(i) =>
        if !job.cloneable then p.(workers := p.workers[t := Returned])
        else if i < |p.results| && i < |job.grid| then
          p.(results := p.results[i := job.extract(job.grid[i])], workers := p.workers[t := Tagging(i)])
        else p
      case Tagging(i) =>
        if i < |p.results| && i < |job.grid| then
          p.(results := p.results[i := p.results[i].(params := job.grid[i])], workers := p.workers[t := Idle])
        else p
      case Returned => p
  }

  /** The workers' steps in the order a schedule picks them. */
  function Interleave(job: Job, p: Pool, schedule: seq<nat>): Pool {
    if schedule == [] then p
    else Step(job, Interleave(job, p, schedule[..|schedule| - 1]), schedule[|schedule| - 1])
  }

  predicate AllReturned(p: Pool) {
    forall t :: 0 <= t < |p.workers| ==> p.workers[t] == Returned
  }

  /** What the result of a combination is, run on its own. */
  function Alone(job: Job, i: nat): OptResult
    requires i < |job.grid|
  {
    job.extract(job.grid[i]).(params := job.grid[i])
  }

  function Sequential(job: Job): seq<OptResult> {
    seq(|job.grid|, i requires 0 <= i < |job.grid| => Alone(job, i))
  }

  /** Each index below `nextIndex` has been claimed once, each is held by at most one worker,
      and a result that no worker is working on is either untouched or final. */
  ghost predicate PoolOk(job: Job, p: Pool) {
    && |p.results| == |job.grid|
    && p.nextIndex <= |job.grid|
    && p.claims == seq(p.nextIndex, i => i)
    && (forall t :: 0 <= t < |p.workers| && (p.workers[t].Running? || p.workers[t].Tagging?) ==> p.workers[t].index < p.nextIndex)
    && (forall t, u :: 0 <= t < u < |p.workers| && (p.workers[t].Running? || p.workers[t].Tagging?) ==>
          !p.workers[u].Holds(p.workers[t].index))
    && (forall i :: p.nextIndex <= i < |job.grid| ==> p.results[i] == NO_RESULT)
    && (forall t :: 0 <= t < |p.workers| && p.workers[t].Tagging? ==>
          p.results[p.workers[t].index] == job.extract(job.grid[p.workers[t].index]))
  }

  ghost predicate Progress(job: Job, p: Pool, i: nat)
    requires i < |job.grid| && |p.results| == |job.grid|
  {
    (exists t :: 0 <= t < |p.workers| && p.workers[t].Holds(i)) || p.results[i] == Alone(job, i)
  }

  /** With cloneable feeds no claimed index is lost. */
  ghost predicate NothingLost(job: Job, p: Pool) {
    PoolOk(job, p) && forall i :: 0 <= i < p.nextIndex ==> Progress(job, p, i)
  }

  lemma LaunchOk(job: Job, threads: nat)
    ensures NothingLost(job, Launch(job, threads))
  {
  }

  lemma StepOk(job: Job, p: Pool, t: nat)
    requires PoolOk(job, p)
    ensures PoolOk(job, Step(job, p, t))
  {
  }

  lemma StepLosesNothing(job: Job, p: Pool, t: nat)
    requires NothingLost(job, p) && job.cloneable
    ensures NothingLost(job, Step(job, p, t))
  {
    StepOk(job, p, t);
    var q := Step(job, p, t);
    forall i | 0 <= i < q.nextIndex ensures Progress(job, q, i) {
      if i < p.nextIndex {
        assert Progress(job, p, i);
        if u :| 0 <= u < |p.workers| && p.workers[u].Holds(i) {
          assert q.workers[u].Holds(i) || q.results[i] == Alone(job, i);
        }
      } else {
        assert q.workers[t].Holds(i);
      }
    }
  }

  lemma {:induction false} InterleaveLosesNothing(job: Job, threads: nat, schedule: seq<nat>)
    ensures var p := Interleave(job, Launch(job, threads), schedule);
            PoolOk(job, p) && (job.cloneable ==> NothingLost(job, p)) && |p.workers| == |Launch(job, threads).workers|
  {
    hide PoolOk, NothingLost;
    if schedule == [] {
      LaunchOk(job, threads);
      LostIsPool(job, Launch(job, threads));
    } else {
      var init, t := schedule[..|schedule| - 1], schedule[|schedule| - 1];
      InterleaveLosesNothing(job, threads, init);
      var p := Interleave(job, Launch(job, threads), init);
      StepOk(job, p, t);
      if job.cloneable {
        StepLosesNothing(job, p, t);
      }
    }
  }

  lemma LostIsPool(job: Job, p: Pool)
    requires NothingLost(job, p)
    ensures PoolOk(job, p)
  {
  }

  /** A worker that finds the pool exhausted has a reason: every index has been claimed. */
  ghost predicate ReturnedIsLate(job: Job, p: Pool) {
    forall t :: 0 <= t < |p.workers| && p.workers[t] == Returned ==> p.nextIndex == |job.grid|
  }

  lemma {:induction false} InterleaveLate(job: Job, threads: nat, schedule: seq<nat>)
    requires job.cloneable
    ensures ReturnedIsLate(job, Interleave(job, Launch(job, threads), schedule))
  {
    if schedule != [] {
      InterleaveLate(job, threads, schedule[..|schedule| - 1]);
      InterleaveLosesNothing(job, threads, schedule[..|schedule| - 1]);
    }
  }

  /** The optimizer does not depend on the schedule: however the workers are interleaved,
      once all have returned every index has been claimed exactly once, in order, and the
      results are those of running the grid one entry after the other. */
  lemma ScheduleIndependent(job: Job, threads: nat, schedule: seq<nat>)
    requires job.cloneable && threads > 0
    requires AllReturned(Interleave(job, Launch(job, threads), schedule))
    ensures var p := Interleave(job, Launch(job, threads), schedule);
            p.results == Sequential(job) && p.claims == seq(|job.grid|, i => i)
  {
    hide Interleave;
    InterleaveLosesNothing(job, threads, schedule);
    InterleaveLate(job, threads, schedule);
    var p := Interleave(job, Launch(job, threads), schedule);
    if |job.grid| > 0 {
      assert p.workers[0] == Returned;
    }
    forall i | 0 <= i < |job.grid| ensures p.results[i] == Sequential(job)[i] {
      assert Progress(job, p, i);
    }
  }

  // ------------------------------------------------------------ progress

  function Weight(w: Worker): nat {
    match w
    case Idle => 1
    case Running(_) => 3
    case Tagging(_) => 2
    case Returned => 0
  }

  function Weights(ws: seq<Worker>): nat {
    if ws == [] then 0 else Weights(ws[..|ws| - 1]) + Weight(ws[|ws| - 1])
  }

  /** What is left to do. */
  function Left(job: Job, p: Pool): int {
    3 * (|job.grid| - p.nextIndex) + Weights(p.workers)
  }

  lemma {:induction false} WeightsUpdate(ws: seq<Worker>, t: nat, w: Worker)
    requires t < |ws|
    ensures Weights(ws[t := w]) == Weights(ws) - Weight(ws[t]) + Weight(w)
  {
    var n := |ws| - 1;
    if t == n {
      assert ws[t := w][..n] == ws[..n];
    } else {
      WeightsUpdate(ws[..n], t, w);
      assert ws[t := w][..n] == ws[..n][t := w];
    }
  }

  /** No worker can stall: each of its steps leaves less to do, until it returns. */
  lemma StepProgresses(job: Job, p: Pool, t: nat)
    requires PoolOk(job, p) && t < |p.workers|
    ensures if p.workers[t] == Returned then Step(job, p, t) == p else Left(job, Step(job, p, t)) < Left(job, p)
  {
    WeightsUpdate(p.workers, t, Step(job, p, t).workers[t]);
  }

  function Waiting(ws: seq<Worker>): nat {
    if ws == [] then 0 else Waiting(ws[..|ws| - 1]) + if ws[|ws| - 1] == Idle then 1 else 0
  }

  lemma {:induction false} WaitingUpdate(ws: seq<Worker>, t: nat, w: Worker)
    requires t < |ws|
    ensures Waiting(ws[t := w]) == Waiting(ws) - (if ws[t] == Idle then 1 else 0) + if w == Idle then 1 else 0
  {
    var n := |ws| - 1;
    if t == n {
      assert ws[t := w][..n] == ws[..n];
    } else {
      WaitingUpdate(ws[..n], t, w);
      assert ws[t := w][..n] == ws[..n][t := w];
    }
  }

  lemma {:induction false} AllWait(n: nat)
    ensures Waiting(seq(n, _ => Idle)) == n
  {
    if n > 0 {
      AllWait(n - 1);
      assert seq(n, _ => Idle)[..n - 1] == seq(n - 1, _ => Idle);
    }
  }

  /** Without cloneable feeds every worker gives up after its first claim, so that no more
      combinations are claimed than there are workers. */
  lemma {:induction false} NotCloneableGivesUp(job: Job, threads: nat, schedule: seq<nat>)
    requires !job.cloneable
    ensures var p := Interleave(job, Launch(job, threads), schedule);
            && |p.workers| == (if threads < |job.grid| then threads else |job.grid|)
            && |p.claims| + Waiting(p.workers) <= |p.workers|
            && (forall t :: 0 <= t < |p.workers| ==> !p.workers[t].Tagging?)
  {
    if schedule == [] {
      AllWait(|Launch(job, threads).workers|);
    } else {
      NotCloneableGivesUp(job, threads, schedule[..|schedule| - 1]);
      var p, t := Interleave(job, Launch(job, threads), schedule[..|schedule| - 1]), schedule[|schedule| - 1];
      if t < |p.workers| {
        WaitingUpdate(p.workers, t, Step(job, p, t).workers[t]);
      }
    }
  }

  /** Without cloneable feeds no result is ever stored: every combination reads as empty. */
  lemma {:induction false} NotCloneableIsEmpty(job: Job, threads: nat, schedule: seq<nat>)
    requires !job.cloneable
    ensures var p := Interleave(job, Launch(job, threads), schedule);
            && p.results == seq(|job.grid|, _ => NO_RESULT)
            && (forall t :: 0 <= t < |p.workers| ==> !p.workers[t].Tagging?)
  {
    if schedule != [] {
      NotCloneableIsEmpty(job, threads, schedule[..|schedule| - 1]);
    }
  }

  // ------------------------------------------------- the shared variables

  class WorkerPool {
    const job: Job
    const results: array<OptResult>
    var nextIndex: nat
    var workers: seq<Worker>
    ghost var claims: seq<nat>

    constructor (job: Job, threads: nat)
      ensures this.job == job && State() == Launch(job, threads) && fresh(results)
    {
      this.job := job;
      results := new OptResult[|job.grid|](_ => NO_RESULT);
      nextIndex := 0;
      workers := seq(if threads < |job.grid| then threads else |job.grid|, _ => Idle);
      claims := [];
    }

    ghost function State(): Pool
      reads this, results
    {
      Pool(nextIndex, results[..], workers, claims)
    }

    /** The critical section. */
    method Claim() returns (index: nat, some: bool)
      modifies `nextIndex, `claims
      ensures some == (old(nextIndex) < |job.grid|) && index == old(nextIndex)
      ensures nextIndex == old(nextIndex) + (if some then 1 else 0)
      ensures claims == old(claims) + (if some then [index] else [])
    {
      index := nextIndex;
      some := nextIndex < |job.grid|;
      if some {
        nextIndex := nextIndex + 1;
        claims := claims + [index];
      }
    }

    method Work(t: nat)
      modifies this, results
      ensures State() == Step(job, old(State()), t)
    {
      if t >= |workers| {
        return;
      }
      match workers[t]
      case Idle =>
        var index, some := Claim();
        workers := workers[t := if some then Running(index) else Returned];
      case Running(i) =>
        if !job.cloneable {
          workers := workers[t := Returned];
        } else if i < results.Length && i < |job.grid| {
          results[i] := job.extract(job.grid[i]);
          workers := workers[t := Tagging(i)];
        }
      case Tagging(i) =>
        if i < results.Length && i < |job.grid| {
          results[i] := results[i].(params := job.grid[i]);
          workers := workers[t := Idle];
        }
      case Returned =>
    }
  }

  /** `Optimizer::run` under one schedule; it is over when every worker has returned. */
  method Optimize(ranges: seq<ParamRange>, extract: ParamMap -> OptResult, cloneable: bool, threads: nat, schedule: seq<nat>)
    returns (results: seq<OptResult>, over: bool)
    requires threads > 0
    ensures ranges == [] ==> results == [] && over
    ensures ranges != [] && over ==>
              var job := Job(Product(ranges), extract, cloneable);
              if cloneable then results == Sequential(job) else results == seq(|job.grid|, _ => NO_RESULT)
  {
    var grid := GenerateParamGrid(ranges);
    if |grid| == 0 {
      return [], true;
    }
    var job := Job(grid, extract, cloneable);
    var pool := new WorkerPool(job, threads);
    for k := 0 to |schedule|
      invariant pool.job == job && fresh(pool) && fresh(pool.results)
      invariant pool.State() == Interleave(job, Launch(job, threads), schedule[..k])
    {
      assert schedule[..k + 1][..k] == schedule[..k];
      pool.Work(schedule[k]);
    }
    assert schedule[..|schedule|] == schedule;
    results := pool.results[..];
    over := forall t :: 0 <= t < |pool.workers| ==> pool.workers[t] == Returned;
    if over {
      if cloneable {
        ScheduleIndependent(job, threads, schedule);
      } else {
        NotCloneableIsEmpty(job, threads, schedule);
      }
    }
  }
}
