/** Identities and placement (src/spawner.rs): two counters that wrap around. */
module PlacementSpec {
  import opened Actors
  import opened Modular
  import opened RuntimeModel
  import opened Runs
  import opened Frames

  /** The `k`-th identity handed out, from 0. */
  function IdAt(k: nat): ActorId { (1 + k) % ID_RANGE }

  /** The worker of the `k`-th pick among `n`, by a counter with `range` values. */
  function PickAt(k: nat, range: nat, n: nat): nat
    requires range > 0 && n > 0
  {
    k % range % n
  }

  /** How many of the first `k` picks chose worker `w`. */
  function Load(k: nat, range: nat, n: nat, w: nat): nat
    requires range > 0 && n > 0
  {
    if k == 0 then 0 else Load(k - 1, range, n, w) + (if PickAt(k - 1, range, n) == w then 1 else 0)
  }

  lemma SameRemainder(i: nat, j: nat, n: nat)
    requires n > 0 && i <= j
    ensures i % n == j % n <==> (j - i) % n == 0
  {
    var q := j / n - i / n;
    assert n * (j / n - i / n) == n * (j / n) - n * (i / n);
    if i % n == j % n {
      Remainder(j - i, q, 0, n);
    } else if (j - i) % n == 0 {
      assert j - i == n * ((j - i) / n);
      assert n * (i / n + (j - i) / n) == n * (i / n) + n * ((j - i) / n);
      Remainder(j, i / n + (j - i) / n, i % n, n);
    }
  }

  /** Two actors get the same identity exactly when a multiple of 2^64 allocations lies between
      them: never below 2^64 allocations. */
  lemma IdentitiesCollide(i: nat, j: nat)
    requires i < j
    ensures IdAt(i) == IdAt(j) <==> (j - i) % ID_RANGE == 0
    ensures j < ID_RANGE ==> IdAt(i) != IdAt(j)
  {
    SameRemainder(1 + i, 1 + j, ID_RANGE);
    if j < ID_RANGE {
      Remainder(j - i, 0, j - i, ID_RANGE);
    }
  }

  /** Before the counter wraps, worker `w` has its round-robin share. */
  lemma {:induction false} LoadInRange(k: nat, range: nat, n: nat, w: nat)
    requires range > 0 && w < n && k <= range
    ensures Load(k, range, n, w) == k / n + (if w < k % n then 1 else 0)
  {
    if k > 0 {
      LoadInRange(k - 1, range, n, w);
      Remainder(k - 1, 0, k - 1, range);
      Increment(k - 1, n);
    } else {
      Remainder(0, 0, 0, n);
      Quotient(0, 0, 0, n);
    }
  }

  /** After `q` wraps the counter starts over. */
  lemma {:induction false} LoadPeriod(q: nat, r: nat, range: nat, n: nat, w: nat)
    requires range > 0 && w < n && r <= range
    ensures Load(range * q + r, range, n, w) == Load(range * q, range, n, w) + Load(r, range, n, w)
    decreases r
  {
    if r > 0 {
      LoadPeriod(q, r - 1, range, n, w);
      Remainder(range * q + (r - 1), q, r - 1, range);
      Remainder(r - 1, 0, r - 1, range);
    }
  }

  lemma {:induction false} LoadOfWraps(q: nat, range: nat, n: nat, w: nat)
    requires range > 0 && w < n
    ensures Load(range * q, range, n, w) == q * Load(range, range, n, w)
    decreases q
  {
    if q > 0 {
      LoadOfWraps(q - 1, range, n, w);
      assert range * q == range * (q - 1) + range;
      LoadPeriod(q - 1, range, range, n, w);
      assert q * Load(range, range, n, w) == (q - 1) * Load(range, range, n, w) + Load(range, range, n, w);
    }
  }

  function Gap(x: nat, y: nat): nat { if x < y then y - x else x - y }

  lemma GapOfMultiple(q: nat, x: nat, y: nat)
    requires Gap(x, y) <= 1
    ensures Gap(q * x, q * y) <= q && (x == y ==> Gap(q * x, q * y) == 0)
  {
    if x == y + 1 {
      assert q * x == q * y + q;
    } else if y == x + 1 {
      assert q * y == q * x + q;
    }
  }

  lemma GapOfSum(x: nat, y: nat, x': nat, y': nat)
    ensures Gap(x + x', y + y') <= Gap(x, y) + Gap(x', y')
  {
  }

  /** Whole turns of the counter, and what came after the last one. */
  lemma LoadSplit(k: nat, range: nat, n: nat, w: nat)
    requires range > 0 && w < n
    ensures Load(k, range, n, w) == (k / range) * Load(range, range, n, w) + Load(k % range, range, n, w)
  {
    var q, r := k / range, k % range;
    assert k == range * q + r;
    hide Load;
    LoadPeriod(q, r, range, n, w);
    LoadOfWraps(q, range, n, w);
  }

  lemma GapInRange(k: nat, range: nat, n: nat, w: nat, v: nat)
    requires range > 0 && w < n && v < n && k <= range
    ensures Gap(Load(k, range, n, w), Load(k, range, n, v)) <= 1
    ensures k % n == 0 ==> Load(k, range, n, w) == Load(k, range, n, v)
  {
    LoadInRange(k, range, n, w);
    LoadInRange(k, range, n, v);
  }

  /** Placement balance: after `k` spawns the loads of two workers differ by at most one more than
      the number of times the counter has wrapped, and by at most one for ever if the number of
      workers divides the counter's range. */
  lemma LoadsBalanced(k: nat, range: nat, n: nat, w: nat, v: nat)
    requires range > 0 && w < n && v < n
    ensures Gap(Load(k, range, n, w), Load(k, range, n, v)) <= k / range + 1
    ensures k <= range || range % n == 0 ==> Gap(Load(k, range, n, w), Load(k, range, n, v)) <= 1
  {
    hide Load, Gap;
    var q, r := k / range, k % range;
    LoadSplit(k, range, n, w);
    LoadSplit(k, range, n, v);
    GapInRange(r, range, n, w, v);
    GapInRange(range, range, n, w, v);
    GapOfTurns(q, Load(range, range, n, w), Load(range, range, n, v), Load(r, range, n, w), Load(r, range, n, v));
    if k <= range {
      GapInRange(k, range, n, w, v);
    }
  }

  lemma GapOfTurns(q: nat, x: nat, y: nat, x': nat, y': nat)
    requires Gap(x, y) <= 1 && Gap(x', y') <= 1
    ensures Gap(q * x + x', q * y + y') <= q + 1
    ensures x == y ==> Gap(q * x + x', q * y + y') <= 1
  {
    hide Gap;
    GapOfMultiple(q, x, y);
    GapOfSum(q * x, q * y, x', y');
  }

  /** The bound is met: if the workers do not divide the range, every wrap adds one to the
      difference between the first and the last worker. */
  lemma WrapsUnbalance(q: nat, range: nat, n: nat)
    requires n > 0 && range > 0 && range % n != 0
    ensures Load(range * q, range, n, 0) == Load(range * q, range, n, n - 1) + q
  {
    hide Load;
    LoadOfWraps(q, range, n, 0);
    LoadOfWraps(q, range, n, n - 1);
    FirstAndLast(range, n);
    OneMore(q, Load(range, range, n, n - 1));
  }

  lemma FirstAndLast(range: nat, n: nat)
    requires n > 0 && range > 0 && range % n != 0
    ensures Load(range, range, n, 0) == Load(range, range, n, n - 1) + 1
  {
    hide Load;
    LoadInRange(range, range, n, 0);
    LoadInRange(range, range, n, n - 1);
  }

  lemma OneMore(q: nat, l: nat)
    ensures q * (l + 1) == q * l + q
  {
  }

  // ---- in the runtime ----

  /** The placements made in a run. */
  function Picks(steps: seq<Step>): nat {
    if steps == [] then 0 else (if steps[0].PickWorker? then 1 else 0) + Picks(steps[1..])
  }

  /** The identities allocated in a run, by clients and by contexts. */
  function Allocations(steps: seq<Step>): nat {
    if steps == [] then 0
    else (if steps[0].SpawnAllocate? || steps[0].ChildBegin? then 1 else 0) + Allocations(steps[1..])
  }

  lemma {:induction false} RunAllocates(h: Behaviour, s: World, steps: seq<Step>, s': World)
    requires Run(h, s, steps, s') && s.nextId <= ID_RANGE
    ensures s'.nextId == s.nextId + Allocations(steps) <= ID_RANGE
    decreases |steps|
  {
    hide Apply;
    if steps != [] {
      var s1 := Apply(h, s, steps[0]);
      SpawnsStep(h, s, steps[0]);
      assert s1.nextId == SpawnsOf(s1).nextId;
      RunAllocates(h, s1, steps[1..], s');
    }
  }

  /** In every run, whoever allocates gets the next identity of the wrapping counter, from 1 on; the
      machine stops short of the wrap. */
  lemma RunIdentities(h: Behaviour, n: nat, range: Range, steps: seq<Step>, s: World)
    requires Run(h, Init(n, range), steps, s)
    ensures s.nextId == 1 + Allocations(steps)
    ensures s.nextId < ID_RANGE ==> s.nextId == IdAt(Allocations(steps))
  {
    hide Run;
    RunAllocates(h, Init(n, range), steps, s);
  }

  /** The placements that were given worker `w`. */
  ghost function GivenTo(h: Behaviour, s: World, steps: seq<Step>, w: nat): nat
    decreases |steps|
  {
    if steps == [] || !Enabled(s, steps[0]) then 0
    else
      (if steps[0].PickWorker? && Apply(h, s, steps[0]).starting[steps[0].id].worker == w then 1 else 0)
      + GivenTo(h, Apply(h, s, steps[0]), steps[1..], w)
  }

  lemma {:induction false} RunLoads(h: Behaviour, s: World, steps: seq<Step>, s': World, k: nat, w: nat)
    requires Run(h, s, steps, s') && w < |s.workers| && s.nextWorker == k % s.pickRange
    ensures Load(k + Picks(steps), s.pickRange, |s.workers|, w)
         == Load(k, s.pickRange, |s.workers|, w) + GivenTo(h, s, steps, w)
    decreases |steps|
  {
    hide Apply, Load;
    if steps != [] {
      var s1 := Apply(h, s, steps[0]);
      SpawnsStep(h, s, steps[0]);
      if steps[0].PickWorker? {
        LoadNext(k, s.pickRange, |s.workers|, w);
        RunLoads(h, s1, steps[1..], s', k + 1, w);
        assert k + 1 + Picks(steps[1..]) == k + Picks(steps);
      } else {
        RunLoads(h, s1, steps[1..], s', k, w);
      }
    }
  }

  lemma LoadNext(k: nat, range: nat, n: nat, w: nat)
    requires range > 0 && n > 0
    ensures Load(k + 1, range, n, w) == Load(k, range, n, w) + (if k % range % n == w then 1 else 0)
    ensures (k % range + 1) % range == (k + 1) % range
  {
    NextIndex(k, range);
  }

  /** In every run of the runtime with `n` workers and a placement counter of any range, however the
      spawning threads interleave with each other and with everything else, two workers' shares of
      the spawns differ by at most one until the counter wraps, and then by at most one more for
      every wrap. */
  lemma RunBalanced(h: Behaviour, n: nat, range: Range, steps: seq<Step>, s: World, w: nat, v: nat)
    requires Run(h, Init(n, range), steps, s) && w < n && v < n
    ensures var gap := Gap(GivenTo(h, Init(n, range), steps, w), GivenTo(h, Init(n, range), steps, v));
            gap <= Picks(steps) / range + 1 && (Picks(steps) <= range || range % n == 0 ==> gap <= 1)
  {
    hide Run, GivenTo, Gap;
    RunLoads(h, Init(n, range), steps, s, 0, w);
    RunLoads(h, Init(n, range), steps, s, 0, v);
    LoadsBalanced(Picks(steps), range, n, w, v);
  }

  lemma {:induction false} PicksConcat(steps: seq<Step>, more: seq<Step>)
    ensures Picks(steps + more) == Picks(steps) + Picks(more)
  {
    if steps == [] {
      assert steps + more == more;
    } else {
      assert (steps + more)[1..] == steps[1..] + more;
      PicksConcat(steps[1..], more);
    }
  }

  /** One client allocates and picks. */
  lemma SpawnOnce(h: Behaviour, s: World)
    requires s.nextId < ID_RANGE && |s.workers| > 0
    ensures Enabled(s, SpawnAllocate)
    ensures var s1 := Apply(h, s, SpawnAllocate);
            && Enabled(s1, PickWorker(s.nextId))
            && var s2 := Apply(h, s1, PickWorker(s.nextId)); s2.nextId == s.nextId + 1 && |s2.workers| == |s.workers|
  {
  }

  /** A run of any number of spawns that identities allow. */
  lemma {:induction false} SpawnMany(h: Behaviour, n: nat, range: Range, k: nat) returns (steps: seq<Step>, s: World)
    requires n > 0 && k < ID_RANGE
    ensures Run(h, Init(n, range), steps, s) && Picks(steps) == k && s.nextId == k + 1 && |s.workers| == n
    decreases k
  {
    if k == 0 {
      steps, s := [], Init(n, range);
    } else {
      var front, s0 := SpawnMany(h, n, range, k - 1);
      SpawnOnce(h, s0);
      var s1 := Apply(h, s0, SpawnAllocate);
      RunSnoc(h, Init(n, range), front, s0, SpawnAllocate);
      RunSnoc(h, Init(n, range), front + [SpawnAllocate], s1, PickWorker(s0.nextId));
      PicksConcat(front, [SpawnAllocate]);
      PicksConcat(front + [SpawnAllocate], [PickWorker(s0.nextId)]);
      assert [SpawnAllocate][1..] == [] && [PickWorker(s0.nextId)][1..] == [];
      steps, s := front + [SpawnAllocate] + [PickWorker(s0.nextId)], Apply(h, s1, PickWorker(s0.nextId));
    }
  }

  /** The bound is met by runs of the runtime: if the workers do not divide the counter's range, some
      run passes `q` wraps and leaves the first worker with exactly `q` spawns more than the last. */
  lemma RunUnbalanced(h: Behaviour, n: nat, range: Range, q: nat) returns (steps: seq<Step>, s: World)
    requires n > 0 && range % n != 0 && range * q < ID_RANGE
    ensures Run(h, Init(n, range), steps, s) && Picks(steps) == range * q
    ensures GivenTo(h, Init(n, range), steps, 0) == GivenTo(h, Init(n, range), steps, n - 1) + q
  {
    hide Run, GivenTo, Load;
    steps, s := SpawnMany(h, n, range, range * q);
    RunLoads(h, Init(n, range), steps, s, 0, 0);
    RunLoads(h, Init(n, range), steps, s, 0, n - 1);
    NoLoad(range, n, 0);
    NoLoad(range, n, n - 1);
    WrapsUnbalance(q, range, n);
  }

  lemma NoLoad(range: nat, n: nat, w: nat)
    requires range > 0 && n > 0
    ensures Load(0, range, n, w) == 0
  {
  }
}

module SpawnerClass {
  import opened Actors
  import opened Modular
  import opened RuntimeModel
  import opened PlacementSpec

  class SpawnShared {
    const numWorkers: nat
    const pickRange: Range
    var nextId: nat
    var nextWorker: nat
    ghost var allocations: nat
    ghost var picks: nat

    ghost predicate Valid()
      reads this
    {
      numWorkers > 0 && nextId == IdAt(allocations) && nextWorker == picks % pickRange
    }

    /** `Runtime::with_threads` panics without a worker thread. */
    constructor (n: nat, range: Range)
      requires n > 0
      ensures Valid() && numWorkers == n && pickRange == range && allocations == picks == 0
    {
      pickRange := range;
      numWorkers, nextId, nextWorker, allocations, picks := n, 1, 0, 0, 0;
    }

    method AllocateId() returns (id: ActorId)
      requires Valid()
      modifies this`nextId, this`allocations
      ensures Valid() && id == (1 + old(allocations)) % ID_RANGE && allocations == old(allocations) + 1
    {
      Increment(1 + allocations, ID_RANGE);
      id := nextId;
      nextId := if nextId + 1 == ID_RANGE then 0 else nextId + 1;
      allocations := allocations + 1;
    }

    method PickWorker() returns (w: nat)
      requires Valid()
      modifies this`nextWorker, this`picks
      ensures Valid() && w < numWorkers && w == old(picks) % pickRange % numWorkers && picks == old(picks) + 1
    {
      Increment(picks, pickRange);
      w := nextWorker % numWorkers;
      nextWorker := if nextWorker + 1 == pickRange then 0 else nextWorker + 1;
      picks := picks + 1;
    }
  }
}
