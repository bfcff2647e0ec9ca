/**
 In-flight counters: what `select` increments, what dropping a lease decrements, and how the
 least-loaded choice spreads leases over the eligible providers.
 */
module Leases {
  import opened Numbers

  const U64_SIZE := 0x1_0000_0000_0000_0000

  /** An atomic counter: additions and subtractions wrap on 64 bits. */
  function Wrap(value: int): (w: int)
    ensures 0 <= w < U64_SIZE
    ensures 0 <= value < U64_SIZE ==> w == value
  {
    value % U64_SIZE
  }

  function Load(inflight: map<string, int>, id: string): int {
    if id in inflight then inflight[id] else 0
  }

  /** `entry(id).or_default().fetch_add(1)`. */
  function Acquired(inflight: map<string, int>, id: string): map<string, int> {
    inflight[id := Wrap(Load(inflight, id) + 1)]
  }

  /** `Lease::drop`. */
  function Released(inflight: map<string, int>, id: string): map<string, int> {
    if id in inflight then inflight[id := Wrap(inflight[id] - 1)] else inflight
  }

  // ----- Conservation

  datatype State = State(inflight: map<string, int>, leases: multiset<string>, forgotten: set<string>)

  datatype Step = Acquire(id: string) | Release(id: string) | Forget(id: string)

  /** Live leases fit in a counter. A request that still holds an old snapshot may select a forgotten provider. */
  predicate Enabled(s: State, step: Step) {
    match step
    case Acquire(id) => |s.leases| < U64_SIZE - 1
    case Release(id) => id in s.leases
    case Forget(id) => true
  }

  function Next(s: State, step: Step): State {
    match step
    case Acquire(id) => s.(inflight := Acquired(s.inflight, id), leases := s.leases + multiset{id})
    case Release(id) => s.(inflight := Released(s.inflight, id), leases := s.leases - multiset{id})
    case Forget(id) => s.(inflight := s.inflight - {id}, forgotten := s.forgotten + {id})
  }

  predicate IsRun(s: State, steps: seq<Step>) {
    steps == [] ||
    (IsRun(s, steps[..|steps| - 1]) && Enabled(After(s, steps[..|steps| - 1]), steps[|steps| - 1]))
  }

  function After(s: State, steps: seq<Step>): State {
    if steps == [] then s else Next(After(s, steps[..|steps| - 1]), steps[|steps| - 1])
  }

  ghost predicate Conserved(s: State) {
    && |s.leases| < U64_SIZE
    && (forall id :: id !in s.forgotten ==> Load(s.inflight, id) == s.leases[id])
    && (forall id :: id in s.forgotten ==> id !in s.inflight)
  }

  lemma LeasesOfOneFit(leases: multiset<string>, id: string)
    ensures leases[id] <= |leases|
  {
    var others := leases[id := 0];
    assert leases == others + multiset{}[id := leases[id]];
  }

  /** A step neither underflows nor wraps, and a lease of a forgotten provider drops without a trace. */
  lemma StepConserves(s: State, step: Step)
    requires Conserved(s) && Enabled(s, step) && (step.Acquire? ==> step.id !in s.forgotten)
    ensures Conserved(Next(s, step))
    ensures step.Release? && step.id !in s.forgotten ==> step.id in s.inflight && s.inflight[step.id] >= 1
    ensures step.Release? && step.id in s.forgotten ==> Next(s, step).inflight == s.inflight
  {
    var n := Next(s, step);
    forall id | id !in n.forgotten ensures Load(n.inflight, id) == n.leases[id] {
      LeasesOfOneFit(s.leases, id);
    }
  }

  /** No step of the run selects a provider forgotten before. */
  predicate NeverReselects(s: State, steps: seq<Step>) {
    steps == [] ||
    var init, last := steps[..|steps| - 1], steps[|steps| - 1];
    NeverReselects(s, init) && (last.Acquire? ==> last.id !in After(s, init).forgotten)
  }

  /** Over every such run each provider that was not forgotten counts exactly its live leases. */
  lemma {:induction false} RunConserves(s: State, steps: seq<Step>)
    requires Conserved(s) && IsRun(s, steps) && NeverReselects(s, steps)
    ensures Conserved(After(s, steps))
  {
    if steps != [] {
      RunConserves(s, steps[..|steps| - 1]);
      StepConserves(After(s, steps[..|steps| - 1]), steps[|steps| - 1]);
    }
  }

  // ----- Reselection after a forget

  /** How many leases of `id` were live when its counter was last created anew. */
  function Uncounted(s: State, steps: seq<Step>, id: string): nat {
    if steps == [] then 0
    else
      var before := After(s, steps[..|steps| - 1]);
      if steps[|steps| - 1] == Acquire(id) && id !in before.inflight then before.leases[id]
      else Uncounted(s, steps[..|steps| - 1], id)
  }

  lemma WrapNear(x: int)
    requires -U64_SIZE <= x < 2 * U64_SIZE
    ensures Wrap(x) == if x < 0 then x + U64_SIZE else if x >= U64_SIZE then x - U64_SIZE else x
  {
  }

  /** What a 64-bit counter shows that counts `live` leases but never counted `missing` of them. */
  function Shown(live: int, missing: int): int {
    if live >= missing then live - missing else live - missing + U64_SIZE
  }

  lemma ShownMoves(live: int, missing: int)
    requires 0 <= live < U64_SIZE && 0 <= missing < U64_SIZE
    ensures live + 1 < U64_SIZE ==> Wrap(Shown(live, missing) + 1) == Shown(live + 1, missing)
    ensures live > 0 ==> Wrap(Shown(live, missing) - 1) == Shown(live - 1, missing)
  {
    WrapNear(Shown(live, missing) + 1);
    WrapNear(Shown(live, missing) - 1);
  }

  ghost predicate Accounted(s: State, missing: nat, id: string) {
    && |s.leases| < U64_SIZE && missing < U64_SIZE
    && (id in s.inflight ==> s.inflight[id] == Shown(s.leases[id], missing))
  }

  lemma StepAccounts(s: State, step: Step, missing: nat, id: string)
    requires Enabled(s, step) && Accounted(s, missing, id)
    ensures Accounted(Next(s, step), if step == Acquire(id) && id !in s.inflight then s.leases[id] else missing, id)
  {
    LeasesOfOneFit(s.leases, id);
    ShownMoves(s.leases[id], missing);
    ShownMoves(s.leases[id], s.leases[id]);
  }

  /** Over every run, a counter shows the live leases less those it never counted. */
  lemma {:induction false} CountersOverRuns(s: State, steps: seq<Step>, id: string)
    requires Conserved(s) && IsRun(s, steps)
    ensures Accounted(After(s, steps), Uncounted(s, steps, id), id)
  {
    if steps == [] {
      LeasesOfOneFit(s.leases, id);
    } else {
      CountersOverRuns(s, steps[..|steps| - 1], id);
      StepAccounts(After(s, steps[..|steps| - 1]), steps[|steps| - 1], Uncounted(s, steps[..|steps| - 1], id), id);
    }
  }

  /**
   A counter shows the live leases of its provider if and only if none was live when the counter was last
   created. Only reselecting a provider after forgetting it creates its counter again.
   */
  lemma CountersAreExactIff(s: State, steps: seq<Step>, id: string)
    requires Conserved(s) && IsRun(s, steps) && id in After(s, steps).inflight
    ensures After(s, steps).inflight[id] == After(s, steps).leases[id] <==> Uncounted(s, steps, id) == 0
  {
    CountersOverRuns(s, steps, id);
  }

  /** Once all leases are dropped, a counter that missed some stays below zero by as many, wrapped. */
  lemma ReselectionAfterForgetUnderflows(s: State, steps: seq<Step>, id: string)
    requires Conserved(s) && IsRun(s, steps) && id in After(s, steps).inflight && After(s, steps).leases[id] == 0
    ensures var missing: int := Uncounted(s, steps, id);
            After(s, steps).inflight[id] == if missing == 0 then 0 else U64_SIZE - missing
  {
    CountersOverRuns(s, steps, id);
  }

  lemma Taken(s: State, steps: seq<Step>, step: Step)
    requires IsRun(s, steps) && Enabled(After(s, steps), step)
    ensures IsRun(s, steps + [step]) && After(s, steps + [step]) == Next(After(s, steps), step)
  {
    assert (steps + [step])[..|steps|] == steps;
  }

  lemma LeaseForgetLease(s: State, id: string)
    requires Conserved(s) && id !in s.forgotten && s.leases[id] == 0 && |s.leases| < U64_SIZE - 2
    ensures var steps := [] + [Acquire(id)] + [Forget(id)] + [Acquire(id)];
            && IsRun(s, steps) && id in After(s, steps).inflight && After(s, steps).inflight[id] == 1
            && After(s, steps).leases == s.leases + multiset{id} + multiset{id}
  {
    WrapNear(1);
    Taken(s, [], Acquire(id));
    var a := [] + [Acquire(id)];
    Taken(s, a, Forget(id));
    Taken(s, a + [Forget(id)], Acquire(id));
  }

  /** The shortest such run. */
  lemma ForgetBetweenTwoLeasesUnderflows(s: State, id: string)
    requires Conserved(s) && id !in s.forgotten && s.leases[id] == 0 && |s.leases| < U64_SIZE - 2
    ensures var steps := [] + [Acquire(id)] + [Forget(id)] + [Acquire(id)] + [Release(id)] + [Release(id)];
            IsRun(s, steps) && id in After(s, steps).inflight && After(s, steps).inflight[id] == U64_SIZE - 1
  {
    var a := [] + [Acquire(id)] + [Forget(id)] + [Acquire(id)];
    LeaseForgetLease(s, id);
    WrapNear(0);
    WrapNear(-1);
    Taken(s, a, Release(id));
    Taken(s, a + [Release(id)], Release(id));
  }

  // ----- The least-loaded choice

  /** The position `k` places after `start` in `cycle()`. */
  function At(start: nat, k: nat, n: nat): (i: nat)
    requires start < n && k < n
    ensures i < n
  {
    if start + k < n then start + k else start + k - n
  }

  /**
   `cycle().skip(start).take(n).min_by_key(load)`: how far from the start the first smallest load among the
   first `m` lies.
   */
  function FirstLeast(loads: seq<int>, start: nat, m: nat): (best: nat)
    requires 0 < m <= |loads| && start < |loads|
    ensures best < m
    ensures forall k :: 0 <= k < m ==> loads[At(start, best, |loads|)] <= loads[At(start, k, |loads|)]
    ensures forall k :: 0 <= k < best ==> loads[At(start, best, |loads|)] < loads[At(start, k, |loads|)]
  {
    if m == 1 then 0
    else
      var best := FirstLeast(loads, start, m - 1);
      if loads[At(start, m - 1, |loads|)] < loads[At(start, best, |loads|)] then m - 1 else best
  }

  /** The index `least_inflight` picks for a cursor value. */
  function Pick(loads: seq<int>, cursor: nat): (i: nat)
    requires loads != []
    ensures i < |loads|
  {
    At(cursor % |loads|, FirstLeast(loads, cursor % |loads|, |loads|), |loads|)
  }

  lemma EveryPositionIsVisited(start: nat, i: nat, n: nat) returns (k: nat)
    requires start < n && i < n
    ensures k < n && At(start, k, n) == i
  {
    k := if start <= i then i - start else i + n - start;
  }

  lemma PickIsLeast(loads: seq<int>, cursor: nat)
    requires loads != []
    ensures forall i :: 0 <= i < |loads| ==> loads[Pick(loads, cursor)] <= loads[i]
  {
    forall i | 0 <= i < |loads| ensures loads[Pick(loads, cursor)] <= loads[i] {
      var k := EveryPositionIsVisited(cursor % |loads|, i, |loads|);
    }
  }

  // ----- Balance: whatever the cursor does

  function Same(x: int): int {
    x
  }

  function Total(loads: seq<int>): int {
    Sum(Same, loads)
  }

  lemma {:induction false} SumBounds(loads: seq<int>, lo: int, hi: int)
    requires forall i :: 0 <= i < |loads| ==> lo <= loads[i] <= hi
    ensures lo * |loads| <= Total(loads) <= hi * |loads|
    ensures Total(loads) == lo * |loads| ==> forall i :: 0 <= i < |loads| ==> loads[i] == lo
    ensures Total(loads) == hi * |loads| ==> forall i :: 0 <= i < |loads| ==> loads[i] == hi
  {
    if loads != [] {
      var n := |loads| - 1;
      SumBounds(loads[..n], lo, hi);
      assert forall i :: 0 <= i < n ==> loads[i] == loads[..n][i];
      assert lo * |loads| == lo * n + lo && hi * |loads| == hi * n + hi;
    }
  }

  /** Loads after one pick. */
  function Picked(loads: seq<int>, cursor: nat): (r: seq<int>)
    requires loads != []
    ensures |r| == |loads|
  {
    var i := Pick(loads, cursor);
    loads[i := loads[i] + 1]
  }

  /** Loads after the first `k` picks, `cursors` being the values the cursor handed out. */
  function AfterPicks(loads: seq<int>, cursors: seq<nat>, k: nat): (r: seq<int>)
    requires loads != [] && k <= |cursors|
    ensures |r| == |loads|
  {
    if k == 0 then loads else Picked(AfterPicks(loads, cursors, k - 1), cursors[k - 1])
  }

  /** `k` leases on `n` providers: everyone carries `k / n` or, if that does not come out even, one more. */
  ghost predicate Even(loads: seq<int>, k: nat)
    requires loads != []
  {
    && Total(loads) == k
    && forall i :: 0 <= i < |loads| ==> k / |loads| <= loads[i] <= k / |loads| + (if k % |loads| == 0 then 0 else 1)
  }

  lemma LeastIsTheQuotient(loads: seq<int>, k: nat, i: nat)
    requires loads != [] && Even(loads, k) && i < |loads| && forall j :: 0 <= j < |loads| ==> loads[i] <= loads[j]
    ensures loads[i] == k / |loads|
  {
    var n, q := |loads|, k / |loads|;
    assert k == q * n + k % n && (q + 1) * n == q * n + n;
    if loads[i] > q {
      SumBounds(loads, q + 1, q + 1);
    }
  }

  lemma EvenStaysEven(loads: seq<int>, k: nat, cursor: nat)
    requires loads != [] && Even(loads, k)
    ensures Even(Picked(loads, cursor), k + 1)
  {
    var n, q := |loads|, k / |loads|;
    var i, after := Pick(loads, cursor), Picked(loads, cursor);
    PickIsLeast(loads, cursor);
    LeastIsTheQuotient(loads, k, i);
    SumOfUpdate(Same, loads, i, q + 1);
    OneMore(k, n);
    assert forall j :: 0 <= j < n ==> q <= after[j] <= q + 1;
    if k % n + 1 == n {
      SumBounds(after, q, q + 1);
    }
  }

  lemma QuotientIsUnique(x: nat, n: nat, q: nat, r: nat)
    requires n > 0 && x == q * n + r && r < n
    ensures x / n == q && x % n == r
  {
    var d := q - x / n;
    assert x == (x / n) * n + x % n;
    assert d * n == q * n - (x / n) * n == x % n - r;
    Multiple(d, n);
  }

  lemma {:induction false} Multiple(d: int, n: nat)
    ensures d > 0 ==> d * n >= n
    ensures d < 0 ==> d * n + n <= 0
    decreases if d < 0 then -d else d
  {
    if d > 1 {
      Multiple(d - 1, n);
      assert d * n == (d - 1) * n + n;
    } else if d < -1 {
      Multiple(d + 1, n);
      assert d * n == (d + 1) * n - n;
    }
  }

  /** Counting one further: the remainder grows, or the next multiple is reached. */
  lemma OneMore(k: nat, n: nat)
    requires n > 0
    ensures if k % n + 1 == n then (k + 1) % n == 0 && (k + 1) / n == k / n + 1 && k + 1 == (k / n + 1) * n
            else (k + 1) % n == k % n + 1 && (k + 1) / n == k / n
  {
    assert k == (k / n) * n + k % n;
    if k % n + 1 == n {
      assert k + 1 == (k / n + 1) * n;
      QuotientIsUnique(k + 1, n, k / n + 1, 0);
    } else {
      QuotientIsUnique(k + 1, n, k / n, k % n + 1);
    }
  }

  lemma EvenAtZero(loads: seq<int>)
    requires loads != [] && forall i :: 0 <= i < |loads| ==> loads[i] == 0
    ensures Even(loads, 0)
  {
    SumBounds(loads, 0, 0);
    QuotientIsUnique(0, |loads|, 0, 0);
  }

  /**
   From zero load, after any number of picks with any cursor values, no two providers differ by more than one
   lease.
   */
  lemma {:induction false} PicksStayEven(loads: seq<int>, cursors: seq<nat>, k: nat)
    requires loads != [] && k <= |cursors| && forall i :: 0 <= i < |loads| ==> loads[i] == 0
    ensures Even(AfterPicks(loads, cursors, k), k)
  {
    if k == 0 {
      EvenAtZero(loads);
    } else {
      PicksStayEven(loads, cursors, k - 1);
      EvenStaysEven(AfterPicks(loads, cursors, k - 1), k - 1, cursors[k - 1]);
    }
  }

  // ----- Rotation: while the cursor does not wrap

  /** `fetch_add` without wrap-around. */
  predicate Consecutive(cursors: seq<nat>) {
    forall i :: 0 <= i < |cursors| ==> cursors[i] == cursors[0] + i
  }

  /** After `k` picks the `k % n` providers just behind the cursor carry one lease more than the rest. */
  ghost predicate Rotated(loads: seq<int>, cursor: nat, k: nat)
    requires loads != []
  {
    var n := |loads|;
    forall d :: 0 <= d < n ==> loads[At(cursor % n, d, n)] == k / n + (if d < n - k % n then 0 else 1)
  }

  lemma RotationAdvances(loads: seq<int>, cursor: nat, k: nat)
    requires loads != [] && Rotated(loads, cursor, k)
    ensures Pick(loads, cursor) == cursor % |loads|
    ensures Rotated(Picked(loads, cursor), cursor + 1, k + 1)
  {
    var n, start := |loads|, cursor % |loads|;
    var best := FirstLeast(loads, start, n);
    assert loads[At(start, 0, n)] == k / n;
    var after := Picked(loads, cursor);
    assert after == loads[start := loads[start] + 1];
    OneMore(cursor, n);
    OneMore(k, n);
    var next := (cursor + 1) % n;
    forall d | 0 <= d < n ensures after[At(next, d, n)] == (k + 1) / n + (if d < n - (k + 1) % n then 0 else 1) {
      if d < n - 1 { assert At(next, d, n) == At(start, d + 1, n); }
    }
  }

  /** The provider chosen by the `k`-th pick. */
  function PickAt(loads: seq<int>, cursors: seq<nat>, k: nat): nat
    requires loads != [] && k < |cursors|
  {
    Pick(AfterPicks(loads, cursors, k), cursors[k])
  }

  lemma RotatedAtZero(loads: seq<int>, cursor: nat)
    requires loads != [] && forall i :: 0 <= i < |loads| ==> loads[i] == 0
    ensures Rotated(loads, cursor, 0)
  {
    QuotientIsUnique(0, |loads|, 0, 0);
  }

  lemma {:induction false} PicksStayRotated(loads: seq<int>, cursors: seq<nat>, k: nat)
    requires loads != [] && k < |cursors| && Consecutive(cursors) && forall i :: 0 <= i < |loads| ==> loads[i] == 0
    ensures Rotated(AfterPicks(loads, cursors, k), cursors[k], k)
  {
    if k == 0 {
      RotatedAtZero(loads, cursors[0]);
    } else {
      PicksStayRotated(loads, cursors, k - 1);
      RotationAdvances(AfterPicks(loads, cursors, k - 1), cursors[k - 1], k - 1);
    }
  }

  /** The choice goes round: the `k`-th pick is the provider `k` places after the first. */
  lemma PicksGoRound(loads: seq<int>, cursors: seq<nat>, k: nat)
    requires loads != [] && k < |cursors| && Consecutive(cursors) && forall i :: 0 <= i < |loads| ==> loads[i] == 0
    ensures PickAt(loads, cursors, k) == (cursors[0] + k) % |loads|
  {
    PicksStayRotated(loads, cursors, k);
    RotationAdvances(AfterPicks(loads, cursors, k), cursors[k], k);
  }

  /** The providers chosen by the `n` picks from the `k`-th on. */
  function Block(loads: seq<int>, cursors: seq<nat>, k: nat): (block: seq<int>)
    requires loads != [] && k + |loads| <= |cursors|
    ensures |block| == |loads|
  {
    seq(|loads|, d requires 0 <= d < |loads| => PickAt(loads, cursors, k + d))
  }

  /** In every `n` consecutive picks each of the `n` providers is chosen exactly once. */
  lemma EveryBlockVisitsEachOnce(loads: seq<int>, cursors: seq<nat>, k: nat)
    requires loads != [] && forall j :: 0 <= j < |loads| ==> loads[j] == 0
    requires Consecutive(cursors) && k + |loads| <= |cursors|
    ensures var block := Block(loads, cursors, k);
            && (forall i :: 0 <= i < |loads| ==> i in block)
            && (forall c, d :: 0 <= c < d < |block| ==> block[c] != block[d])
  {
    var n, block := |loads|, Block(loads, cursors, k);
    var start := (cursors[0] + k) % n;
    forall d | 0 <= d < n ensures block[d] == if start + d < n then start + d else start + d - n {
      BlockPick(loads, cursors, k, d);
    }
    forall i | 0 <= i < n ensures i in block {
      assert block[if start <= i then i - start else i + n - start] == i;
    }
  }

  lemma BlockPick(loads: seq<int>, cursors: seq<nat>, k: nat, d: nat)
    requires loads != [] && (forall j :: 0 <= j < |loads| ==> loads[j] == 0)
    requires Consecutive(cursors) && k + d < |cursors| && d < |loads|
    ensures PickAt(loads, cursors, k + d) == At((cursors[0] + k) % |loads|, d, |loads|)
  {
    PicksGoRound(loads, cursors, k + d);
    AheadOf(cursors[0] + k, d, |loads|);
  }

  lemma AheadOf(x: nat, d: nat, n: nat)
    requires n > 0 && d < n
    ensures (x + d) % n == At(x % n, d, n)
  {
    var q := x / n;
    assert x == q * n + x % n && (q + 1) * n == q * n + n;
    if x % n + d < n {
      QuotientIsUnique(x + d, n, q, x % n + d);
    } else {
      QuotientIsUnique(x + d, n, q + 1, x % n + d - n);
    }
  }
}
