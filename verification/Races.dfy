/**
 Runs of `WriteBehind` that are not orderly, and what they lose. Each starts from start-up, with a
 provider that is enabled and active.
 */
module Races {
  import opened Options
  import opened Providers
  import opened Database
  import opened WriteBehind
  import opened Refinement

  ghost predicate Usable(s: State, id: string) {
    Initial(s) && id in s.db.providers && !s.db.providers[id].manualDisabled && s.db.providers[id].status == Active
  }

  predicate CoolsDown(update: ProviderUpdate, until: int) {
    update.status == Some(Cooldown) && update.cooldownUntil == Some(until)
  }

  predicate Plain(update: ProviderUpdate) {
    update.status == None && update.circuit == None
  }

  /** `s` runs through `steps` to `n`. */
  ghost predicate Reaches(s: State, steps: seq<Step>, n: State) {
    IsRun(s, steps) && After(s, steps) == n
  }

  lemma Extended(s: State, steps: seq<Step>, n: State, step: Step)
    requires Reaches(s, steps, n) && Enabled(n, step)
    ensures Reaches(s, steps + [step], Next(n, step))
  {
    Taken(n, step);
    Joined(s, steps, [step]);
  }

  lemma Chained(s: State, first: seq<Step>, m: State, second: seq<Step>, n: State)
    requires Reaches(s, first, m) && Reaches(m, second, n)
    ensures Reaches(s, first + second, n)
  {
    Joined(s, first, second);
  }

  // ----- Observations that nothing interrupts

  function ObserveSteps(t: nat, id: string, update: ProviderUpdate): seq<Step> {
    [] + [LoadObserve(t, id, update)] + [StoreObserve(t)] + [Merge(t)]
  }

  function Observed(s: State, id: string, update: ProviderUpdate): State {
    s.(cache := ObserveRow(s.cache, id, update), version := s.version + 1, ideal := ObserveRow(s.ideal, id, update),
       pending := ObservePending(s.pending, id, update), owed := s.owed[id := []])
  }

  lemma ObservesAlone(s: State, t: nat, id: string, update: ProviderUpdate)
    requires t !in s.tasks && OwedTo(s, id) == []
    ensures Reaches(s, ObserveSteps(t, id, update), Observed(s, id, update))
  {
    var load, store, merge := LoadObserve(t, id, update), StoreObserve(t), Step.Merge(t);
    assert Reaches(s, [], s);
    Extended(s, [], s, load);
    var loaded := Next(s, load);
    Extended(s, [] + [load], loaded, store);
    var stored := Next(loaded, store);
    Extended(s, [] + [load] + [store], stored, merge);
    var merged := Next(stored, merge);
    var owed := OwedTo(stored, id);
    assert owed == [(t, update)] && Position(owed, t) == 0 && Ahead(owed, t) + Behind(owed, t) == [];
    assert merged.owed == s.owed[id := []] && merged.tasks == s.tasks;
  }

  /** A deleted provider is forgotten. */
  lemma ForgetsAlone(s: State, t: nat, id: string)
    requires t !in s.tasks && id in s.gone
    ensures Reaches(s, [] + [LoadForget(t, id)] + [StoreForget(t)] + [DropUpdate(t)],
                    s.(cache := s.cache - {id}, version := s.version + 1, pending := s.pending - {id}))
  {
    var load, store := LoadForget(t, id), StoreForget(t);
    assert Reaches(s, [], s);
    Extended(s, [], s, load);
    var loaded := Next(s, load);
    Extended(s, [] + [load], loaded, store);
    var stored := Next(loaded, store);
    Extended(s, [] + [load] + [store], stored, DropUpdate(t));
    assert stored.tasks == s.tasks[t := Dropping(id)] && s.tasks[t := Dropping(id)] - {t} == s.tasks;
  }

  // ----- Overlapping stores of the snapshot

  /** The observer of `q` loads the snapshot before the observer of `p` stores it, and stores it after. */
  function Overlap(p: string, cooling: ProviderUpdate, q: string, other: ProviderUpdate): seq<Step> {
    [] + [LoadObserve(0, q, other)] + [LoadObserve(1, p, cooling)] + [StoreObserve(1)] + [StoreObserve(0)]
  }

  /** The cooldown of `p` is gone from the snapshot, so `p` is offered again, whatever time is left of it. */
  lemma OverlappingObserversLoseACooldown(
    s: State, p: string, cooling: ProviderUpdate, until: int, q: string, other: ProviderUpdate, time: int)
    requires Usable(s, p) && CoolsDown(cooling, until) && q != p && s.clock <= time < until
    ensures var steps := Overlap(p, cooling, q, other);
            && IsRun(s, steps)
            && var n := After(s, steps);
               && p in n.cache && Available(n.cache[p], time)
               && p in n.ideal && !Available(n.ideal[p], time)
               && IsRun(s, steps[..3]) && Enabled(After(s, steps[..3]), StoreObserve(0))
               && !Careful(Availability, After(s, steps[..3]), StoreObserve(0))
  {
    var row, steps := s.db.providers[p], Overlap(p, cooling, q, other);
    CooldownIsStored(s, p, cooling, q, other);
    var stored := After(s, steps[..3]);
    Extended(s, steps[..3], stored, StoreObserve(0));
    assert steps == steps[..3] + [StoreObserve(0)];
    assert !LooksCurrent(Availability, stored, stored.tasks[0].loaded, p, None);
  }

  lemma CooldownIsStored(s: State, p: string, cooling: ProviderUpdate, q: string, other: ProviderUpdate)
    requires Initial(s)
    ensures var steps := Overlap(p, cooling, q, other);
            && IsRun(s, steps[..3])
            && var n := After(s, steps[..3]);
               && n.cache == ObserveRow(s.cache, p, cooling) == n.ideal && n.db == s.db && n.clock == s.clock
               && n.awaiting == {} && 0 in n.tasks && n.tasks[0] == Observing(q, other, s.cache, s.version)
  {
    var a, b := LoadObserve(0, q, other), LoadObserve(1, p, cooling);
    assert Reaches(s, [], s);
    Extended(s, [], s, a);
    Extended(s, [] + [a], Next(s, a), b);
    Extended(s, [] + [a] + [b], Next(Next(s, a), b), StoreObserve(1));
    assert Overlap(p, cooling, q, other)[..3] == [] + [a] + [b] + [StoreObserve(1)];
  }

  // ----- Merges in another order than stores

  /** Two observers of `p` store the snapshot one after the other and merge their updates the other way round. */
  function Overtaken(p: string, first: ProviderUpdate, second: ProviderUpdate): seq<Step> {
    [] + [LoadObserve(0, p, first)] + [StoreObserve(0)] + [LoadObserve(1, p, second)] + [StoreObserve(1)]
    + [Step.Merge(1)] + [Step.Merge(0)]
  }

  function StoredBoth(s: State, p: string, first: ProviderUpdate, second: ProviderUpdate): State {
    s.(cache := ObserveRow(ObserveRow(s.cache, p, first), p, second), version := s.version + 2,
       ideal := ObserveRow(ObserveRow(s.ideal, p, first), p, second),
       tasks := map[0 := Merging(p, first), 1 := Merging(p, second)], owed := map[p := [(0, first), (1, second)]])
  }

  lemma BothStore(s: State, p: string, first: ProviderUpdate, second: ProviderUpdate)
    requires Initial(s)
    ensures Reaches(s, Overtaken(p, first, second)[..4], StoredBoth(s, p, first, second))
  {
    var a, b := LoadObserve(0, p, first), LoadObserve(1, p, second);
    assert Reaches(s, [], s);
    Extended(s, [], s, a);
    Extended(s, [] + [a], Next(s, a), StoreObserve(0));
    var one := Next(Next(s, a), StoreObserve(0));
    var c := [] + [a] + [StoreObserve(0)];
    assert OwedTo(one, p) == [(0, first)];
    Extended(s, c, one, b);
    Extended(s, c + [b], Next(one, b), StoreObserve(1));
    var two := Next(Next(one, b), StoreObserve(1));
    assert [(0, first)] + [(1, second)] == [(0, first), (1, second)];
    assert two.owed == map[p := [(0, first), (1, second)]];
    assert two.tasks == map[0 := Merging(p, first), 1 := Merging(p, second)];
    assert two == StoredBoth(s, p, first, second);
    assert Overtaken(p, first, second)[..4] == c + [b] + [StoreObserve(1)];
  }

  lemma YoungerMergesFirst(s: State, p: string, first: ProviderUpdate, second: ProviderUpdate)
    requires Initial(s)
    ensures exists n :: Reaches(s, Overtaken(p, first, second), n)
                        && n.cache == StoredBoth(s, p, first, second).cache && n.db == s.db
                        && n.pending == map[p := Providers.Merge(second, first)] && OwedTo(n, p) == []
  {
    BothStore(s, p, first, second);
    var steps, stored := Overtaken(p, first, second), StoredBoth(s, p, first, second);
    Extended(s, steps[..4], stored, Step.Merge(1));
    var one := Next(stored, Step.Merge(1));
    var owed := [(0, first), (1, second)];
    assert Position(owed, 1) == 1 && Ahead(owed, 1) + Behind(owed, 1) == [(0, first)];
    assert Position([(0, first)], 0) == 0 && Ahead([(0, first)], 0) + Behind([(0, first)], 0) == [];
    Extended(s, steps[..4] + [Step.Merge(1)], one, Step.Merge(0));
    assert OwedTo(Next(one, Step.Merge(0)), p) == [];
    assert steps == steps[..4] + [Step.Merge(1)] + [Step.Merge(0)];
  }

  /**
   An authentication error followed by a cooldown is stored as a cooldown followed by an authentication
   error: once the cooldown is over the snapshot offers the provider, and the database never will.
   */
  lemma OvertakingSplitsSnapshotAndDatabase(
    s: State, p: string, failing: ProviderUpdate, cooling: ProviderUpdate, until: int, time: int)
    requires Usable(s, p) && failing.status == Some(AuthError) && CoolsDown(cooling, until) && until <= time
    ensures IsRun(s, Overtaken(p, failing, cooling))
    ensures var n := After(s, Overtaken(p, failing, cooling));
            && p in n.cache && Available(n.cache[p], time)
            && p in n.db.providers && !Available(Stored(n, p, n.db.providers[p]), time)
  {
    YoungerMergesFirst(s, p, failing, cooling);
  }

  // ----- Reloads

  /** The snapshot is reloaded before the observation is flushed. */
  function ReloadedEarly(p: string, cooling: ProviderUpdate): seq<Step> {
    ObserveSteps(0, p, cooling) + [Read(1)] + [Install(1)]
  }

  /** The cooldown is gone from the snapshot, though it will reach the database. */
  lemma EarlyReloadForgetsACooldown(s: State, p: string, cooling: ProviderUpdate, until: int, time: int)
    requires Usable(s, p) && CoolsDown(cooling, until) && time < until
    ensures IsRun(s, ReloadedEarly(p, cooling))
    ensures var n := After(s, ReloadedEarly(p, cooling));
            && p in n.cache && Available(n.cache[p], time)
            && p in n.db.providers && !Available(Stored(n, p, n.db.providers[p]), time)
  {
    ObservesAlone(s, 0, p, cooling);
    var a, seen := ObserveSteps(0, p, cooling), Observed(s, p, cooling);
    Extended(s, a, seen, Read(1));
    Extended(s, a + [Read(1)], Next(seen, Read(1)), Install(1));
  }

  // ----- Operators' writes

  function FlushSteps(p: string): seq<Step> {
    [] + [Begin] + [Collect(p)] + [Commit]
  }

  /** A pass has stored the one pending update. */
  function FlushedOnce(s: State, p: string, update: ProviderUpdate): State {
    s.(db := Flush(s.db, [(p, update)], s.clock).GetOr(s.db), phase := Committed(s.clock, [(p, update)]))
  }

  lemma FlushWithoutCircuitCommits(db: Db, p: string, update: ProviderUpdate, now: int)
    requires p in db.providers && update.circuit == None
    ensures Flush(db, [(p, update)], now)
        == Some(RecoverAll(UpdateStatus(db, p, ApplyStored(db.providers[p], update)), now))
  {
    assert [(p, update)][..0] == [];
    assert FlushAll(db, [(p, update)]) == FlushOne(db, (p, update));
  }

  lemma UpdateIsFlushed(s: State, p: string, update: ProviderUpdate)
    requires s.pending == map[p := update] && s.phase == Idle && Flush(s.db, [(p, update)], s.clock).Some?
    ensures Reaches(s, FlushSteps(p), FlushedOnce(s, p, update))
  {
    assert Reaches(s, [], s);
    Extended(s, [], s, Begin);
    var collected := s.(phase := Collecting(s.clock, [(p, update)]));
    Extended(s, [] + [Begin], Next(s, Begin), Collect(p));
    assert [] + [(p, update)] == [(p, update)];
    assert Next(Next(s, Begin), Collect(p)) == collected;
    Extended(s, [] + [Begin] + [Collect(p)], collected, Commit);
  }

  /** An authentication error is pending when an operator writes the row; the next pass flushes it. */
  function WrittenEarly(p: string, failing: ProviderUpdate, row: Provider): seq<Step> {
    ObserveSteps(0, p, failing) + [Write(p, row)] + FlushSteps(p)
  }

  /** Flushed into the operator's row, the error stays. */
  lemma RefusalIsStored(db: Db, p: string, failing: ProviderUpdate, row: Provider, now: int)
    requires failing.status == Some(AuthError) && failing.circuit == None && !row.manualDisabled
    ensures var flushed := Flush(WriteRow(db, p, row), [(p, failing)], now);
            && flushed.Some? && p in flushed.value.providers
            && flushed.value.providers[p].status == AuthError
            && CredentialsOf(flushed.value.providers[p]) == CredentialsOf(row)
  {
    FlushWithoutCircuitCommits(WriteRow(db, p, row), p, failing, now);
  }

  /** The database holds the new tokens as refused: the provider never comes back by itself. */
  lemma PendingUpdateUndoesAWrite(s: State, p: string, failing: ProviderUpdate, row: Provider)
    requires Usable(s, p) && failing.status == Some(AuthError) && failing.circuit == None
    requires row.status == Active && !row.manualDisabled
    ensures IsRun(s, WrittenEarly(p, failing, row))
    ensures var n := After(s, WrittenEarly(p, failing, row));
            && p in n.db.providers && CredentialsOf(n.db.providers[p]) == CredentialsOf(row)
            && p in n.ideal && forall time :: Available(n.ideal[p], time) && !Available(n.db.providers[p], time)
    ensures Enabled(Observed(s, p, failing), Write(p, row))
            && !Careful(Availability, Observed(s, p, failing), Write(p, row))
  {
    var a, seen := ObserveSteps(0, p, failing), Observed(s, p, failing);
    ObservesAlone(s, 0, p, failing);
    Extended(s, a, seen, Write(p, row));
    var written := Next(seen, Write(p, row));
    RefusalIsStored(s.db, p, failing, row, s.clock);
    UpdateIsFlushed(written, p, failing);
    Chained(s, a + [Write(p, row)], written, FlushSteps(p), FlushedOnce(written, p, failing));
  }

  // ----- A merge between comparison and removal

  function PassUntilMatched(p: string): seq<Step> {
    FlushSteps(p) + [Compare]
  }

  /** A plain response is flushed; while its update is settled, a cooldown is observed. */
  function DroppedLate(p: string, plain: ProviderUpdate, cooling: ProviderUpdate): seq<Step> {
    ObserveSteps(0, p, plain) + PassUntilMatched(p) + ObserveSteps(1, p, cooling) + [Drop]
  }

  lemma PassMatches(s: State, p: string, plain: ProviderUpdate)
    requires s.pending == map[p := plain] && s.phase == Idle && Flush(s.db, [(p, plain)], s.clock).Some?
    ensures Reaches(s, PassUntilMatched(p), FlushedOnce(s, p, plain).(phase := Matched(s.clock, [(p, plain)])))
  {
    UpdateIsFlushed(s, p, plain);
    Extended(s, FlushSteps(p), FlushedOnce(s, p, plain), Compare);
  }

  /** The cooldown is removed along with the update it was merged into, and never reaches the database. */
  lemma LateDropLosesAnObservation(
    s: State, p: string, plain: ProviderUpdate, cooling: ProviderUpdate, until: int, time: int)
    requires Usable(s, p) && Plain(plain) && CoolsDown(cooling, until) && time < until
    ensures IsRun(s, DroppedLate(p, plain, cooling))
    ensures var n := After(s, DroppedLate(p, plain, cooling));
            && p in n.cache && !Available(n.cache[p], time)
            && p in n.db.providers && Available(Stored(n, p, n.db.providers[p]), time)
  {
    var one := Observed(s, p, plain);
    ObservesAlone(s, 0, p, plain);
    FlushWithoutCircuitCommits(s.db, p, plain, s.clock);
    PassMatches(one, p, plain);
    var two := FlushedOnce(one, p, plain).(phase := Matched(s.clock, [(p, plain)]));
    Chained(s, ObserveSteps(0, p, plain), one, PassUntilMatched(p), two);
    ObservesAlone(two, 1, p, cooling);
    var three := Observed(two, p, cooling);
    var a := ObserveSteps(0, p, plain) + PassUntilMatched(p);
    Chained(s, a, two, ObserveSteps(1, p, cooling), three);
    Extended(s, a + ObserveSteps(1, p, cooling), three, Drop);
    var n := Next(three, Drop);
    assert OwedTo(n, p) == [] && p !in n.pending;
  }

  // ----- A pass during which an observation arrives

  /** A response is observed between the collection of a pending update and its flush; the pass ends at `now`. */
  function Pass(p: string, t: nat, update: ProviderUpdate, now: int): seq<Step> {
    UntilCollected(p, now) + ObserveSteps(t, p, update) + UntilEnded()
  }

  function UntilCollected(p: string, now: int): seq<Step> {
    [] + [Tick(now)] + [Begin] + [Collect(p)]
  }

  function UntilEnded(): seq<Step> {
    [] + [Commit] + [Compare] + [LoadRecover] + [StoreRecover]
  }

  lemma PassCollects(s: State, p: string, pending: ProviderUpdate, now: int)
    requires s.pending == map[p := pending] && s.phase == Idle && s.clock <= now
    ensures Reaches(s, UntilCollected(p, now), s.(clock := now, phase := Collecting(now, [(p, pending)])))
  {
    assert Reaches(s, [], s);
    Extended(s, [], s, Tick(now));
    Extended(s, [] + [Tick(now)], Next(s, Tick(now)), Begin);
    Extended(s, [] + [Tick(now)] + [Begin], Next(Next(s, Tick(now)), Begin), Collect(p));
    assert [] + [(p, pending)] == [(p, pending)];
  }

  /** An update that changed since it was collected stays pending. */
  lemma PassEnds(s: State, p: string, collected: ProviderUpdate, flushed: Db)
    requires s.phase == Collecting(s.clock, [(p, collected)]) && p in s.pending && s.pending[p] != collected
    requires Flush(s.db, [(p, collected)], s.clock) == Some(flushed)
    ensures exists n :: Reaches(s, UntilEnded(), n) && n.db == flushed && n.pending == s.pending && n.phase == Idle
  {
    assert Reaches(s, [], s);
    Extended(s, [], s, Commit);
    var one := Next(s, Commit);
    Extended(s, [] + [Commit], one, Compare);
    var two := Next(one, Compare);
    assert two == one.(phase := Committed(s.clock, []));
    Extended(s, [] + [Commit] + [Compare], two, LoadRecover);
    Extended(s, [] + [Commit] + [Compare] + [LoadRecover], Next(two, LoadRecover), StoreRecover);
  }

  function Halfway(s: State, p: string, pending: ProviderUpdate, update: ProviderUpdate, now: int): State {
    Observed(s.(clock := now, phase := Collecting(now, [(p, pending)])), p, update)
  }

  lemma PassObserves(s: State, p: string, t: nat, pending: ProviderUpdate, update: ProviderUpdate, now: int)
    requires s.pending == map[p := pending] && s.phase == Idle && s.clock <= now && t !in s.tasks && OwedTo(s, p) == []
    ensures Reaches(s, UntilCollected(p, now) + ObserveSteps(t, p, update), Halfway(s, p, pending, update, now))
  {
    var two := s.(clock := now, phase := Collecting(now, [(p, pending)]));
    PassCollects(s, p, pending, now);
    ObservesAlone(two, t, p, update);
    Chained(s, UntilCollected(p, now), two, ObserveSteps(t, p, update), Halfway(s, p, pending, update, now));
  }

  lemma PassEndsAfter(s: State, first: seq<Step>, m: State, p: string, collected: ProviderUpdate, flushed: Db)
    requires Reaches(s, first, m)
    requires m.phase == Collecting(m.clock, [(p, collected)]) && p in m.pending && m.pending[p] != collected
    requires Flush(m.db, [(p, collected)], m.clock) == Some(flushed)
    ensures exists n ::
              Reaches(s, first + UntilEnded(), n) && n.db == flushed && n.pending == m.pending && n.phase == Idle
  {
    PassEnds(m, p, collected, flushed);
    var n :| Reaches(m, UntilEnded(), n) && n.db == flushed && n.pending == m.pending && n.phase == Idle;
    Chained(s, first, m, UntilEnded(), n);
  }

  lemma PassKeepsPending(
    s: State, p: string, t: nat, pending: ProviderUpdate, update: ProviderUpdate, now: int, flushed: Db)
    requires s.pending == map[p := pending] && s.phase == Idle && s.clock <= now && t !in s.tasks && OwedTo(s, p) == []
    requires Flush(s.db, [(p, pending)], now) == Some(flushed) && Providers.Merge(pending, update) != pending
    ensures exists n :: Reaches(s, Pass(p, t, update, now), n) && n.db == flushed && n.phase == Idle
                        && n.pending == map[p := Providers.Merge(pending, update)]
  {
    var m := Halfway(s, p, pending, update, now);
    assert m.pending == map[p := Providers.Merge(pending, update)];
    PassObserves(s, p, t, pending, update, now);
    PassEndsAfter(s, UntilCollected(p, now) + ObserveSteps(t, p, update), m, p, pending, flushed);
  }

  // ----- A stale circuit id

  const P := "p"
  const LIMIT := ErrorBody("{}", Some("usage_limit_reached"), Some(20), None)

  /** At 10 a response reports a usage limit that ends at 20; at 30 another one is plain. */
  const LIMITED := TrackResponse(429, "429", Some(LIMIT), 10, "circuit")
  const NORMAL := TrackResponse(200, "200", None, 30, "")

  const ROW := Provider(P, None, "", "", "", None, Active, false, None, None, None, None, 0)

  function StartUp(): State {
    var db := Db(map[P := ROW], map[]);
    State(db.providers, 0, db, map[], map[], Idle, map[], {}, {}, db.providers, 10)
  }

  /** The flush opens the circuit; the recovery in the same transaction closes it. */
  lemma LimitIsFlushed(db: Db)
    requires db == StartUp().db
    ensures var flushed := Flush(db, [(P, LIMITED)], 30);
            && flushed.Some? && flushed.value.providers.Keys == {P} && flushed.value.events.Keys == {"circuit"}
            && !flushed.value.providers[P].manualDisabled && !HasOpen(flushed.value.events, P)
  {
    assert [(P, LIMITED)][..0] == [];
    var one := FlushOne(db, (P, LIMITED));
    assert FlushAll(db, [(P, LIMITED)]) == one && one.Some?;
    assert IsOpen(one.value.events["circuit"], P);
  }

  lemma StaleCircuitAborts(db: Db, now: int)
    requires P in db.providers && !db.providers[P].manualDisabled && "circuit" in db.events && !HasOpen(db.events, P)
    ensures Flush(db, [(P, Providers.Merge(LIMITED, NORMAL))], now) == None
  {
    var item := (P, Providers.Merge(LIMITED, NORMAL));
    assert [item][..0] == [] && FlushAll(db, [item]) == FlushOne(db, item);
  }

  /**
   After an ordinary pass, in which a plain response arrived, no later pass commits: the pending update
   still names the circuit, which is closed.
   */
  lemma RecoveredCircuitBlocksMaintenance()
    ensures var steps := ObserveSteps(0, P, LIMITED) + Pass(P, 1, NORMAL, 30);
            && Initial(StartUp()) && IsRun(StartUp(), steps)
            && var n := After(StartUp(), steps);
               && n.phase == Idle && n.pending == map[P := Providers.Merge(LIMITED, NORMAL)]
               && forall now :: Flush(n.db, [(P, n.pending[P])], now) == None
  {
    var s := StartUp();
    var one := Observed(s, P, LIMITED);
    ObservesAlone(s, 0, P, LIMITED);
    LimitIsFlushed(s.db);
    var flushed := Flush(s.db, [(P, LIMITED)], 30).value;
    PassKeepsPending(one, P, 1, LIMITED, NORMAL, 30, flushed);
    var n :| Reaches(one, Pass(P, 1, NORMAL, 30), n) && n.db == flushed && n.phase == Idle
             && n.pending == map[P := Providers.Merge(LIMITED, NORMAL)];
    Chained(s, ObserveSteps(0, P, LIMITED), one, Pass(P, 1, NORMAL, 30), n);
    forall now ensures Flush(n.db, [(P, n.pending[P])], now) == None {
      StaleCircuitAborts(n.db, now);
    }
  }
}
