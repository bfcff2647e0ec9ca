/**
 Session affinities: a cached map, a set of dirty marks and the stored table, all three touched by
 tasks whose individual map operations interleave. A selection reads the clock, looks its key up, inserts
 the entry it settled on and then marks it; `forget_provider` drops, unmarks, looks again and possibly
 re-marks. Each such operation is one step. Maintenance collects marked entries, commits them, and
 settles them one hash at a time, each hash in one step; the last section takes that step apart.
 */
module Affinities {
  datatype Entry = Entry(providerId: string, expiresAt: int, updatedAt: int)

  /** Tasks in flight, by what they still owe the hash they work on. */
  datatype Task =
    | Entered(hash: string, at: int)                     // select: clock read, key not yet looked up
    | Chosen(hash: string, providerId: string, at: int)  // select: provider settled on, not yet remembered
    | Inserted(hash: string)  // remember: entry inserted, not yet marked
    | Dropped(hash: string)   // forget: entry removed, mark not yet removed
    | Unmarked(hash: string)  // forget: mark removed, cache not yet looked at again
    | Found(hash: string)     // forget: an entry is there again, not yet re-marked

  datatype Phase =
    | Idle
    | Collecting(at: int, snapshot: map<string, Entry>)
    | Settling(at: int, todo: map<string, (Entry, bool)>)

  datatype State = State(
    cached: map<string, Entry>,
    dirty: set<string>,
    stored: map<string, Entry>,
    providers: set<string>,
    known: set<string>,
    tasks: map<nat, Task>,
    phase: Phase,
    clock: int)

  datatype Step =
    | Tick(now: int)
    | Enter(task: nat, hash: string)
    | Choose(task: nat, eligible: set<string>, fallback: string)
    | Insert(task: nat, ttl: int)
    | Mark(task: nat)
    | Drop(task: nat, hash: string, providerId: string)
    | Unmark(task: nat)
    | Look(task: nat)
    | Remark(task: nat)
    | Begin
    | Collect(hash: string)
    | Commit
    | Fail
    | Settle(hash: string)
    | Finish
    | AddProvider(providerId: string)
    | RemoveProvider(providerId: string)

  predicate Enabled(s: State, step: Step) {
    match step
    case Tick(now) => s.clock <= now
    case Enter(task, _) => task !in s.tasks
    case Choose(task, eligible, fallback) =>
      task in s.tasks && s.tasks[task].Entered? && eligible <= s.known && fallback in eligible
    case Insert(task, _) => task in s.tasks && s.tasks[task].Chosen?
    case Mark(task) => task in s.tasks && s.tasks[task].Inserted?
    case Drop(task, _, _) => task !in s.tasks
    case Unmark(task) => task in s.tasks && s.tasks[task].Dropped?
    case Look(task) => task in s.tasks && s.tasks[task].Unmarked?
    case Remark(task) => task in s.tasks && s.tasks[task].Found?
    case Begin => s.phase.Idle?
    case Collect(hash) => s.phase.Collecting? && hash in s.dirty && hash in s.cached && hash !in s.phase.snapshot
    case Commit => s.phase.Collecting?
    case Fail => s.phase.Collecting?
    case Settle(hash) => s.phase.Settling? && hash in s.phase.todo
    case Finish => s.phase.Settling? && s.phase.todo == map[]
    case AddProvider(id) => id !in s.known
    case RemoveProvider(_) => true
  }

  /** The stored table after the upserts of a maintenance transaction and its expiry sweep. */
  function Persist(stored: map<string, Entry>, snapshot: map<string, Entry>, providers: set<string>,
      at: int): map<string, Entry> {
    var upserted := stored + map h | h in snapshot && snapshot[h].providerId in providers :: snapshot[h];
    map h | h in upserted && at < upserted[h].expiresAt :: upserted[h]
  }

  /** The provider `select` picks for a key: the remembered one while it lasts and is eligible, else the fallback. */
  function Choice(cached: map<string, Entry>, now: int, hash: string, eligible: set<string>, fallback: string): string {
    if hash in cached && now < cached[hash].expiresAt && cached[hash].providerId in eligible
    then cached[hash].providerId
    else fallback
  }

  function Next(s: State, step: Step): State
    requires Enabled(s, step)
  {
    match step
    case Tick(now) => s.(clock := now)
    case Enter(task, hash) => s.(tasks := s.tasks[task := Entered(hash, s.clock)])
    case Choose(task, eligible, fallback) =>
      var t := s.tasks[task];
      s.(tasks := s.tasks[task := Chosen(t.hash, Choice(s.cached, t.at, t.hash, eligible, fallback), t.at)])
    case Insert(task, ttl) =>
      var t := s.tasks[task];
      s.(cached := s.cached[t.hash := Entry(t.providerId, t.at + ttl, t.at)],
          tasks := s.tasks[task := Inserted(t.hash)])
    case Mark(task) => s.(dirty := s.dirty + {s.tasks[task].hash}, tasks := s.tasks - {task})
    case Drop(task, hash, id) =>
      if hash in s.cached && s.cached[hash].providerId == id
      then s.(cached := s.cached - {hash}, tasks := s.tasks[task := Dropped(hash)])
      else s
    case Unmark(task) =>
      s.(dirty := s.dirty - {s.tasks[task].hash}, tasks := s.tasks[task := Unmarked(s.tasks[task].hash)])
    case Look(task) =>
      if s.tasks[task].hash in s.cached
      then s.(tasks := s.tasks[task := Found(s.tasks[task].hash)])
      else s.(tasks := s.tasks - {task})
    case Remark(task) => s.(dirty := s.dirty + {s.tasks[task].hash}, tasks := s.tasks - {task})
    case Begin => s.(phase := Collecting(s.clock, map[]))
    case Collect(hash) => s.(phase := Collecting(s.phase.at, s.phase.snapshot[hash := s.cached[hash]]))
    case Commit =>
      var snapshot := s.phase.snapshot;
      s.(stored := Persist(s.stored, snapshot, s.providers, s.phase.at),
         phase := Settling(s.phase.at, map h | h in snapshot :: (snapshot[h], snapshot[h].providerId in s.providers)))
    case Fail => s.(phase := Idle)
    case Settle(hash) =>
      var (entry, persisted) := s.phase.todo[hash];
      var rest := s.(phase := Settling(s.phase.at, s.phase.todo - {hash}));
      if hash in s.cached && s.cached[hash] == entry
      then rest.(dirty := s.dirty - {hash}, cached := if persisted then s.cached else s.cached - {hash})
      else rest
    case Finish =>
      s.(cached := map h | h in s.cached && s.phase.at < s.cached[h].expiresAt :: s.cached[h], phase := Idle)
    case AddProvider(id) => s.(providers := s.providers + {id}, known := s.known + {id})
    case RemoveProvider(id) =>
      s.(providers := s.providers - {id},
         stored := map h | h in s.stored && s.stored[h].providerId != id :: s.stored[h])
  }

  // ----- The invariant

  predicate Live(s: State, entry: Entry) {
    s.clock < entry.expiresAt && entry.providerId in s.providers
  }

  predicate Synced(s: State, hash: string)
    requires hash in s.cached
  {
    hash in s.stored && s.stored[hash] == s.cached[hash]
  }

  predicate Owes(task: Task, hash: string) {
    (task.Inserted? || task.Unmarked? || task.Found?) && task.hash == hash
  }

  ghost predicate Owed(s: State, hash: string) {
    exists t :: t in s.tasks && Owes(s.tasks[t], hash)
  }

  ghost predicate Safe(s: State, hash: string) {
    hash in s.dirty || Owed(s, hash)
  }

  predicate TaskOk(s: State, task: Task) {
    && (task.Entered? || task.Chosen? ==> task.at <= s.clock)
    && (task.Chosen? ==> task.providerId in s.known)
  }

  ghost predicate Inv(s: State) {
    && (!s.phase.Idle? ==> s.phase.at <= s.clock)
    && s.providers <= s.known
    && (forall h :: h in s.cached ==> s.cached[h].providerId in s.known)
    && (forall t :: t in s.tasks ==> TaskOk(s, s.tasks[t]))
    && (forall h :: h in s.cached && Live(s, s.cached[h]) ==> Safe(s, h) || Synced(s, h))
    && (s.phase.Collecting? ==> forall h :: h in s.phase.snapshot ==>
          s.phase.snapshot[h].providerId in s.known && (h in s.cached ==> Safe(s, h)))
    && (s.phase.Settling? ==> forall h :: h in s.phase.todo ==> Flushed(s, h, s.phase.todo[h]))
  }

  /** A committed hash not yet settled: its row is there while it matters, or its provider is gone for good. */
  ghost predicate Flushed(s: State, hash: string, item: (Entry, bool)) {
    && item.0.providerId in s.known
    && (item.1 && Live(s, item.0) ==> hash in s.stored)
    && (item.1 && hash in s.stored ==> s.stored[hash] == item.0)
    && (!item.1 ==> item.0.providerId !in s.providers)
  }

  // ----- Steps

  /** What is safe stays safe, except the one hash whose entry the step removed. */
  lemma SafetyPersists(s: State, step: Step, hash: string)
    requires Inv(s) && Enabled(s, step) && Safe(s, hash)
    requires step.Settle? ==> step.hash != hash
    ensures hash in Next(s, step).cached ==> Safe(Next(s, step), hash)
  {
    var n := Next(s, step);
    if hash in n.cached && hash !in n.dirty {
      if hash in s.dirty {
        assert step.Unmark? && Owes(n.tasks[step.task], hash);
      } else {
        var t :| t in s.tasks && Owes(s.tasks[t], hash);
        assert t in n.tasks && Owes(n.tasks[t], hash);
      }
    }
  }

  lemma CachedStaysSafe(s: State, step: Step, h: string)
    requires Inv(s) && Enabled(s, step) && h in Next(s, step).cached && Live(Next(s, step), Next(s, step).cached[h])
    ensures Safe(Next(s, step), h) || Synced(Next(s, step), h)
  {
    var n := Next(s, step);
    if step.Insert? && s.tasks[step.task].hash == h {
      assert Owes(n.tasks[step.task], h);
    } else {
      assert n.cached[h] == s.cached[h] && Live(s, s.cached[h]);
      if Safe(s, h) && !(step.Settle? && step.hash == h) {
        SafetyPersists(s, step, h);
      }
    }
  }

  lemma SnapshotStaysSafe(s: State, step: Step, h: string)
    requires Inv(s) && Enabled(s, step) && Next(s, step).phase.Collecting?
    requires h in Next(s, step).phase.snapshot && h in Next(s, step).cached
    ensures Safe(Next(s, step), h)
  {
    if step.Insert? && s.tasks[step.task].hash == h {
      assert Owes(Next(s, step).tasks[step.task], h);
    } else if s.phase.Collecting? && h in s.phase.snapshot {
      SafetyPersists(s, step, h);
    }
  }

  lemma FlushedStays(s: State, step: Step, h: string)
    requires Inv(s) && Enabled(s, step) && Next(s, step).phase.Settling? && h in Next(s, step).phase.todo
    ensures Flushed(Next(s, step), h, Next(s, step).phase.todo[h])
  {
  }

  lemma StepKeeps(s: State, step: Step)
    requires Inv(s) && Enabled(s, step)
    ensures Inv(Next(s, step))
  {
    var n := Next(s, step);
    forall h | h in n.cached && Live(n, n.cached[h]) ensures Safe(n, h) || Synced(n, h) {
      CachedStaysSafe(s, step, h);
    }
    if n.phase.Collecting? {
      forall h | h in n.phase.snapshot && h in n.cached ensures Safe(n, h) {
        SnapshotStaysSafe(s, step, h);
      }
    }
    if n.phase.Settling? {
      forall h | h in n.phase.todo ensures Flushed(n, h, n.phase.todo[h]) {
        FlushedStays(s, step, h);
      }
    }
  }

  // ----- Runs

  ghost predicate IsRun(s: State, steps: seq<Step>)
    decreases |steps|
  {
    steps != [] ==> Enabled(s, steps[0]) && IsRun(Next(s, steps[0]), steps[1..])
  }

  ghost function After(s: State, steps: seq<Step>): State
    requires IsRun(s, steps)
    decreases |steps|
  {
    if steps == [] then s else After(Next(s, steps[0]), steps[1..])
  }

  /** Start-up: the unexpired rows have been loaded. */
  ghost predicate Initial(s: State) {
    && s.phase == Idle && s.tasks == map[] && s.providers <= s.known
    && forall h :: h in s.cached ==> Synced(s, h) && s.cached[h].providerId in s.known
  }

  lemma {:induction false} RunKeeps(s: State, steps: seq<Step>)
    requires Inv(s) && IsRun(s, steps)
    ensures Inv(After(s, steps))
    decreases |steps|
  {
    if steps != [] {
      StepKeeps(s, steps[0]);
      RunKeeps(Next(s, steps[0]), steps[1..]);
    }
  }

  /**
   No affinity is lost: once no task is in flight, every live cached entry is marked for storing or already
   stored.
   */
  lemma NoAffinityIsLost(s: State, steps: seq<Step>, hash: string)
    requires Initial(s) && IsRun(s, steps)
    requires After(s, steps).tasks == map[]
    requires hash in After(s, steps).cached && Live(After(s, steps), After(s, steps).cached[hash])
    ensures hash in After(s, steps).dirty || Synced(After(s, steps), hash)
  {
    RunKeeps(s, steps);
  }

  /** A commit that has collected every marked entry, with no task in flight, leaves every live entry stored. */
  lemma QuietCommitStoresEverything(s: State)
    requires Inv(s) && s.phase.Collecting? && s.tasks == map[]
    requires forall h :: h in s.dirty && h in s.cached ==> h in s.phase.snapshot && s.phase.snapshot[h] == s.cached[h]
    ensures var n := Next(s, Commit);
            forall h :: h in n.cached && Live(n, n.cached[h]) ==> Synced(n, h)
  {
    var n := Next(s, Commit);
    forall h | h in n.cached && Live(n, n.cached[h]) ensures Synced(n, h) {
      assert Live(s, s.cached[h]);
    }
  }

  /** A commit keeps of the stored rows and the snapshot what has not expired, the snapshot where both have a row. */
  lemma CommitForgetsExpired(s: State, hash: string)
    requires s.phase.Collecting?
    ensures var n, at, flushed := Next(s, Commit), s.phase.at, s.phase.snapshot;
            if hash in flushed && flushed[hash].providerId in s.providers
            then (hash in n.stored <==> at < flushed[hash].expiresAt)
                 && (hash in n.stored ==> n.stored[hash] == flushed[hash])
            else (hash in n.stored <==> hash in s.stored && at < s.stored[hash].expiresAt)
                 && (hash in n.stored ==> n.stored[hash] == s.stored[hash])
  {
  }

  /** The end of a pass keeps of the cached entries those that had not expired at its start. */
  lemma FinishForgetsExpired(s: State, hash: string)
    requires Enabled(s, Finish)
    ensures hash in Next(s, Finish).cached <==> hash in s.cached && s.phase.at < s.cached[hash].expiresAt
    ensures hash in Next(s, Finish).cached ==> Next(s, Finish).cached[hash] == s.cached[hash]
  {
  }

  /** No stored row outlives its provider. */
  predicate StoredAreOwned(s: State) {
    forall h :: h in s.stored ==> s.stored[h].providerId in s.providers
  }

  lemma {:induction false} StoredStayOwned(s: State, steps: seq<Step>)
    requires StoredAreOwned(s) && IsRun(s, steps)
    ensures StoredAreOwned(After(s, steps))
    decreases |steps|
  {
    if steps != [] {
      StoredStayOwned(Next(s, steps[0]), steps[1..]);
    }
  }

  // ----- Stickiness

  /** A selection of `hash` looks its key up. */
  predicate Chooses(s: State, step: Step, hash: string)
    requires Enabled(s, step)
  {
    step.Choose? && s.tasks[step.task].hash == hash
  }

  predicate Inserts(s: State, step: Step, hash: string)
    requires Enabled(s, step)
  {
    step.Insert? && s.tasks[step.task].hash == hash
  }

  /** The clock of the entry inserted last, `last` being that of the one before. */
  function LastAfter(s: State, step: Step, hash: string, last: int): int
    requires Enabled(s, step)
  {
    if Inserts(s, step, hash) then s.tasks[step.task].at else last
  }

  /**
   A run in which `id` is not removed or forgotten, and every selection of `hash` may pick it and looks the
   key up less than `ttl` after the clock of the entry inserted last; everything else is arbitrary.
   */
  ghost predicate Attentive(s: State, steps: seq<Step>, hash: string, id: string, ttl: int, last: int)
    decreases |steps|
  {
    steps != [] ==>
      var step := steps[0];
      && Enabled(s, step)
      && step != RemoveProvider(id)
      && !(step.Drop? && step.providerId == id)
      && (Chooses(s, step, hash) ==> id in step.eligible && s.clock < last + ttl)
      && (Inserts(s, step, hash) ==> step.ttl == ttl)
      && Attentive(Next(s, step), steps[1..], hash, id, ttl, LastAfter(s, step, hash, last))
  }

  /** The entry inserted last is cached until it expires, and selections in flight have settled on `id` too. */
  ghost predicate Remembers(s: State, hash: string, id: string, ttl: int, last: int) {
    && id in s.providers
    && (s.clock < last + ttl ==> hash in s.cached && s.cached[hash] == Entry(id, last + ttl, last))
    && (forall t :: t in s.tasks && s.tasks[t].Chosen? && s.tasks[t].hash == hash ==> s.tasks[t].providerId == id)
  }

  lemma RemembersOn(s: State, step: Step, hash: string, id: string, ttl: int, last: int)
    requires Inv(s) && Remembers(s, hash, id, ttl, last) && Attentive(s, [step], hash, id, ttl, last)
    ensures Remembers(Next(s, step), hash, id, ttl, LastAfter(s, step, hash, last))
  {
  }

  /** Every selection of `hash` in the run returns `id`. */
  ghost predicate AllReturn(s: State, steps: seq<Step>, hash: string, id: string)
    requires IsRun(s, steps)
    decreases |steps|
  {
    steps != [] ==>
      && (Chooses(s, steps[0], hash) ==> Next(s, steps[0]).tasks[steps[0].task].providerId == id)
      && AllReturn(Next(s, steps[0]), steps[1..], hash, id)
  }

  /** Over the whole run every selection for the key returns its provider, overlapping ones included. */
  lemma {:induction false} SelectionsStick(
    s: State, steps: seq<Step>, hash: string, id: string, ttl: int, last: int)
    requires Inv(s) && Remembers(s, hash, id, ttl, last) && Attentive(s, steps, hash, id, ttl, last)
    ensures IsRun(s, steps) && AllReturn(s, steps, hash, id)
    decreases |steps|
  {
    if steps != [] {
      StepKeeps(s, steps[0]);
      RemembersOn(s, steps[0], hash, id, ttl, last);
      SelectionsStick(Next(s, steps[0]), steps[1..], hash, id, ttl, LastAfter(s, steps[0], hash, last));
      if Chooses(s, steps[0], hash) { assert TaskOk(s, s.tasks[steps[0].task]); }
    }
  }

  /**
   The bound is exact: a selection with another fallback returns the remembered provider iff its clock is
   before the expiry.
   */
  lemma ChoiceSticksIff(s: State, step: Step)
    requires Enabled(s, step) && step.Choose? && s.tasks[step.task].hash in s.cached
    requires var id := s.cached[s.tasks[step.task].hash].providerId; id in step.eligible && id != step.fallback
    ensures var t := s.tasks[step.task];
            Next(s, step).tasks[step.task].providerId == s.cached[t.hash].providerId
            <==> t.at < s.cached[t.hash].expiresAt
  {
  }

  // ----- Overlapping selections of one key

  lemma {:induction false} Joined(s: State, first: seq<Step>, second: seq<Step>)
    requires IsRun(s, first) && IsRun(After(s, first), second)
    ensures IsRun(s, first + second) && After(s, first + second) == After(After(s, first), second)
    decreases |first|
  {
    if first == [] {
      assert first + second == second;
    } else {
      assert (first + second)[1..] == first[1..] + second;
      Joined(Next(s, first[0]), first[1..], second);
    }
  }

  lemma Taken(s: State, step: Step)
    requires Enabled(s, step)
    ensures IsRun(s, [step]) && After(s, [step]) == Next(s, step)
  {
    assert [step][1..] == [];
  }

  lemma TakenNext(s: State, steps: seq<Step>, step: Step)
    requires IsRun(s, steps) && Enabled(After(s, steps), step)
    ensures IsRun(s, steps + [step]) && After(s, steps + [step]) == Next(After(s, steps), step)
  {
    Taken(After(s, steps), step);
    Joined(s, steps, [step]);
  }

  /** One selection enters at `t`, another a second later; both look the key up. */
  function BothChoose(hash: string, eligible: set<string>, fallback: string, t: int): seq<Step> {
    [Enter(0, hash)] + [Tick(t + 1)] + [Enter(1, hash)] + [Choose(0, eligible, fallback)]
        + [Choose(1, eligible, fallback)]
  }

  /** The younger one inserts its entry first. */
  function Overlap(hash: string, eligible: set<string>, fallback: string, t: int, ttl: int): seq<Step> {
    BothChoose(hash, eligible, fallback, t) + [Insert(1, ttl)] + [Insert(0, ttl)]
  }

  lemma BothFindTheProvider(s: State, hash: string, eligible: set<string>, fallback: string)
    requires s.tasks == map[] && eligible <= s.known && fallback in eligible && hash in s.cached
    requires s.cached[hash].providerId in eligible && s.clock + 1 < s.cached[hash].expiresAt
    ensures var steps, id := BothChoose(hash, eligible, fallback, s.clock), s.cached[hash].providerId;
            && IsRun(s, steps)
            && After(s, steps) == s.(clock := s.clock + 1,
                                     tasks := map[0 := Chosen(hash, id, s.clock), 1 := Chosen(hash, id, s.clock + 1)])
  {
    var t := s.clock;
    var a := [Enter(0, hash)];
    Taken(s, a[0]);
    TakenNext(s, a, Tick(t + 1));
    var b := a + [Tick(t + 1)];
    TakenNext(s, b, Enter(1, hash));
    var c := b + [Enter(1, hash)];
    TakenNext(s, c, Choose(0, eligible, fallback));
    TakenNext(s, c + [Choose(0, eligible, fallback)], Choose(1, eligible, fallback));
  }

  lemma OverlapLeavesTheOlderEntry(s: State, hash: string, eligible: set<string>, fallback: string, ttl: int)
    requires s.tasks == map[] && eligible <= s.known && fallback in eligible && hash in s.cached
    requires s.cached[hash].providerId in eligible && s.clock + 1 < s.cached[hash].expiresAt
    ensures var steps := Overlap(hash, eligible, fallback, s.clock, ttl);
            && IsRun(s, steps)
            && var n := After(s, steps);
               && n.clock == s.clock + 1 && n.known == s.known && n.tasks.Keys == {0, 1}
               && n.cached == s.cached[hash := Entry(s.cached[hash].providerId, s.clock + ttl, s.clock)]
  {
    var a := BothChoose(hash, eligible, fallback, s.clock);
    BothFindTheProvider(s, hash, eligible, fallback);
    TakenNext(s, a, Insert(1, ttl));
    TakenNext(s, a + [Insert(1, ttl)], Insert(0, ttl));
  }

  /**
   Measured from the last selection the bound would be wrong: a selection `ttl - 1` seconds after the
   younger of the two finds the older one's entry expired and falls back.
   */
  lemma OverlappingSelectionsShortenTheEntry(
    s: State, hash: string, eligible: set<string>, fallback: string, ttl: int)
    requires s.tasks == map[] && eligible <= s.known && fallback in eligible && hash in s.cached && ttl > 0
    requires s.cached[hash].providerId in eligible && s.clock + 1 < s.cached[hash].expiresAt
    ensures var steps := Overlap(hash, eligible, fallback, s.clock, ttl)
                         + [Tick(s.clock + ttl)] + [Enter(2, hash)] + [Choose(2, eligible, fallback)];
            && IsRun(s, steps)
            && 2 in After(s, steps).tasks && After(s, steps).tasks[2] == Chosen(hash, fallback, s.clock + ttl)
  {
    var a := Overlap(hash, eligible, fallback, s.clock, ttl);
    OverlapLeavesTheOlderEntry(s, hash, eligible, fallback, ttl);
    TakenNext(s, a, Tick(s.clock + ttl));
    var b := a + [Tick(s.clock + ttl)];
    TakenNext(s, b, Enter(2, hash));
    TakenNext(s, b + [Enter(2, hash)], Choose(2, eligible, fallback));
  }

  // ----- A mark set between comparison and unmarking

  /** Settling compares the entry with the one flushed, and then takes its mark away. */
  predicate Unchanged(s: State, hash: string)
    requires Enabled(s, Settle(hash))
  {
    hash in s.cached && s.cached[hash] == s.phase.todo[hash].0
  }

  /**
   What follows a comparison that found the entry unchanged. An entry whose provider had no row is removed
   if it is still the flushed one; any other entry found then is marked again.
   */
  function Release(s: State, hash: string): State
    requires Enabled(s, Settle(hash))
  {
    var (entry, persisted) := s.phase.todo[hash];
    var cached := if !persisted && Unchanged(s, hash) then s.cached - {hash} else s.cached;
    s.(phase := Settling(s.phase.at, s.phase.todo - {hash}), cached := cached,
       dirty := if !persisted && hash in cached then s.dirty + {hash} else s.dirty - {hash})
  }

  lemma SettlingIsReleasing(s: State, hash: string)
    requires Enabled(s, Settle(hash)) && Unchanged(s, hash)
    ensures Next(s, Settle(hash)) == Release(s, hash)
  {
  }

  /** The released hash is safe only if a task still owes it a mark. */
  lemma ReleaseUnmarks(s: State, hash: string, other: string)
    requires Enabled(s, Settle(hash)) && (other != hash || s.phase.todo[hash].1)
    ensures Safe(Release(s, hash), other) <==> (other in s.dirty && other != hash) || Owed(s, other)
  {
    var n := Release(s, hash);
    assert n.tasks == s.tasks;
    assert Owed(n, other) <==> Owed(s, other);
  }

  /**
   Whatever tasks do after the comparison, unmarking is harmless if and only if a live entry is still the
   flushed one, or a task that inserted another has yet to mark it.
   */
  lemma ReleaseKeepsIff(s: State, hash: string)
    requires Inv(s) && Enabled(s, Settle(hash))
    ensures Inv(Release(s, hash)) <==>
            (s.phase.todo[hash].1 && hash in s.cached && Live(s, s.cached[hash]) ==>
                Unchanged(s, hash) || Owed(s, hash))
  {
    var n := Release(s, hash);
    assert Flushed(s, hash, s.phase.todo[hash]);
    forall h | h != hash && h in n.cached && Live(n, n.cached[h]) ensures Safe(n, h) || Synced(n, h) {
      assert Safe(s, h) || Synced(s, h);
      ReleaseUnmarks(s, hash, h);
    }
    forall h | h in n.phase.todo ensures Flushed(n, h, n.phase.todo[h]) {
      assert Flushed(s, h, s.phase.todo[h]);
    }
    if s.phase.todo[hash].1 {
      ReleaseUnmarks(s, hash, hash);
    }
  }

  /** A selection of `hash`, with `id` the only provider it may choose. */
  function Selects(t: nat, hash: string, id: string, ttl: int): seq<Step> {
    [Enter(t, hash)] + [Choose(t, {id}, id)] + [Insert(t, ttl)] + [Mark(t)]
  }

  function Selected(s: State, hash: string, id: string, ttl: int): State {
    s.(cached := s.cached[hash := Entry(id, s.clock + ttl, s.clock)], dirty := s.dirty + {hash})
  }

  lemma SelectsAlone(s: State, t: nat, hash: string, id: string, ttl: int)
    requires t !in s.tasks && id in s.known
    ensures IsRun(s, Selects(t, hash, id, ttl))
    ensures After(s, Selects(t, hash, id, ttl)) == Selected(s, hash, id, ttl)
  {
    var a := [Enter(t, hash)];
    Taken(s, a[0]);
    TakenNext(s, a, Choose(t, {id}, id));
    var b := a + [Choose(t, {id}, id)];
    assert After(s, b) == s.(tasks := s.tasks[t := Chosen(hash, id, s.clock)]);
    TakenNext(s, b, Insert(t, ttl));
    var inserted := After(s, b + [Insert(t, ttl)]);
    assert inserted.tasks == s.tasks[t := Inserted(hash)] && inserted.cached == Selected(s, hash, id, ttl).cached;
    TakenNext(s, b + [Insert(t, ttl)], Mark(t));
    assert s.tasks[t := Inserted(hash)] - {t} == s.tasks;
  }

  /** A provider is forgotten: its entry goes, with its mark. */
  lemma ForgetsAlone(s: State, t: nat, hash: string)
    requires t !in s.tasks && hash in s.cached
    ensures var steps := [Drop(t, hash, s.cached[hash].providerId)] + [Unmark(t)] + [Look(t)];
            IsRun(s, steps) && After(s, steps) == s.(cached := s.cached - {hash}, dirty := s.dirty - {hash})
  {
    var a := [Drop(t, hash, s.cached[hash].providerId)];
    Taken(s, a[0]);
    TakenNext(s, a, Unmark(t));
    assert After(s, a + [Unmark(t)]).tasks == s.tasks[t := Unmarked(hash)];
    TakenNext(s, a + [Unmark(t)], Look(t));
    assert s.tasks[t := Unmarked(hash)] - {t} == s.tasks;
  }

  function CommitOf(hash: string): seq<Step> {
    [Begin] + [Collect(hash)] + [Commit]
  }

  function CommittedOnce(s: State, hash: string, entry: Entry): State {
    s.(stored := Persist(s.stored, map[hash := entry], s.providers, s.clock),
       phase := Settling(s.clock, map[hash := (entry, true)]))
  }

  lemma OneEntryIsStored(s: State, hash: string, entry: Entry)
    requires s.phase == Collecting(s.clock, map[hash := entry]) && Live(s, entry)
    ensures Next(s, Commit) == CommittedOnce(s, hash, entry)
    ensures hash in CommittedOnce(s, hash, entry).stored && CommittedOnce(s, hash, entry).stored[hash] == entry
  {
    var snapshot := s.phase.snapshot;
    assert (map h | h in snapshot :: (snapshot[h], snapshot[h].providerId in s.providers))
        == map[hash := (entry, true)];
  }

  lemma CommitStores(s: State, hash: string, entry: Entry)
    requires s.phase.Idle? && hash in s.dirty && hash in s.cached && s.cached[hash] == entry && Live(s, entry)
    ensures IsRun(s, CommitOf(hash)) && After(s, CommitOf(hash)) == CommittedOnce(s, hash, entry)
    ensures hash in CommittedOnce(s, hash, entry).stored && CommittedOnce(s, hash, entry).stored[hash] == entry
  {
    Taken(s, Begin);
    TakenNext(s, [Begin], Collect(hash));
    var collected := s.(phase := Collecting(s.clock, map[hash := entry]));
    assert After(s, [Begin] + [Collect(hash)]) == collected;
    OneEntryIsStored(collected, hash, entry);
    TakenNext(s, [Begin] + [Collect(hash)], Commit);
  }

  /** One selection is committed and compared; before it is unmarked, a second later, another one is made. */
  function SelectedAgain(hash: string, id: string, ttl: int, t: int): seq<Step> {
    Selects(0, hash, id, ttl) + CommitOf(hash) + ([Tick(t + 1)] + Selects(1, hash, id, ttl))
  }

  lemma FirstIsCompared(s: State, hash: string, id: string, ttl: int)
    requires s.phase.Idle? && s.tasks == map[] && id in s.providers && id in s.known && ttl > 0
    ensures var first, entry := Selects(0, hash, id, ttl) + CommitOf(hash), Entry(id, s.clock + ttl, s.clock);
            && IsRun(s, first) && After(s, first) == CommittedOnce(Selected(s, hash, id, ttl), hash, entry)
            && hash in After(s, first).stored && After(s, first).stored[hash] == entry
  {
    SelectsAlone(s, 0, hash, id, ttl);
    CommitStores(Selected(s, hash, id, ttl), hash, Entry(id, s.clock + ttl, s.clock));
    Joined(s, Selects(0, hash, id, ttl), CommitOf(hash));
  }

  lemma SelectsLater(s: State, hash: string, id: string, ttl: int)
    requires s.tasks == map[] && id in s.known
    ensures var again := [Tick(s.clock + 1)] + Selects(1, hash, id, ttl);
            && IsRun(s, again) && After(s, again) == Selected(s.(clock := s.clock + 1), hash, id, ttl)
  {
    Taken(s, Tick(s.clock + 1));
    SelectsAlone(s.(clock := s.clock + 1), 1, hash, id, ttl);
    Joined(s, [Tick(s.clock + 1)], Selects(1, hash, id, ttl));
  }

  /** An entry that is live, and neither marked nor stored, nor will any task mark it. */
  predicate Lost(s: State, hash: string) {
    hash in s.cached && Live(s, s.cached[hash]) && s.tasks == map[] && hash !in s.dirty && !Synced(s, hash)
  }

  lemma SecondIsReleased(s: State, hash: string, id: string, ttl: int)
    requires s.tasks == map[] && id in s.providers && ttl > 0
    requires s.phase.Settling? && hash in s.phase.todo && s.phase.todo[hash].1
    requires hash in s.stored && s.stored[hash] == Entry(id, s.clock + ttl, s.clock)
    ensures Lost(Release(Selected(s.(clock := s.clock + 1), hash, id, ttl), hash), hash)
  {
  }

  /** Though the comparison found the first entry, unmarking loses the second. */
  lemma LateUnmarkingLosesAnAffinity(s: State, hash: string, id: string, ttl: int)
    requires Initial(s) && id in s.providers && ttl > 0
    ensures var first, steps := Selects(0, hash, id, ttl) + CommitOf(hash), SelectedAgain(hash, id, ttl, s.clock);
            && IsRun(s, first) && Enabled(After(s, first), Settle(hash)) && Unchanged(After(s, first), hash)
            && IsRun(s, steps) && Enabled(After(s, steps), Settle(hash))
            && Lost(Release(After(s, steps), hash), hash)
  {
    var first, again := Selects(0, hash, id, ttl) + CommitOf(hash), [Tick(s.clock + 1)] + Selects(1, hash, id, ttl);
    FirstIsCompared(s, hash, id, ttl);
    var compared := After(s, first);
    SecondIsReleased(compared, hash, id, ttl);
    SelectsLater(compared, hash, id, ttl);
    Joined(s, first, again);
  }
}
