/**
 The balancer's snapshot as a write-behind cache. Requests read the snapshot and leave pending
 updates; maintenance collects them, flushes them in one transaction and settles what did not
 change meanwhile. Every load and store of the snapshot, every operation on the pending map and every
 statement or transaction is one step, and steps of any number of tasks interleave. The machine
 refines one that applies each observation at once and never runs maintenance as long as, and no longer
 than, every step is `Careful`; `Refinement` has the proofs.
 */
module WriteBehind {
  import opened Options
  import opened Providers
  import opened Database

  type Rows = map<string, Provider>

  /** An update and who observed it. */
  type Owed = (nat, ProviderUpdate)

  /** Tasks in flight. `version` counts the stores of the snapshot made before it was loaded. */
  datatype Task =
    | Observing(id: string, update: ProviderUpdate, loaded: Rows, version: nat)  // observe: snapshot loaded
    | Merging(id: string, update: ProviderUpdate)                                // observe: snapshot stored
    | Forgetting(id: string, loaded: Rows, version: nat)                         // forget: snapshot loaded
    | Dropping(id: string)                                                       // forget: snapshot stored
    | Reloading(rows: Rows)                                                      // reload: rows read

  datatype Phase =
    | Idle
    | Collecting(at: int, batch: seq<Pending>)
    | Committed(at: int, batch: seq<Pending>)
    | Matched(at: int, batch: seq<Pending>)  // the last item was found unchanged, and not yet removed
    | Recovering(at: int, loaded: Rows, version: nat)

  /**
   `owed` holds, for each provider, the updates that are in the snapshot and not yet pending, oldest
   first; `awaiting` the providers whose row an operator wrote and whose reload is outstanding; `gone`
   the deleted ones; `ideal` the rows that see every observation at once and no maintenance.
   */
  datatype State = State(
    cache: Rows,
    version: nat,
    db: Db,
    pending: map<string, ProviderUpdate>,
    tasks: map<nat, Task>,
    phase: Phase,
    owed: map<string, seq<Owed>>,
    awaiting: set<string>,
    gone: set<string>,
    ideal: Rows,
    clock: int)

  datatype Step =
    | Tick(now: int)
    | LoadObserve(task: nat, id: string, update: ProviderUpdate)
    | StoreObserve(task: nat)
    | Merge(task: nat)
    | Begin
    | Collect(id: string)
    | Commit
    | Fail
    | Compare
    | Drop
    | LoadRecover
    | StoreRecover
    | Read(task: nat)
    | Install(task: nat)
    | Write(id: string, row: Provider)
    | Remove(id: string)
    | LoadForget(task: nat, id: string)
    | StoreForget(task: nat)
    | DropUpdate(task: nat)

  // ----- The steps

  function Batch(s: State): seq<Pending> {
    if s.phase.Collecting? || s.phase.Committed? || s.phase.Matched? then s.phase.batch else []
  }

  predicate Flushed(phase: Phase) {
    phase.Committed? || phase.Matched?
  }

  function OwedTo(s: State, id: string): seq<Owed> {
    if id in s.owed then s.owed[id] else []
  }

  /** Which steps can happen. A provider is forgotten after its deletion, and its id is not used again. */
  predicate Enabled(s: State, step: Step) {
    match step
    case Tick(now) => s.clock <= now
    case LoadObserve(t, _, _) => t !in s.tasks
    case StoreObserve(t) => t in s.tasks && s.tasks[t].Observing?
    case Merge(t) => t in s.tasks && s.tasks[t].Merging?
    case Begin => s.phase.Idle?
    case Collect(id) => s.phase.Collecting? && id in s.pending && !Names(s.phase.batch, id)
    case Commit => s.phase.Collecting?
    case Fail => s.phase.Collecting?
    case Compare => s.phase.Committed? && s.phase.batch != []
    case Drop => s.phase.Matched? && s.phase.batch != []
    case LoadRecover => s.phase.Committed? && s.phase.batch == []
    case StoreRecover => s.phase.Recovering?
    case Read(t) => t !in s.tasks
    case Install(t) => t in s.tasks && s.tasks[t].Reloading?
    case Write(id, row) => id !in s.gone
    case Remove(id) => id in s.db.providers
    case LoadForget(t, id) => t !in s.tasks && id in s.gone
    case StoreForget(t) => t in s.tasks && s.tasks[t].Forgetting?
    case DropUpdate(t) => t in s.tasks && s.tasks[t].Dropping?
  }

  function RecoverRows(rows: Rows, now: int): Rows {
    map id | id in rows :: Recover(rows[id], now)
  }

  function ObserveRow(rows: Rows, id: string, update: ProviderUpdate): Rows {
    if id in rows then rows[id := ApplyCached(rows[id], update)] else rows
  }

  function ObservePending(pending: map<string, ProviderUpdate>, id: string, update: ProviderUpdate)
    : map<string, ProviderUpdate>
  {
    pending[id := if id in pending then Providers.Merge(pending[id], update) else update]
  }

  /** Where the update of task `t` stands among those owed; the length if nowhere. */
  function Position(owed: seq<Owed>, t: nat): (k: nat)
    ensures k <= |owed|
    ensures k < |owed| ==> owed[k].0 == t
    ensures forall j :: 0 <= j < k ==> owed[j].0 != t
  {
    if owed == [] || owed[0].0 == t then 0 else 1 + Position(owed[1..], t)
  }

  /** What was stored before the update of task `t`, and is still owed. */
  function Ahead(owed: seq<Owed>, t: nat): seq<Owed> {
    owed[..Position(owed, t)]
  }

  /** What was stored after it. */
  function Behind(owed: seq<Owed>, t: nat): seq<Owed> {
    if Position(owed, t) < |owed| then owed[Position(owed, t) + 1..] else []
  }

  function Publish(s: State, rows: Rows): State {
    s.(cache := rows, version := s.version + 1)
  }

  function WriteRow(db: Db, id: string, row: Provider): Db {
    if id in db.providers then UpdateStatus(db, id, row) else db.(providers := db.providers[id := row])
  }

  function Next(s: State, step: Step): State
    requires Enabled(s, step)
  {
    match step
    case Tick(now) => s.(clock := now)
    case LoadObserve(t, id, update) => s.(tasks := s.tasks[t := Observing(id, update, s.cache, s.version)])
    case StoreObserve(t) =>
      var (id, update) := (s.tasks[t].id, s.tasks[t].update);
      Publish(s, ObserveRow(s.tasks[t].loaded, id, update)).(
        tasks := s.tasks[t := Merging(id, update)],
        owed := s.owed[id := OwedTo(s, id) + [(t, update)]],
        ideal := ObserveRow(s.ideal, id, update))
    case Merge(t) =>
      var (id, update) := (s.tasks[t].id, s.tasks[t].update);
      s.(pending := ObservePending(s.pending, id, update), tasks := s.tasks - {t},
         owed := s.owed[id := Ahead(OwedTo(s, id), t) + Behind(OwedTo(s, id), t)])
    case Begin => s.(phase := Collecting(s.clock, []))
    case Collect(id) => s.(phase := Collecting(s.phase.at, s.phase.batch + [(id, s.pending[id])]))
    case Commit =>
      var flushed := Flush(s.db, s.phase.batch, s.phase.at);
      if flushed.Some? then s.(db := flushed.value, phase := Committed(s.phase.at, s.phase.batch))
          else s.(phase := Idle)
    case Fail => s.(phase := Idle)
    case Compare =>
      var (at, batch) := (s.phase.at, s.phase.batch);
      var item := batch[|batch| - 1];
      if item.0 in s.pending && s.pending[item.0] == item.1 then s.(phase := Matched(at, batch))
      else s.(phase := Committed(at, batch[..|batch| - 1]))
    case Drop =>
      var (at, batch) := (s.phase.at, s.phase.batch);
      s.(pending := s.pending - {batch[|batch| - 1].0}, phase := Committed(at, batch[..|batch| - 1]))
    case LoadRecover => s.(phase := Recovering(s.phase.at, s.cache, s.version))
    case StoreRecover => Publish(s, RecoverRows(s.phase.loaded, s.phase.at)).(phase := Idle)
    case Read(t) => s.(tasks := s.tasks[t := Reloading(s.db.providers)])
    case Install(t) => Publish(s, s.tasks[t].rows).(tasks := s.tasks - {t}, awaiting := {})
    case Write(id, row) => s.(db := WriteRow(s.db, id, row), ideal := s.ideal[id := row], awaiting := s.awaiting + {id})
    case Remove(id) => s.(db := Execute(s.db, Delete(id)), ideal := s.ideal - {id}, gone := s.gone + {id})
    case LoadForget(t, id) => s.(tasks := s.tasks[t := Forgetting(id, s.cache, s.version)])
    case StoreForget(t) =>
      Publish(s, s.tasks[t].loaded - {s.tasks[t].id}).(tasks := s.tasks[t := Dropping(s.tasks[t].id)])
    case DropUpdate(t) => s.(pending := s.pending - {s.tasks[t].id}, tasks := s.tasks - {t})
  }

  // ----- The refinement

  /** A row that has seen the owed updates. */
  function SeenAll(row: Provider, owed: seq<Owed>): (r: Provider)
    ensures r.manualDisabled == row.manualDisabled
    decreases |owed|
  {
    if owed == [] then row else SeenAll(ApplyCached(row, owed[0].1), owed[1..])
  }

  /** A stored row once its pending update is flushed. */
  function WithPending(s: State, id: string, row: Provider): Provider {
    if id in s.pending then ApplyStored(row, s.pending[id]) else row
  }

  /** A stored row once everything observed of its provider is flushed. */
  function Stored(s: State, id: string, row: Provider): Provider {
    SeenAll(WithPending(s, id, row), OwedTo(s, id))
  }

  /** What rows are compared by: everything that is shown of them, or only what decides their availability. */
  datatype Scope = Everything | Availability

  /** What decides when an enabled row is available, from now on. */
  function Standing(row: Provider, now: int): (Status, Option<int>) {
    (Recover(row, now).status, Recover(row, now).cooldownUntil)
  }

  /** Two rows look alike from now on; disabled ones are unavailable, and all look alike. */
  predicate Alike(scope: Scope, x: Provider, y: Provider, now: int) {
    && x.manualDisabled == y.manualDisabled
    && (!x.manualDisabled ==>
          if scope.Everything? then View(x, now) == View(y, now) else Standing(x, now) == Standing(y, now))
  }

  predicate StoredAgrees(scope: Scope, s: State, id: string)
    requires id in s.db.providers
  {
    id in s.ideal && Alike(scope, Stored(s, id, s.db.providers[id]), s.ideal[id], s.clock)
  }

  predicate CacheAgrees(scope: Scope, s: State, id: string) {
    id in s.cache && id in s.ideal && Alike(scope, s.cache[id], s.ideal[id], s.clock)
  }

  /** An item of the batch is still pending, perhaps merged further; once flushed it is absorbed by its row. */
  predicate Tracked(scope: Scope, s: State, item: Pending) {
    item.0 in s.db.providers ==>
      && item.0 in s.pending && Overrides(s.pending[item.0], item.1)
      && (Flushed(s.phase) ==> AbsorbedBy(scope, s.db.providers[item.0], item.1, s.clock))
  }

  predicate AbsorbedBy(scope: Scope, row: Provider, update: ProviderUpdate, now: int) {
    Alike(scope, ApplyStored(row, update), row, now)
  }

  ghost predicate RowsAgree(scope: Scope, s: State) {
    && (forall id :: id in s.db.providers ==> StoredAgrees(scope, s, id))
    && (forall id :: id in s.db.providers && id !in s.awaiting ==> CacheAgrees(scope, s, id))
  }

  ghost predicate BatchOk(scope: Scope, s: State) {
    && DistinctIds(Batch(s)) && (!s.phase.Idle? ==> s.phase.at <= s.clock)
    && (forall i :: 0 <= i < |Batch(s)| ==> Tracked(scope, s, Batch(s)[i]))
  }

  ghost predicate TasksOk(tasks: map<nat, Task>, gone: set<string>) {
    forall t :: t in tasks && (tasks[t].Forgetting? || tasks[t].Dropping?) ==> tasks[t].id in gone
  }

  ghost predicate Inv(scope: Scope, s: State) {
    && s.gone !! s.db.providers.Keys && s.gone !! s.ideal.Keys
    && TasksOk(s.tasks, s.gone) && RowsAgree(scope, s) && BatchOk(scope, s)
  }

  // ----- Facts about single rows

  lemma AlikeRowsStayAlike(scope: Scope, x: Provider, y: Provider, update: ProviderUpdate, now: int)
    requires Alike(scope, x, y, now)
    ensures Alike(scope, ApplyCached(x, update), ApplyCached(y, update), now)
    ensures Alike(scope, ApplyStored(x, update), ApplyCached(y, update), now)
    ensures Alike(scope, ApplyStored(x, update), ApplyStored(y, update), now)
  {
    if !x.manualDisabled && scope.Everything? {
      ViewIsACongruence(x, y, update, now);
      ViewIsACongruence(y, y, update, now);
    }
  }

  lemma {:induction false} AlikeRowsSeeAll(scope: Scope, x: Provider, y: Provider, owed: seq<Owed>, now: int)
    requires Alike(scope, x, y, now)
    ensures Alike(scope, SeenAll(x, owed), SeenAll(y, owed), now)
    decreases |owed|
  {
    if owed != [] {
      AlikeRowsStayAlike(scope, x, y, owed[0].1, now);
      AlikeRowsSeeAll(scope, ApplyCached(x, owed[0].1), ApplyCached(y, owed[0].1), owed[1..], now);
    }
  }

  lemma {:induction false} SeenLast(row: Provider, owed: seq<Owed>, last: Owed)
    ensures SeenAll(row, owed + [last]) == ApplyCached(SeenAll(row, owed), last.1)
    decreases |owed|
  {
    if owed == [] {
      assert [last][1..] == [];
    } else {
      assert (owed + [last])[1..] == owed[1..] + [last];
      SeenLast(ApplyCached(row, owed[0].1), owed[1..], last);
    }
  }

  lemma MergedUpdateIsSeenAsBoth(scope: Scope, row: Provider, a: ProviderUpdate, b: ProviderUpdate, now: int)
    ensures Alike(scope, ApplyStored(row, Providers.Merge(a, b)), ApplyCached(ApplyStored(row, a), b), now)
    ensures Alike(scope, ApplyStored(row, a), ApplyCached(row, a), now)
  {
  }

  lemma FlushedUpdateIsAbsorbed(scope: Scope, row: Provider, update: ProviderUpdate, at: int, now: int)
    requires at <= now
    ensures AbsorbedBy(scope, Recover(ApplyStored(row, update), at), update, now)
  {
  }

  lemma TimePasses(scope: Scope, x: Provider, y: Provider, earlier: int, now: int)
    requires earlier <= now && Alike(scope, x, y, earlier)
    ensures Alike(scope, x, y, now)
  {
    ViewAbsorbsRecovery(x, earlier, now);
    ViewAbsorbsRecovery(y, earlier, now);
  }

  lemma RecoveryIsInvisible(scope: Scope, row: Provider, at: int, now: int)
    requires at <= now
    ensures Alike(scope, Recover(row, at), row, now)
  {
    ViewAbsorbsRecovery(row, at, now);
  }

  // ----- What each step needs

  /** A loaded row, with the update its task writes if any, looks as the row of the current snapshot would. */
  predicate LooksCurrent(scope: Scope, s: State, loaded: Rows, id: string, own: Option<ProviderUpdate>) {
    && id in loaded && id in s.cache
    && Alike(scope, Written(loaded[id], own), Written(s.cache[id], own), s.clock)
  }

  function Written(row: Provider, own: Option<ProviderUpdate>): Provider {
    if own.Some? then ApplyCached(row, own.value) else row
  }

  predicate SetsStatus(update: Option<ProviderUpdate>) {
    update.Some? && update.value.status.Some?
  }

  predicate SetsUse(update: Option<ProviderUpdate>) {
    update.Some? && update.value.lastUsedAt.Some?
  }

  /** The standing and the error an update reports, once its cooldown is over those of an active provider. */
  function Reported(update: ProviderUpdate, now: int): (Status, Option<int>, Option<string>)
    requires update.status.Some?
  {
    if update.status == Some(Cooldown) && update.cooldownUntil.Some? && update.cooldownUntil.value <= now
    then (Active, None, None)
    else (update.status.value, update.cooldownUntil, update.lastError)
  }

  function ReportedBy(row: Provider, now: int): (Status, Option<int>, Option<string>) {
    (Recover(row, now).status, Recover(row, now).cooldownUntil, Recover(row, now).lastError)
  }

  predicate SameReport(
    scope: Scope, x: (Status, Option<int>, Option<string>), y: (Status, Option<int>, Option<string>))
  {
    x.0 == y.0 && x.1 == y.1 && (scope.Everything? ==> x.2 == y.2)
  }

  /** Whether `update` may be merged before `ahead` instead of after it, `behind` coming after both. */
  predicate MayOvertake(
    scope: Scope, update: ProviderUpdate, ahead: Option<ProviderUpdate>, behind: Option<ProviderUpdate>, now: int)
  {
    ahead.Some? ==>
      && (SetsStatus(ahead) && update.status.Some? && !SetsStatus(behind) ==>
            SameReport(scope, Reported(ahead.value, now), Reported(update, now)))
      && (scope.Everything? ==>
            && (behind.None? ==> ahead.value.rateLimit == update.rateLimit)
            && (SetsUse(ahead) && update.lastUsedAt.Some? && !SetsUse(behind) ==>
                  ahead.value.lastUsedAt == update.lastUsedAt))
  }

  /** Whether a pending update may be dropped: each thing it reports is in the row, or overridden by `behind`. */
  predicate MayBeDropped(
    scope: Scope, row: Provider, pending: ProviderUpdate, behind: Option<ProviderUpdate>, now: int)
  {
    && (pending.status.Some? && !SetsStatus(behind) ==>
          SameReport(scope, ReportedBy(row, now), Reported(pending, now)))
    && (scope.Everything? ==>
          && (behind.None? ==> row.rateLimit == Some(pending.rateLimit))
          && (pending.lastUsedAt.Some? && !SetsUse(behind) ==> row.lastUsedAt == pending.lastUsedAt))
  }

  /** The owed updates merged into one. */
  function Summary(owed: seq<Owed>): Option<ProviderUpdate>
    decreases |owed|
  {
    if owed == [] then None
    else match Summary(owed[1..])
         case None => Some(owed[0].1)
         case Some(rest) => Some(Providers.Merge(owed[0].1, rest))
  }

  /** Nothing observed, or flushed and not yet settled, changes what `row` shows. */
  ghost predicate Absorbs(scope: Scope, s: State, id: string, row: Provider) {
    Alike(scope, Stored(s, id, row), row, s.clock) && BatchAbsorbs(scope, s, id, row)
  }

  ghost predicate BatchAbsorbs(scope: Scope, s: State, id: string, row: Provider) {
    forall i :: 0 <= i < |Batch(s)| && Batch(s)[i].0 == id ==>
      && id in s.pending && Overrides(s.pending[id], Batch(s)[i].1)
      && (Flushed(s.phase) ==> AbsorbedBy(scope, row, Batch(s)[i].1, s.clock))
  }

  /** Every row looks in the loaded copy as it does now, the update a task writes included. */
  ghost predicate LoadedIsCurrent(scope: Scope, s: State, loaded: Rows, own: Option<(string, ProviderUpdate)>) {
    forall id :: id in s.db.providers && id !in s.awaiting ==>
      LooksCurrent(scope, s, loaded, id, if own.Some? && own.value.0 == id then Some(own.value.1) else None)
  }

  /** Every row that was read shows what was observed. */
  ghost predicate RowsAreStored(scope: Scope, s: State, rows: Rows) {
    forall id :: id in s.db.providers ==>
      id in rows && Alike(scope, rows[id], Stored(s, id, s.db.providers[id]), s.clock)
  }

  /** A merge may overtake the updates stored before it and not yet merged. */
  predicate MergeIsHarmless(scope: Scope, s: State, id: string, t: nat, update: ProviderUpdate) {
    var owed := OwedTo(s, id);
    id in s.db.providers && !s.db.providers[id].manualDisabled ==>
      MayOvertake(scope, update, Summary(Ahead(owed, t)), Summary(Behind(owed, t)), s.clock)
  }

  /** A pending update may be dropped: the row shows it, or what is owed overrides it. */
  predicate DropIsHarmless(scope: Scope, s: State, id: string) {
    id in s.db.providers && !s.db.providers[id].manualDisabled && id in s.pending ==>
      MayBeDropped(scope, s.db.providers[id], s.pending[id], Summary(OwedTo(s, id)), s.clock)
  }

  /** What a step needs to keep the refinement. */
  ghost predicate Careful(scope: Scope, s: State, step: Step)
    requires Enabled(s, step)
  {
    match step
    case StoreObserve(t) => LoadedIsCurrent(scope, s, s.tasks[t].loaded, Some((s.tasks[t].id, s.tasks[t].update)))
    case StoreForget(t) => LoadedIsCurrent(scope, s, s.tasks[t].loaded, None)
    case StoreRecover => LoadedIsCurrent(scope, s, s.phase.loaded, None)
    case Install(t) => RowsAreStored(scope, s, s.tasks[t].rows)
    case Write(id, row) => Absorbs(scope, s, id, row)
    case Merge(t) => MergeIsHarmless(scope, s, s.tasks[t].id, t, s.tasks[t].update)
    case Drop => DropIsHarmless(scope, s, s.phase.batch[|s.phase.batch| - 1].0)
    case _ => true
  }

  predicate LosesNothing(scope: Scope, s: State, n: State, id: string) {
    id in s.db.providers ==>
      Alike(scope, Stored(n, id, s.db.providers[id]), Stored(s, id, s.db.providers[id]), s.clock)
  }

  // ----- What is owed, and by whom

  /** Owed updates are those of the merging tasks, each once. */
  ghost predicate Books(tasks: map<nat, Task>, owed: map<string, seq<Owed>>) {
    && (forall id, k :: id in owed && 0 <= k < |owed[id]| ==>
          owed[id][k].0 in tasks && tasks[owed[id][k].0] == Merging(id, owed[id][k].1))
    && (forall id, j, k :: id in owed && 0 <= j < k < |owed[id]| ==> owed[id][j].0 != owed[id][k].0)
    && (forall t :: t in tasks && tasks[t].Merging? ==>
          tasks[t].id in owed && Position(owed[tasks[t].id], t) < |owed[tasks[t].id]|)
  }

  lemma OwedAppended(owed: seq<Owed>, last: Owed, t: nat)
    ensures Position(owed, t) < |owed| ==> Position(owed + [last], t) == Position(owed, t)
    ensures Position(owed, t) == |owed| && last.0 == t ==> Position(owed + [last], t) == |owed|
  {
    var all := owed + [last];
    assert forall j :: 0 <= j < |owed| ==> all[j] == owed[j];
    assert all[|owed|] == last;
  }

  lemma StoringIsBooked(tasks: map<nat, Task>, owed: map<string, seq<Owed>>, t: nat, id: string, update: ProviderUpdate)
    requires Books(tasks, owed) && t in tasks && !tasks[t].Merging?
    ensures var before := if id in owed then owed[id] else [];
            Books(tasks[t := Merging(id, update)], owed[id := before + [(t, update)]])
  {
    var before := if id in owed then owed[id] else [];
    var all, after := before + [(t, update)], tasks[t := Merging(id, update)];
    assert forall k :: 0 <= k < |before| ==> before[k].0 != t;
    forall u | u in after && after[u].Merging? && after[u].id == id ensures Position(all, u) < |all| {
      OwedAppended(before, (t, update), u);
      if u == t { assert Position(before, t) == |before|; }
    }
  }

  function WithoutOne(owed: seq<Owed>, t: nat): seq<Owed> {
    Ahead(owed, t) + Behind(owed, t)
  }

  /** Removing one entry keeps the others, in order. */
  lemma OthersStayOwed(owed: seq<Owed>, t: nat)
    requires Position(owed, t) < |owed|
    requires forall j, k :: 0 <= j < k < |owed| ==> owed[j].0 != owed[k].0
    ensures var p, rest := Position(owed, t), WithoutOne(owed, t);
            && |rest| == |owed| - 1
            && (forall k :: 0 <= k < |rest| ==> rest[k] == owed[if k < p then k else k + 1] && rest[k].0 != t)
            && (forall j, k :: 0 <= j < k < |rest| ==> rest[j].0 != rest[k].0)
    ensures forall u :: u != t && Position(owed, u) < |owed| ==> Position(WithoutOne(owed, t), u) < |owed| - 1
  {
    var p, rest := Position(owed, t), WithoutOne(owed, t);
    forall k | 0 <= k < |rest| ensures rest[k] == owed[if k < p then k else k + 1] && rest[k].0 != t {
      assert k >= p ==> owed[p].0 != owed[k + 1].0;
    }
    forall u | u != t && Position(owed, u) < |owed| ensures Position(rest, u) < |rest| {
      var k := Position(owed, u);
      assert rest[if k < p then k else k - 1] == owed[k];
    }
  }

  lemma OthersAreStillMerging(tasks: map<nat, Task>, owed: map<string, seq<Owed>>, t: nat, id: string, k: nat)
    requires Books(tasks, owed) && t in tasks && tasks[t].Merging? && id in owed
    requires var left := if id == tasks[t].id then WithoutOne(owed[id], t) else owed[id];
             k < |left|
    ensures var left := if id == tasks[t].id then WithoutOne(owed[id], t) else owed[id];
            left[k].0 != t && left[k].0 in tasks && tasks[left[k].0] == Merging(id, left[k].1)
  {
    if id == tasks[t].id {
      OthersStayOwed(owed[id], t);
    }
  }

  lemma OthersAreStillOwed(tasks: map<nat, Task>, owed: map<string, seq<Owed>>, t: nat, u: nat)
    requires Books(tasks, owed) && t in tasks && tasks[t].Merging? && u in tasks && tasks[u].Merging? && u != t
    ensures var after := owed[tasks[t].id := WithoutOne(owed[tasks[t].id], t)];
            tasks[u].id in after && Position(after[tasks[u].id], u) < |after[tasks[u].id]|
  {
    OthersStayOwed(owed[tasks[t].id], t);
  }

  lemma MergingIsBooked(tasks: map<nat, Task>, owed: map<string, seq<Owed>>, t: nat)
    requires Books(tasks, owed) && t in tasks && tasks[t].Merging?
    ensures Books(tasks - {t}, owed[tasks[t].id := WithoutOne(owed[tasks[t].id], t)])
  {
    var left := tasks - {t};
    var after: map<string, seq<Owed>> := owed[tasks[t].id := WithoutOne(owed[tasks[t].id], t)];
    forall id, k | id in after && 0 <= k < |after[id]|
      ensures after[id][k].0 in left && left[after[id][k].0] == Merging(id, after[id][k].1)
    {
      OthersAreStillMerging(tasks, owed, t, id, k);
    }
    forall u | u in left && left[u].Merging?
      ensures left[u].id in after && Position(after[left[u].id], u) < |after[left[u].id]|
    {
      OthersAreStillOwed(tasks, owed, t, u);
    }
    OthersStayOwed(owed[tasks[t].id], t);
  }

  lemma TasksComeAndGo(s: State, step: Step)
    requires Books(s.tasks, s.owed) && Enabled(s, step)
    requires step.LoadObserve? || step.LoadForget? || step.Read? || step.Install? || step.StoreForget?
        || step.DropUpdate?
    ensures Books(Next(s, step).tasks, Next(s, step).owed)
  {
    assert Next(s, step).owed == s.owed;
    assert forall t :: t in s.tasks && s.tasks[t].Merging? ==>
        t in Next(s, step).tasks && Next(s, step).tasks[t] == s.tasks[t];
  }

  lemma BooksKept(s: State, step: Step)
    requires Books(s.tasks, s.owed) && Enabled(s, step)
    ensures Books(Next(s, step).tasks, Next(s, step).owed)
  {
    match step
    case StoreObserve(t) => StoringIsBooked(s.tasks, s.owed, t, s.tasks[t].id, s.tasks[t].update);
    case Merge(t) => MergingIsBooked(s.tasks, s.owed, t);
    case LoadObserve(_, _, _) => TasksComeAndGo(s, step);
    case LoadForget(_, _) => TasksComeAndGo(s, step);
    case Read(_) => TasksComeAndGo(s, step);
    case Install(_) => TasksComeAndGo(s, step);
    case StoreForget(_) => TasksComeAndGo(s, step);
    case DropUpdate(_) => TasksComeAndGo(s, step);
    case _ =>
  }

  // ----- Runs

  ghost predicate IsRun(s: State, steps: seq<Step>)
    decreases |steps|
  {
    steps != [] ==> Enabled(s, steps[0]) && IsRun(Next(s, steps[0]), steps[1..])
  }

  ghost function After(s: State, steps: seq<Step>): State
    requires IsRun(s, steps)
    decreases |steps|
  {
    if steps == [] then s else After(Next(s, steps[0]), steps[1..])
  }

  lemma {:induction false} Joined(s: State, first: seq<Step>, second: seq<Step>)
    requires IsRun(s, first) && IsRun(After(s, first), second)
    ensures IsRun(s, first + second) && After(s, first + second) == After(After(s, first), second)
    decreases |first|
  {
    if first == [] {
      assert first + second == second;
    } else {
      assert (first + second)[1..] == first[1..] + second;
      Joined(Next(s, first[0]), first[1..], second);
    }
  }

  lemma Taken(s: State, step: Step)
    requires Enabled(s, step)
    ensures IsRun(s, [step]) && After(s, [step]) == Next(s, step)
  {
    assert [step][1..] == [];
  }

  /** Loaded from a database with nothing pending and nobody at work: the state after start-up. */
  ghost predicate Initial(s: State) {
    && s.cache == s.db.providers == s.ideal && s.pending == map[] && s.owed == map[]
    && s.tasks == map[] && s.phase == Idle && s.awaiting == {} && s.gone == {}
  }
}
