/**
 The refinement of `WriteBehind`, step by step and over whole runs: the snapshot and the database, with what
 was observed, look like rows that see every observation at once and no maintenance. A step keeps this if and
 only if it is careful; orderly runs are careful throughout.
 */
module Refinement {
  import opened Options
  import opened Providers
  import opened Database
  import opened WriteBehind

  // ----- Steps that change no row

  predicate SameRows(s: State, n: State) {
    && n.cache == s.cache && n.db == s.db && n.pending == s.pending && n.owed == s.owed
    && n.awaiting == s.awaiting && n.gone == s.gone && n.ideal == s.ideal && n.clock == s.clock
  }

  lemma SameRowsAgree(scope: Scope, s: State, n: State)
    requires SameRows(s, n) && RowsAgree(scope, s)
    ensures RowsAgree(scope, n)
  {
    forall id | id in n.db.providers
      ensures StoredAgrees(scope, n, id) && (id !in n.awaiting ==> CacheAgrees(scope, n, id))
    {
      assert StoredAgrees(scope, s, id) && (id !in s.awaiting ==> CacheAgrees(scope, s, id));
    }
  }

  /** A batch that only loses items at its end. */
  lemma ShorterBatchIsOk(scope: Scope, s: State, n: State)
    requires n.db == s.db && n.pending == s.pending && n.clock == s.clock && BatchOk(scope, s) && Batch(n) <= Batch(s)
    requires (Flushed(n.phase) ==> Flushed(s.phase)) && (!n.phase.Idle? ==> n.phase.at <= n.clock)
    ensures BatchOk(scope, n)
  {
    forall i | 0 <= i < |Batch(n)| ensures Tracked(scope, n, Batch(n)[i]) {
      assert Tracked(scope, s, Batch(s)[i]);
    }
  }

  lemma LoadKeeps(scope: Scope, s: State, step: Step)
    requires Inv(scope, s) && Enabled(s, step) && (step.LoadObserve? || step.LoadForget? || step.Read?)
    ensures Inv(scope, Next(s, step))
  {
    SameRowsAgree(scope, s, Next(s, step));
    ShorterBatchIsOk(scope, s, Next(s, step));
  }

  lemma BeginKeeps(scope: Scope, s: State, step: Step)
    requires Inv(scope, s) && Enabled(s, step) && (step.Begin? || step.Fail?)
    ensures Inv(scope, Next(s, step))
  {
    SameRowsAgree(scope, s, Next(s, step));
    ShorterBatchIsOk(scope, s, Next(s, step));
  }

  lemma CompareKeeps(scope: Scope, s: State)
    requires Inv(scope, s) && Enabled(s, Compare)
    ensures Inv(scope, Next(s, Compare))
  {
    SameRowsAgree(scope, s, Next(s, Compare));
    ShorterBatchIsOk(scope, s, Next(s, Compare));
  }

  lemma LoadRecoverKeeps(scope: Scope, s: State)
    requires Inv(scope, s) && Enabled(s, LoadRecover)
    ensures Inv(scope, Next(s, LoadRecover))
  {
    SameRowsAgree(scope, s, Next(s, LoadRecover));
    ShorterBatchIsOk(scope, s, Next(s, LoadRecover));
  }

  lemma CollectKeeps(scope: Scope, s: State, id: string)
    requires Inv(scope, s) && Enabled(s, Collect(id))
    ensures Inv(scope, Next(s, Collect(id)))
  {
    var n, k := Next(s, Collect(id)), |s.phase.batch|;
    SameRowsAgree(scope, s, n);
    forall i | 0 <= i <= k
      ensures Tracked(scope, n, Batch(n)[i]) && forall j :: 0 <= j < i ==> Batch(n)[j].0 != Batch(n)[i].0
    {
      assert i < k ==> Batch(n)[i] == Batch(s)[i] && Tracked(scope, s, Batch(s)[i]);
      assert forall j :: 0 <= j < i ==> Batch(n)[j] == Batch(s)[j];
    }
  }

  lemma DropUpdateKeeps(scope: Scope, s: State, t: nat)
    requires Inv(scope, s) && Enabled(s, DropUpdate(t))
    ensures Inv(scope, Next(s, DropUpdate(t)))
  {
    var n := Next(s, DropUpdate(t));
    forall id | id in n.db.providers
      ensures StoredAgrees(scope, n, id) && (id !in n.awaiting ==> CacheAgrees(scope, n, id))
    {
      assert StoredAgrees(scope, s, id) && (id !in s.awaiting ==> CacheAgrees(scope, s, id));
    }
    forall i | 0 <= i < |Batch(n)| ensures Tracked(scope, n, Batch(n)[i]) {
      assert Tracked(scope, s, Batch(s)[i]);
    }
  }

  lemma TickKeeps(scope: Scope, s: State, now: int)
    requires Inv(scope, s) && s.clock <= now
    ensures Inv(scope, Next(s, Tick(now)))
  {
    var n := Next(s, Tick(now));
    forall id | id in n.db.providers
      ensures StoredAgrees(scope, n, id) && (id !in n.awaiting ==> CacheAgrees(scope, n, id))
    {
      assert StoredAgrees(scope, s, id);
      TimePasses(scope, Stored(s, id, s.db.providers[id]), s.ideal[id], s.clock, now);
      if id !in s.awaiting {
        assert CacheAgrees(scope, s, id);
        TimePasses(scope, s.cache[id], s.ideal[id], s.clock, now);
      }
    }
    forall i | 0 <= i < |Batch(n)| ensures Tracked(scope, n, Batch(n)[i]) {
      var item := Batch(s)[i];
      assert Tracked(scope, s, item);
      if item.0 in s.db.providers && Flushed(s.phase) {
        TimePasses(scope, ApplyStored(s.db.providers[item.0], item.1), s.db.providers[item.0], s.clock, now);
      }
    }
  }

  lemma OthersOutliveARemoval(scope: Scope, s: State, id: string, p: string)
    requires Enabled(s, Remove(id)) && p in s.db.providers && p != id && StoredAgrees(scope, s, p)
    ensures var n := Next(s, Remove(id));
            p in n.db.providers && StoredAgrees(scope, n, p) && (CacheAgrees(scope, s, p) ==> CacheAgrees(scope, n, p))
  {
  }

  lemma RemoveKeeps(scope: Scope, s: State, id: string)
    requires Inv(scope, s) && Enabled(s, Remove(id))
    ensures Inv(scope, Next(s, Remove(id)))
  {
    var n := Next(s, Remove(id));
    forall p | p in n.db.providers
      ensures StoredAgrees(scope, n, p) && (p !in n.awaiting ==> CacheAgrees(scope, n, p))
    {
      assert StoredAgrees(scope, s, p);
      OthersOutliveARemoval(scope, s, id, p);
    }
    forall i | 0 <= i < |Batch(n)| ensures Tracked(scope, n, Batch(n)[i]) {
      assert Tracked(scope, s, Batch(s)[i]);
    }
  }

  // ----- The transaction

  /** A flush and recovery show nothing new once what was observed is applied again. */
  lemma FlushedRowStillAgrees(scope: Scope, s: State, id: string, row: Provider, item: Option<ProviderUpdate>, at: int)
    requires at <= s.clock && (item.Some? ==> id in s.pending && Overrides(s.pending[id], item.value))
    ensures var flushed := Recover(if item.Some? then ApplyStored(row, item.value) else row, at);
            Alike(scope, Stored(s, id, flushed), Stored(s, id, row), s.clock)
  {
    var flushed := Recover(if item.Some? then ApplyStored(row, item.value) else row, at);
    if item.Some? {
      if !row.manualDisabled {
        ReflushIsAbsorbed(row, item.value, s.pending[id], at, s.clock);
      }
    } else {
      RecoveryIsInvisible(scope, row, at, s.clock);
      if id in s.pending {
        AlikeRowsStayAlike(scope, flushed, row, s.pending[id], s.clock);
      }
    }
    AlikeRowsSeeAll(scope, WithPending(s, id, flushed), WithPending(s, id, row), OwedTo(s, id), s.clock);
  }

  /** What a transaction does to one row. */
  lemma FlushedRow(scope: Scope, s: State, id: string)
    requires Inv(scope, s) && s.phase.Collecting? && Flush(s.db, s.phase.batch, s.phase.at).Some?
        && id in s.db.providers
    ensures var r := Flush(s.db, s.phase.batch, s.phase.at).value.providers;
            && r.Keys == s.db.providers.Keys
            && (Names(s.phase.batch, id) ==>
                exists u :: (id, u) in s.phase.batch
                    && r[id] == Recover(ApplyStored(s.db.providers[id], u), s.phase.at))
            && (!Names(s.phase.batch, id) ==> r[id] == Recover(s.db.providers[id], s.phase.at))
  {
    var batch := s.phase.batch;
    FlushAllRows(s.db, batch);
    if Names(batch, id) {
      var i :| 0 <= i < |batch| && batch[i].0 == id;
      assert (id, batch[i].1) == batch[i];
    }
  }

  lemma CommitKeepsRow(scope: Scope, s: State, n: State, id: string, item: Option<ProviderUpdate>)
    requires id in s.db.providers && StoredAgrees(scope, s, id) && s.phase.Collecting? && s.phase.at <= s.clock
    requires item.Some? ==> Tracked(scope, s, (id, item.value))
    requires n.pending == s.pending && n.owed == s.owed && n.ideal == s.ideal && n.clock == s.clock
    requires id in n.db.providers
    requires var row := s.db.providers[id];
             n.db.providers[id] == Recover(if item.Some? then ApplyStored(row, item.value) else row, s.phase.at)
    ensures StoredAgrees(scope, n, id)
  {
    FlushedRowStillAgrees(scope, s, id, s.db.providers[id], item, s.phase.at);
  }

  lemma BatchItemIsTracked(scope: Scope, s: State, item: Pending)
    requires BatchOk(scope, s) && item in Batch(s)
    ensures Tracked(scope, s, item)
  {
    var i :| 0 <= i < |Batch(s)| && Batch(s)[i] == item;
  }

  lemma CommittedRowAgrees(scope: Scope, s: State, id: string)
    requires Inv(scope, s) && s.phase.Collecting? && Flush(s.db, s.phase.batch, s.phase.at).Some?
        && id in s.db.providers
    ensures id in Next(s, Commit).db.providers && StoredAgrees(scope, Next(s, Commit), id)
  {
    var n := Next(s, Commit);
    FlushedRow(scope, s, id);
    assert StoredAgrees(scope, s, id);
    if Names(s.phase.batch, id) {
      var u :| (id, u) in s.phase.batch
          && n.db.providers[id] == Recover(ApplyStored(s.db.providers[id], u), s.phase.at);
      BatchItemIsTracked(scope, s, (id, u));
      CommitKeepsRow(scope, s, n, id, Some(u));
    } else {
      CommitKeepsRow(scope, s, n, id, None);
    }
  }

  lemma CommittedRowsAgree(scope: Scope, s: State)
    requires Inv(scope, s) && s.phase.Collecting? && Flush(s.db, s.phase.batch, s.phase.at).Some?
    ensures RowsAgree(scope, Next(s, Commit))
  {
    var n := Next(s, Commit);
    FlushAllRows(s.db, s.phase.batch);
    forall id | id in n.db.providers
      ensures StoredAgrees(scope, n, id) && (id !in n.awaiting ==> CacheAgrees(scope, n, id))
    {
      CommittedRowAgrees(scope, s, id);
      assert id !in s.awaiting ==> CacheAgrees(scope, s, id);
    }
  }

  lemma CommittedBatchIsOk(scope: Scope, s: State)
    requires Inv(scope, s) && s.phase.Collecting? && Flush(s.db, s.phase.batch, s.phase.at).Some?
    ensures BatchOk(scope, Next(s, Commit))
  {
    var n := Next(s, Commit);
    FlushAllRows(s.db, s.phase.batch);
    forall i | 0 <= i < |Batch(n)| ensures Tracked(scope, n, Batch(n)[i]) {
      var item := Batch(s)[i];
      assert Tracked(scope, s, item);
      if item.0 in s.db.providers {
        FlushedUpdateIsAbsorbed(scope, s.db.providers[item.0], item.1, s.phase.at, s.clock);
      }
    }
  }

  lemma CommitKeeps(scope: Scope, s: State)
    requires Inv(scope, s) && s.phase.Collecting?
    ensures Inv(scope, Next(s, Commit))
  {
    if Flush(s.db, s.phase.batch, s.phase.at).Some? {
      FlushAllRows(s.db, s.phase.batch);
      CommittedRowsAgree(scope, s);
      CommittedBatchIsOk(scope, s);
    } else {
      SameRowsAgree(scope, s, Next(s, Commit));
    }
  }

  // ----- Stores of the snapshot

  /** A store of the snapshot that carries no observation agrees iff its rows do. */
  lemma PublishedRowsAgreeIff(scope: Scope, s: State, n: State)
    requires n.db == s.db && n.pending == s.pending && n.owed == s.owed && n.ideal == s.ideal && n.clock == s.clock
    requires RowsAgree(scope, s)
    ensures RowsAgree(scope, n)
        <==> forall id :: id in n.db.providers && id !in n.awaiting ==> CacheAgrees(scope, n, id)
  {
    forall id | id in n.db.providers ensures StoredAgrees(scope, n, id) {
      assert StoredAgrees(scope, s, id);
    }
  }

  lemma StoreForgetKeepsIff(scope: Scope, s: State, t: nat)
    requires Inv(scope, s) && Enabled(s, StoreForget(t))
    ensures Inv(scope, Next(s, StoreForget(t))) <==> LoadedIsCurrent(scope, s, s.tasks[t].loaded, None)
  {
    var n, loaded := Next(s, StoreForget(t)), s.tasks[t].loaded;
    PublishedRowsAgreeIff(scope, s, n);
    ShorterBatchIsOk(scope, s, n);
    forall id | id in s.db.providers && id !in s.awaiting
      ensures CacheAgrees(scope, n, id) <==> LooksCurrent(scope, s, loaded, id, None)
    {
      assert CacheAgrees(scope, s, id) && id != s.tasks[t].id;
    }
  }

  lemma StoreRecoverKeepsIff(scope: Scope, s: State)
    requires Inv(scope, s) && Enabled(s, StoreRecover)
    ensures Inv(scope, Next(s, StoreRecover)) <==> LoadedIsCurrent(scope, s, s.phase.loaded, None)
  {
    var n, loaded := Next(s, StoreRecover), s.phase.loaded;
    PublishedRowsAgreeIff(scope, s, n);
    ShorterBatchIsOk(scope, s, n);
    forall id | id in s.db.providers && id !in s.awaiting
      ensures CacheAgrees(scope, n, id) <==> LooksCurrent(scope, s, loaded, id, None)
    {
      assert CacheAgrees(scope, s, id);
      if id in loaded {
        RecoveryIsInvisible(scope, loaded[id], s.phase.at, s.clock);
      }
    }
  }

  /** Once maintenance is done no row, in the database or in the snapshot, still waits for a cooldown that was over. */
  lemma MaintenanceRecovers(s: State, id: string)
    ensures s.phase.Collecting? && Flush(s.db, s.phase.batch, s.phase.at).Some? ==>
              var rows := Next(s, Commit).db.providers;
              id in rows && Available(rows[id], s.phase.at) ==> rows[id].status == Active
    ensures s.phase.Recovering? ==>
              var (loaded, rows) := (s.phase.loaded, Next(s, StoreRecover).cache);
              && (id in rows <==> id in loaded)
              && (id in rows && Available(loaded[id], s.phase.at) ==> rows[id].status == Active)
              && (id in rows && !Available(loaded[id], s.phase.at) ==> rows[id] == loaded[id])
  {
  }

  lemma InstallKeepsIff(scope: Scope, s: State, t: nat)
    requires Inv(scope, s) && Enabled(s, Install(t))
    ensures Inv(scope, Next(s, Install(t))) <==> RowsAreStored(scope, s, s.tasks[t].rows)
  {
    var n, rows := Next(s, Install(t)), s.tasks[t].rows;
    PublishedRowsAgreeIff(scope, s, n);
    ShorterBatchIsOk(scope, s, n);
    forall id | id in s.db.providers
      ensures CacheAgrees(scope, n, id)
          <==> id in rows && Alike(scope, rows[id], Stored(s, id, s.db.providers[id]), s.clock)
    {
      assert StoredAgrees(scope, s, id);
    }
  }

  lemma ObservationIsOwed(scope: Scope, s: State, t: nat, id: string)
    requires StoredHere(scope, s, id) && Enabled(s, StoreObserve(t))
    ensures StoredHere(scope, Next(s, StoreObserve(t)), id)
  {
    var task, row := s.tasks[t], s.db.providers[id];
    if id == task.id {
      SeenLast(WithPending(s, id, row), OwedTo(s, id), (t, task.update));
      AlikeRowsStayAlike(scope, Stored(s, id, row), s.ideal[id], task.update, s.clock);
    }
  }

  predicate StoredHere(scope: Scope, s: State, id: string) {
    id in s.db.providers && StoredAgrees(scope, s, id)
  }

  lemma ObservedRowAgreesIff(scope: Scope, s: State, t: nat, id: string)
    requires Enabled(s, StoreObserve(t)) && CacheAgrees(scope, s, id)
    ensures var task := s.tasks[t];
            CacheAgrees(scope, Next(s, StoreObserve(t)), id)
            <==> LooksCurrent(scope, s, task.loaded, id, if task.id == id then Some(task.update) else None)
  {
    if id == s.tasks[t].id {
      AlikeRowsStayAlike(scope, s.cache[id], s.ideal[id], s.tasks[t].update, s.clock);
    }
  }

  lemma StoreObserveKeepsIff(scope: Scope, s: State, t: nat)
    requires Inv(scope, s) && Enabled(s, StoreObserve(t))
    ensures Inv(scope, Next(s, StoreObserve(t)))
        <==> LoadedIsCurrent(scope, s, s.tasks[t].loaded, Some((s.tasks[t].id, s.tasks[t].update)))
  {
    var n, task := Next(s, StoreObserve(t)), s.tasks[t];
    ShorterBatchIsOk(scope, s, n);
    forall id | id in s.db.providers ensures StoredAgrees(scope, n, id) {
      ObservationIsOwed(scope, s, t, id);
    }
    forall id | id in s.db.providers && id !in s.awaiting
      ensures CacheAgrees(scope, n, id)
          <==> LooksCurrent(scope, s, task.loaded, id, if task.id == id then Some(task.update) else None)
    {
      assert CacheAgrees(scope, s, id);
      ObservedRowAgreesIff(scope, s, t, id);
    }
  }

  // ----- Pending updates and operators' writes

  /** Every other provider is as before. */
  predicate OnlyPendingOf(s: State, n: State, id: string) {
    && n.db == s.db && n.cache == s.cache && n.awaiting == s.awaiting && n.ideal == s.ideal && n.clock == s.clock
    && n.pending - {id} == s.pending - {id} && n.owed - {id} == s.owed - {id}
  }

  lemma PendingOfOtherIsSame(s: State, n: State, id: string, p: string)
    requires OnlyPendingOf(s, n, id) && p != id
    ensures p in n.pending <==> p in s.pending
    ensures p in n.pending ==> n.pending[p] == s.pending[p]
    ensures OwedTo(n, p) == OwedTo(s, p)
  {
    assert p in n.pending <==> p in n.pending - {id};
    assert p in s.pending <==> p in s.pending - {id};
    assert p in n.pending ==> n.pending[p] == (n.pending - {id})[p] == (s.pending - {id})[p];
    assert p in n.owed <==> p in n.owed - {id};
    assert p in s.owed <==> p in s.owed - {id};
    assert p in n.owed ==> n.owed[p] == (n.owed - {id})[p] == (s.owed - {id})[p];
  }

  lemma PendingRowsAgreeIff(scope: Scope, s: State, n: State, id: string)
    requires OnlyPendingOf(s, n, id) && RowsAgree(scope, s)
    ensures RowsAgree(scope, n) <==> LosesNothing(scope, s, n, id)
  {
    forall p | p in s.db.providers
      ensures CacheAgrees(scope, n, p) <==> CacheAgrees(scope, s, p)
      ensures StoredAgrees(scope, n, p) <==> p != id || LosesNothing(scope, s, n, id)
    {
      assert StoredAgrees(scope, s, p);
      if p != id {
        PendingOfOtherIsSame(s, n, id, p);
      }
    }
  }

  lemma {:induction false} SeenAllInParts(row: Provider, a: seq<Owed>, b: seq<Owed>)
    ensures SeenAll(row, a + b) == SeenAll(SeenAll(row, a), b)
    decreases |a|
  {
    if a == [] {
      assert a + b == b;
    } else {
      assert (a + b)[1..] == a[1..] + b;
      SeenAllInParts(ApplyCached(row, a[0].1), a[1..], b);
    }
  }

  lemma {:induction false} SeenAllIsSummary(scope: Scope, row: Provider, owed: seq<Owed>, now: int)
    ensures Alike(scope, SeenAll(row, owed), Written(row, Summary(owed)), now)
    decreases |owed|
  {
    if owed != [] {
      var first := ApplyCached(row, owed[0].1);
      SeenAllIsSummary(scope, first, owed[1..], now);
      if Summary(owed[1..]).Some? {
        SeenBothIsMerged(scope, row, owed[0].1, Summary(owed[1..]).value, now);
      }
    }
  }

  lemma SeenBothIsMerged(scope: Scope, row: Provider, a: ProviderUpdate, b: ProviderUpdate, now: int)
    ensures Alike(scope, ApplyCached(ApplyCached(row, a), b), ApplyCached(row, Providers.Merge(a, b)), now)
  {
  }

  lemma WrittenStaysAlike(scope: Scope, x: Provider, y: Provider, update: Option<ProviderUpdate>, now: int)
    requires Alike(scope, x, y, now)
    ensures Alike(scope, Written(x, update), Written(y, update), now)
  {
    if update.Some? {
      AlikeRowsStayAlike(scope, x, y, update.value, now);
    }
  }

  predicate LookAlikeBehind(scope: Scope, x: Provider, y: Provider, behind: Option<ProviderUpdate>, now: int) {
    Alike(scope, Written(x, behind), Written(y, behind), now)
  }

  /** Two rows that differ at most where updates write. */
  predicate SameOtherwise(x: Provider, y: Provider) {
    x == y.(status := x.status, cooldownUntil := x.cooldownUntil, rateLimit := x.rateLimit, lastError := x.lastError,
            lastUsedAt := x.lastUsedAt, updatedAt := x.updatedAt)
  }

  lemma AlikeByFields(x: Provider, y: Provider, now: int)
    requires SameOtherwise(x, y) && !x.manualDisabled
    ensures Alike(Everything, x, y, now)
            <==> ReportedBy(x, now) == ReportedBy(y, now) && x.rateLimit == y.rateLimit && x.lastUsedAt == y.lastUsedAt
  {
  }

  lemma MayOvertakeAvailablyIff(
    row: Provider, update: ProviderUpdate, ahead: ProviderUpdate, behind: Option<ProviderUpdate>, now: int)
    requires !row.manualDisabled
    ensures LookAlikeBehind(Availability, ApplyCached(ApplyCached(row, update), ahead),
                            ApplyCached(ApplyCached(row, ahead), update), behind, now)
            <==> MayOvertake(Availability, update, Some(ahead), behind, now)
  {
  }

  /** What two updates and those behind them leave in a row. */
  lemma AfterTwo(row: Provider, a: ProviderUpdate, b: ProviderUpdate, behind: Option<ProviderUpdate>, now: int)
    requires !row.manualDisabled
    ensures var x := Written(ApplyCached(ApplyCached(row, a), b), behind);
            && SameOtherwise(x, row)
            && ReportedBy(x, now) == (if SetsStatus(behind) then Reported(behind.value, now)
                                      else if b.status.Some? then Reported(b, now)
                                      else if a.status.Some? then Reported(a, now) else ReportedBy(row, now))
            && x.rateLimit == Some(if behind.Some? then behind.value.rateLimit else b.rateLimit)
            && x.lastUsedAt == (if SetsUse(behind) then behind.value.lastUsedAt
                                else b.lastUsedAt.Or(a.lastUsedAt.Or(row.lastUsedAt)))
  {
  }

  lemma MayOvertakeInEverythingIff(
    row: Provider, update: ProviderUpdate, ahead: ProviderUpdate, behind: Option<ProviderUpdate>, now: int)
    requires !row.manualDisabled
    ensures LookAlikeBehind(Everything, ApplyCached(ApplyCached(row, update), ahead),
                            ApplyCached(ApplyCached(row, ahead), update), behind, now)
            <==> MayOvertake(Everything, update, Some(ahead), behind, now)
  {
    AfterTwo(row, update, ahead, behind, now);
    AfterTwo(row, ahead, update, behind, now);
    EverythingByFields(row, Written(ApplyCached(ApplyCached(row, update), ahead), behind),
                       Written(ApplyCached(ApplyCached(row, ahead), update), behind), update, ahead, behind, now);
  }

  lemma EverythingByFields(
    row: Provider, x: Provider, y: Provider, update: ProviderUpdate, ahead: ProviderUpdate,
    behind: Option<ProviderUpdate>, now: int)
    requires !row.manualDisabled && SameOtherwise(x, row) && SameOtherwise(y, row)
    requires SetsStatus(behind) || (update.status.None? && ahead.status.None?) ==>
        ReportedBy(x, now) == ReportedBy(y, now)
    requires !SetsStatus(behind) && ahead.status.Some? ==> ReportedBy(x, now) == Reported(ahead, now)
    requires !SetsStatus(behind) && update.status.Some? ==> ReportedBy(y, now) == Reported(update, now)
    requires !SetsStatus(behind) && ahead.status.None? && update.status.Some? ==>
        ReportedBy(x, now) == Reported(update, now)
    requires !SetsStatus(behind) && ahead.status.Some? && update.status.None? ==>
        ReportedBy(y, now) == Reported(ahead, now)
    requires behind.Some? ==> x.rateLimit == y.rateLimit
    requires behind.None? ==> x.rateLimit == Some(ahead.rateLimit) && y.rateLimit == Some(update.rateLimit)
    requires SetsUse(behind) ==> x.lastUsedAt == y.lastUsedAt
    requires !SetsUse(behind) ==> x.lastUsedAt == ahead.lastUsedAt.Or(update.lastUsedAt.Or(row.lastUsedAt))
    requires !SetsUse(behind) ==> y.lastUsedAt == update.lastUsedAt.Or(ahead.lastUsedAt.Or(row.lastUsedAt))
    ensures Alike(Everything, x, y, now) <==> MayOvertake(Everything, update, Some(ahead), behind, now)
  {
    AlikeByFields(x, y, now);
  }

  /** The condition for overtaking is exact for every row. */
  lemma MayOvertakeIff(
    scope: Scope, row: Provider, update: ProviderUpdate, ahead: Option<ProviderUpdate>, behind: Option<ProviderUpdate>,
    now: int)
    requires !row.manualDisabled
    ensures LookAlikeBehind(scope, Written(ApplyCached(row, update), ahead), ApplyCached(Written(row, ahead), update),
                            behind, now)
            <==> MayOvertake(scope, update, ahead, behind, now)
  {
    if ahead.Some? {
      if scope.Everything? {
        MayOvertakeInEverythingIff(row, update, ahead.value, behind, now);
      } else {
        MayOvertakeAvailablyIff(row, update, ahead.value, behind, now);
      }
    }
  }

  /** The condition for dropping is exact for every row. */
  lemma MayBeDroppedIff(
    scope: Scope, row: Provider, pending: ProviderUpdate, behind: Option<ProviderUpdate>, now: int)
    requires !row.manualDisabled
    ensures Alike(scope, Written(row, behind), Written(ApplyStored(row, pending), behind), now)
            <==> MayBeDropped(scope, row, pending, behind, now)
  {
  }

  /** Updates owed on both sides of one, seen in order, and with that one seen first. */
  lemma SeenAround(
    scope: Scope, x: Provider, y: Provider, update: ProviderUpdate, t: nat, ahead: seq<Owed>,
    behind: seq<Owed>, now: int)
    requires Alike(scope, y, ApplyCached(x, update), now)
    ensures Alike(scope, SeenAll(x, ahead + [(t, update)] + behind),
                  Written(ApplyCached(Written(x, Summary(ahead)), update), Summary(behind)), now)
    ensures Alike(scope, SeenAll(y, ahead + behind),
                  Written(Written(ApplyCached(x, update), Summary(ahead)), Summary(behind)), now)
  {
    var seen := SeenAll(x, ahead);
    SeenLast(x, ahead, (t, update));
    SeenAllInParts(x, ahead + [(t, update)], behind);
    SeenAllIsSummary(scope, x, ahead, now);
    AlikeRowsStayAlike(scope, seen, Written(x, Summary(ahead)), update, now);
    SeenAllIsSummary(scope, ApplyCached(seen, update), behind, now);
    WrittenStaysAlike(scope, ApplyCached(seen, update), ApplyCached(Written(x, Summary(ahead)), update),
        Summary(behind), now);

    var first := ApplyCached(x, update);
    SeenAllInParts(y, ahead, behind);
    SeenAllIsSummary(scope, y, ahead, now);
    WrittenStaysAlike(scope, y, first, Summary(ahead), now);
    SeenAllIsSummary(scope, SeenAll(y, ahead), behind, now);
    WrittenStaysAlike(scope, SeenAll(y, ahead), Written(first, Summary(ahead)), Summary(behind), now);
  }

  lemma MergeShowsIff(
    scope: Scope, x: Provider, y: Provider, update: ProviderUpdate, t: nat, ahead: seq<Owed>,
    behind: seq<Owed>, now: int)
    requires !x.manualDisabled && Alike(scope, y, ApplyCached(x, update), now)
    ensures Alike(scope, SeenAll(y, ahead + behind), SeenAll(x, ahead + [(t, update)] + behind), now)
            <==> MayOvertake(scope, update, Summary(ahead), Summary(behind), now)
  {
    SeenAround(scope, x, y, update, t, ahead, behind, now);
    MayOvertakeIff(scope, x, update, Summary(ahead), Summary(behind), now);
  }

  lemma MergedRowHasSeenIt(scope: Scope, s: State, n: State, id: string, row: Provider, update: ProviderUpdate)
    requires n.pending == ObservePending(s.pending, id, update)
    ensures Alike(scope, WithPending(n, id, row), ApplyCached(WithPending(s, id, row), update), s.clock)
  {
    if id in s.pending {
      MergedUpdateIsSeenAsBoth(scope, row, s.pending[id], update, s.clock);
    } else {
      MergedUpdateIsSeenAsBoth(scope, row, update, update, s.clock);
    }
  }

  lemma MergeLosesNothingIff(scope: Scope, s: State, t: nat)
    requires Books(s.tasks, s.owed) && Enabled(s, Merge(t))
    ensures LosesNothing(scope, s, Next(s, Merge(t)), s.tasks[t].id)
            <==> MergeIsHarmless(scope, s, s.tasks[t].id, t, s.tasks[t].update)
  {
    var (id, update) := (s.tasks[t].id, s.tasks[t].update);
    var n, owed := Next(s, Merge(t)), OwedTo(s, id);
    if id in s.db.providers && !s.db.providers[id].manualDisabled {
      var row := s.db.providers[id];
      MergedRowHasSeenIt(scope, s, n, id, row, update);
      assert owed == Ahead(owed, t) + [(t, update)] + Behind(owed, t);
      MergeShowsIff(scope, WithPending(s, id, row), WithPending(n, id, row), update, t, Ahead(owed, t),
          Behind(owed, t), s.clock);
    }
  }

  lemma MergeKeepsBatch(scope: Scope, s: State, t: nat)
    requires BatchOk(scope, s) && Enabled(s, Merge(t))
    ensures BatchOk(scope, Next(s, Merge(t)))
  {
    var n := Next(s, Merge(t));
    forall i | 0 <= i < |Batch(n)| ensures Tracked(scope, n, Batch(n)[i]) {
      assert Tracked(scope, s, Batch(s)[i]);
    }
  }

  lemma MergeTouchesOne(s: State, t: nat)
    requires Enabled(s, Merge(t))
    ensures OnlyPendingOf(s, Next(s, Merge(t)), s.tasks[t].id)
  {
  }

  lemma MergeAgreesIff(scope: Scope, s: State, t: nat)
    requires RowsAgree(scope, s) && Books(s.tasks, s.owed) && Enabled(s, Merge(t))
    ensures RowsAgree(scope, Next(s, Merge(t)))
            <==> MergeIsHarmless(scope, s, s.tasks[t].id, t, s.tasks[t].update)
  {
    MergeTouchesOne(s, t);
    MergeLosesNothingIff(scope, s, t);
    PendingRowsAgreeIff(scope, s, Next(s, Merge(t)), s.tasks[t].id);
  }

  lemma MergeKeepsIff(scope: Scope, s: State, t: nat)
    requires Inv(scope, s) && Books(s.tasks, s.owed) && Enabled(s, Merge(t))
    ensures Inv(scope, Next(s, Merge(t))) <==> MergeIsHarmless(scope, s, s.tasks[t].id, t, s.tasks[t].update)
  {
    MergeKeepsBatch(scope, s, t);
    MergeAgreesIff(scope, s, t);
  }

  lemma DropLosesNothingIff(scope: Scope, s: State)
    requires Enabled(s, Drop)
    ensures LosesNothing(scope, s, Next(s, Drop), s.phase.batch[|s.phase.batch| - 1].0)
        <==> DropIsHarmless(scope, s, s.phase.batch[|s.phase.batch| - 1].0)
  {
    var id, n := s.phase.batch[|s.phase.batch| - 1].0, Next(s, Drop);
    if id in s.db.providers && !s.db.providers[id].manualDisabled && id in s.pending {
      var row, owed := s.db.providers[id], OwedTo(s, id);
      SeenAllIsSummary(scope, row, owed, s.clock);
      SeenAllIsSummary(scope, ApplyStored(row, s.pending[id]), owed, s.clock);
      MayBeDroppedIff(scope, row, s.pending[id], Summary(owed), s.clock);
    }
  }

  lemma DropKeepsIff(scope: Scope, s: State)
    requires Inv(scope, s) && Enabled(s, Drop)
    ensures Inv(scope, Next(s, Drop)) <==> DropIsHarmless(scope, s, s.phase.batch[|s.phase.batch| - 1].0)
  {
    var n, k := Next(s, Drop), |s.phase.batch| - 1;
    DropLosesNothingIff(scope, s);
    PendingRowsAgreeIff(scope, s, n, s.phase.batch[k].0);
    forall i | 0 <= i < |Batch(n)| ensures Tracked(scope, n, Batch(n)[i]) {
      assert Tracked(scope, s, Batch(s)[i]) && Batch(s)[i].0 != Batch(s)[k].0;
    }
  }

  lemma WrittenBatchIsOkIff(scope: Scope, s: State, id: string, row: Provider)
    requires Inv(scope, s) && Enabled(s, Write(id, row))
    ensures BatchOk(scope, Next(s, Write(id, row))) <==> BatchAbsorbs(scope, s, id, row)
  {
    var n := Next(s, Write(id, row));
    forall i | 0 <= i < |Batch(s)| && Batch(s)[i].0 != id ensures Tracked(scope, n, Batch(n)[i]) {
      assert Tracked(scope, s, Batch(s)[i]);
    }
    forall i | 0 <= i < |Batch(s)| && Batch(s)[i].0 == id
      ensures Tracked(scope, n, Batch(n)[i]) <==>
              && id in s.pending && Overrides(s.pending[id], Batch(s)[i].1)
              && (Flushed(s.phase) ==> AbsorbedBy(scope, row, Batch(s)[i].1, s.clock))
    {
    }
  }

  /** Another row is written: whatever agreed of provider `p` still does. */
  lemma OtherRowStillAgrees(scope: Scope, s: State, id: string, row: Provider, p: string)
    requires Enabled(s, Write(id, row)) && p in s.db.providers && p != id && StoredAgrees(scope, s, p)
    ensures var n := Next(s, Write(id, row));
            && p in n.db.providers && StoredAgrees(scope, n, p)
            && (CacheAgrees(scope, s, p) ==> CacheAgrees(scope, n, p))
  {
  }

  lemma WrittenRowsAgreeIff(scope: Scope, s: State, id: string, row: Provider)
    requires RowsAgree(scope, s) && Enabled(s, Write(id, row))
    ensures RowsAgree(scope, Next(s, Write(id, row))) <==> Alike(scope, Stored(s, id, row), row, s.clock)
  {
    var n := Next(s, Write(id, row));
    forall p | p in n.db.providers && p != id
      ensures StoredAgrees(scope, n, p) && (p !in n.awaiting ==> CacheAgrees(scope, n, p))
    {
      assert StoredAgrees(scope, s, p);
      OtherRowStillAgrees(scope, s, id, row, p);
    }
    assert id in n.db.providers && n.db.providers[id] == row;
    assert StoredAgrees(scope, n, id) <==> Alike(scope, Stored(s, id, row), row, s.clock);
  }

  lemma WriteKeepsTheRest(s: State, id: string, row: Provider)
    requires s.gone !! s.db.providers.Keys && s.gone !! s.ideal.Keys && TasksOk(s.tasks, s.gone)
    requires Enabled(s, Write(id, row))
    ensures var n := Next(s, Write(id, row));
            n.gone !! n.db.providers.Keys && n.gone !! n.ideal.Keys && TasksOk(n.tasks, n.gone)
  {
    assert Next(s, Write(id, row)).db.providers.Keys == s.db.providers.Keys + {id};
  }

  lemma WriteKeepsIff(scope: Scope, s: State, id: string, row: Provider)
    requires Inv(scope, s) && Enabled(s, Write(id, row))
    ensures Inv(scope, Next(s, Write(id, row))) <==> Absorbs(scope, s, id, row)
  {
    WrittenBatchIsOkIff(scope, s, id, row);
    WrittenRowsAgreeIff(scope, s, id, row);
    WriteKeepsTheRest(s, id, row);
  }

  // ----- Every step

  /** The condition is exact: a step keeps the refinement if and only if it is careful. */
  lemma StepKeepsIff(scope: Scope, s: State, step: Step)
    requires Inv(scope, s) && Books(s.tasks, s.owed) && Enabled(s, step)
    ensures Inv(scope, Next(s, step)) <==> Careful(scope, s, step)
  {
    match step
    case Tick(now) => TickKeeps(scope, s, now);
    case StoreObserve(t) => StoreObserveKeepsIff(scope, s, t);
    case Merge(t) => MergeKeepsIff(scope, s, t);
    case Collect(id) => CollectKeeps(scope, s, id);
    case Commit => CommitKeeps(scope, s);
    case Drop => DropKeepsIff(scope, s);
    case StoreRecover => StoreRecoverKeepsIff(scope, s);
    case Install(t) => InstallKeepsIff(scope, s, t);
    case Write(id, row) => WriteKeepsIff(scope, s, id, row);
    case Remove(id) => RemoveKeeps(scope, s, id);
    case StoreForget(t) => StoreForgetKeepsIff(scope, s, t);
    case DropUpdate(t) => DropUpdateKeeps(scope, s, t);
    case LoadObserve(_, _, _) => LoadKeeps(scope, s, step);
    case LoadForget(_, _) => LoadKeeps(scope, s, step);
    case Read(_) => LoadKeeps(scope, s, step);
    case Compare => CompareKeeps(scope, s);
    case LoadRecover => LoadRecoverKeeps(scope, s);
    case _ => BeginKeeps(scope, s, step);
  }

  ghost predicate HoldsThroughout(scope: Scope, s: State, steps: seq<Step>)
    requires IsRun(s, steps)
    decreases |steps|
  {
    Inv(scope, s) && (steps != [] ==> HoldsThroughout(scope, Next(s, steps[0]), steps[1..]))
  }

  ghost predicate CarefulThroughout(scope: Scope, s: State, steps: seq<Step>)
    requires IsRun(s, steps)
    decreases |steps|
  {
    steps != [] ==> Careful(scope, s, steps[0]) && CarefulThroughout(scope, Next(s, steps[0]), steps[1..])
  }

  /** The refinement holds throughout a run if and only if each of its steps is careful. */
  lemma {:induction false} RefinementHoldsIff(scope: Scope, s: State, steps: seq<Step>)
    requires Inv(scope, s) && Books(s.tasks, s.owed) && IsRun(s, steps)
    ensures HoldsThroughout(scope, s, steps) <==> CarefulThroughout(scope, s, steps)
    decreases |steps|
  {
    if steps != [] {
      StepKeepsIff(scope, s, steps[0]);
      BooksKept(s, steps[0]);
      if Careful(scope, s, steps[0]) {
        RefinementHoldsIff(scope, Next(s, steps[0]), steps[1..]);
      }
    }
  }

  // ----- Orderly runs

  /** The row of a provider, as stored, shows everything observed of it. */
  predicate AlreadyStored(scope: Scope, s: State, id: string)
    requires id in s.db.providers
  {
    Alike(scope, s.db.providers[id], Stored(s, id, s.db.providers[id]), s.clock)
  }

  /**
   An order of steps that is careful whatever the rows: no store of the snapshot falls between a task's
   load and its own store, updates of a provider are merged in the order they were stored, none between
   a comparison and the removal, and the snapshot is reloaded from rows that are still current and show
   everything observed.
   */
  ghost predicate Orderly(scope: Scope, s: State, step: Step)
    requires Enabled(s, step)
  {
    match step
    case StoreObserve(t) => s.tasks[t].version == s.version
    case StoreForget(t) => s.tasks[t].version == s.version
    case StoreRecover => s.phase.version == s.version
    case Merge(t) =>
      var owed := OwedTo(s, s.tasks[t].id);
      owed != [] && owed[0] == (t, s.tasks[t].update)
    case Drop =>
      var item := s.phase.batch[|s.phase.batch| - 1];
      item.0 in s.pending && s.pending[item.0] == item.1
    case Install(t) =>
      s.tasks[t].rows == s.db.providers && forall id :: id in s.db.providers ==> AlreadyStored(scope, s, id)
    case Write(id, row) => Absorbs(scope, s, id, row)
    case _ => true
  }

  predicate LoadedNow(s: State, loaded: Rows, version: nat) {
    version <= s.version && (version == s.version ==> loaded == s.cache)
  }

  /** Whoever loaded the present version of the snapshot holds what it contains. */
  ghost predicate Versions(s: State) {
    && (forall t :: t in s.tasks && (s.tasks[t].Observing? || s.tasks[t].Forgetting?) ==>
          LoadedNow(s, s.tasks[t].loaded, s.tasks[t].version))
    && (s.phase.Recovering? ==> LoadedNow(s, s.phase.loaded, s.phase.version))
  }

  predicate Publishes(step: Step) {
    step.StoreObserve? || step.StoreForget? || step.StoreRecover? || step.Install?
  }

  lemma PublishingAgesVersions(s: State, step: Step)
    requires Versions(s) && Enabled(s, step) && Publishes(step)
    ensures Versions(Next(s, step))
  {
    var n := Next(s, step);
    forall t | t in n.tasks && (n.tasks[t].Observing? || n.tasks[t].Forgetting?)
      ensures LoadedNow(n, n.tasks[t].loaded, n.tasks[t].version)
    {
      assert n.tasks[t] == s.tasks[t] && n.version == s.version + 1;
    }
  }

  predicate Loads(step: Step) {
    step.LoadObserve? || step.LoadForget? || step.LoadRecover?
  }

  lemma LoadingSeesTheVersion(s: State, step: Step)
    requires Versions(s) && Enabled(s, step) && Loads(step)
    ensures Versions(Next(s, step))
  {
  }

  lemma UnpublishedVersions(s: State, n: State)
    requires Versions(s) && n.cache == s.cache && n.version == s.version && (n.phase.Recovering? ==> n.phase == s.phase)
    requires forall t :: t in n.tasks && (n.tasks[t].Observing? || n.tasks[t].Forgetting?) ==>
               t in s.tasks && n.tasks[t] == s.tasks[t]
    ensures Versions(n)
  {
  }

  lemma OthersLeaveTheVersion(s: State, step: Step)
    requires Versions(s) && Enabled(s, step) && !Publishes(step) && !Loads(step)
    ensures Versions(Next(s, step))
  {
    UnpublishedVersions(s, Next(s, step));
  }

  lemma VersionsKept(s: State, step: Step)
    requires Versions(s) && Enabled(s, step)
    ensures Versions(Next(s, step))
  {
    if Publishes(step) {
      PublishingAgesVersions(s, step);
    } else if Loads(step) {
      LoadingSeesTheVersion(s, step);
    } else {
      OthersLeaveTheVersion(s, step);
    }
  }

  /** An update that is unchanged since it was flushed may be dropped, whatever is owed. */
  lemma UnmergedDropIsCareful(scope: Scope, s: State)
    requires Inv(scope, s) && Enabled(s, Drop) && Orderly(scope, s, Drop)
    ensures DropIsHarmless(scope, s, s.phase.batch[|s.phase.batch| - 1].0)
  {
    var k := |s.phase.batch| - 1;
    var (id, update) := s.phase.batch[k];
    assert Tracked(scope, s, Batch(s)[k]);
    if id in s.db.providers && !s.db.providers[id].manualDisabled {
      var row, behind := s.db.providers[id], Summary(OwedTo(s, id));
      WrittenStaysAlike(scope, ApplyStored(row, update), row, behind, s.clock);
      MayBeDroppedIff(scope, row, update, behind, s.clock);
    }
  }

  lemma CurrentStoresAreCareful(scope: Scope, s: State, step: Step)
    requires Inv(scope, s) && Versions(s) && Enabled(s, step) && Orderly(scope, s, step)
    requires step.StoreObserve? || step.StoreForget? || step.StoreRecover?
    ensures Careful(scope, s, step)
  {
    forall id | id in s.db.providers && id !in s.awaiting ensures id in s.cache {
      assert CacheAgrees(scope, s, id);
    }
  }

  lemma OrderlyIsCareful(scope: Scope, s: State, step: Step)
    requires Inv(scope, s) && Versions(s) && Enabled(s, step) && Orderly(scope, s, step)
    ensures Careful(scope, s, step)
  {
    match step
    case StoreObserve(_) => CurrentStoresAreCareful(scope, s, step);
    case StoreForget(_) => CurrentStoresAreCareful(scope, s, step);
    case StoreRecover => CurrentStoresAreCareful(scope, s, step);
    case Merge(t) => assert Ahead(OwedTo(s, s.tasks[t].id), t) == [];
    case Drop => UnmergedDropIsCareful(scope, s);
    case _ =>
  }

  ghost predicate OrderlyThroughout(scope: Scope, s: State, steps: seq<Step>)
    requires IsRun(s, steps)
    decreases |steps|
  {
    steps != [] ==> Orderly(scope, s, steps[0]) && OrderlyThroughout(scope, Next(s, steps[0]), steps[1..])
  }

  lemma {:induction false} OrderlyRunsKeep(scope: Scope, s: State, steps: seq<Step>)
    requires Inv(scope, s) && Books(s.tasks, s.owed) && Versions(s) && IsRun(s, steps)
        && OrderlyThroughout(scope, s, steps)
    ensures CarefulThroughout(scope, s, steps) && Inv(scope, After(s, steps))
    decreases |steps|
  {
    if steps != [] {
      OrderlyIsCareful(scope, s, steps[0]);
      StepKeepsIff(scope, s, steps[0]);
      BooksKept(s, steps[0]);
      VersionsKept(s, steps[0]);
      OrderlyRunsKeep(scope, Next(s, steps[0]), steps[1..]);
    }
  }

  /**
   After any orderly run from start-up, for every stored provider, the database with what was observed and
   the row that saw every observation at once and no maintenance are available at exactly the same times
   from then on; and so is the snapshot, unless an operator has just written the row and the reload is outstanding.
   */
  lemma WriteBehindIsInvisible(scope: Scope, s: State, steps: seq<Step>, id: string, time: int)
    requires Initial(s) && IsRun(s, steps) && OrderlyThroughout(scope, s, steps)
    requires id in After(s, steps).db.providers && After(s, steps).clock <= time
    ensures var n := After(s, steps);
            && id in n.ideal
            && (Available(Stored(n, id, n.db.providers[id]), time) <==> Available(n.ideal[id], time))
            && Alike(scope, Stored(n, id, n.db.providers[id]), n.ideal[id], time)
            && (id !in n.awaiting ==>
                  && id in n.cache && Alike(scope, n.cache[id], n.ideal[id], time)
                  && (Available(n.cache[id], time) <==> Available(n.ideal[id], time)))
  {
    OrderlyRunsKeep(scope, s, steps);
    var n := After(s, steps);
    assert StoredAgrees(scope, n, id);
    AlikeIsAvailableAlike(scope, Stored(n, id, n.db.providers[id]), n.ideal[id], n.clock, time);
    if id !in n.awaiting {
      assert CacheAgrees(scope, n, id);
      AlikeIsAvailableAlike(scope, n.cache[id], n.ideal[id], n.clock, time);
    }
  }

  lemma AlikeIsAvailableAlike(scope: Scope, x: Provider, y: Provider, earlier: int, now: int)
    requires earlier <= now && Alike(scope, x, y, earlier)
    ensures Alike(scope, x, y, now) && (Available(x, now) <==> Available(y, now))
  {
    TimePasses(scope, x, y, earlier, now);
    ViewDecidesAvailability(x, now);
    ViewDecidesAvailability(y, now);
  }

  // ----- What has been observed and not stored

  /** Everything pending and owed for a provider, merged into one update. */
  function Told(s: State, id: string): Option<ProviderUpdate> {
    if id in s.pending then Summary([(0, s.pending[id])] + OwedTo(s, id)) else Summary(OwedTo(s, id))
  }

  lemma StoredIsTold(scope: Scope, s: State, id: string, row: Provider)
    ensures Alike(scope, Stored(s, id, row), Written(row, Told(s, id)), s.clock)
  {
    var owed := OwedTo(s, id);
    if id in s.pending {
      var all := [(0, s.pending[id])] + owed;
      assert all[0].1 == s.pending[id] && all[1..] == owed;
      MergedUpdateIsSeenAsBoth(scope, row, s.pending[id], s.pending[id], s.clock);
      AlikeRowsSeeAll(scope, ApplyStored(row, s.pending[id]), ApplyCached(row, s.pending[id]), owed, s.clock);
      SeenAllIsSummary(scope, row, all, s.clock);
    } else {
      SeenAllIsSummary(scope, row, owed, s.clock);
    }
  }

  /** A row already shows what was observed exactly when each thing that was reported last is in it. */
  lemma AlreadyStoredIff(scope: Scope, s: State, id: string)
    requires id in s.db.providers
    ensures AlreadyStored(scope, s, id) <==>
            (Told(s, id).Some? && !s.db.providers[id].manualDisabled ==>
               MayBeDropped(scope, s.db.providers[id], Told(s, id).value, None, s.clock))
  {
    var row := s.db.providers[id];
    StoredIsTold(scope, s, id, row);
    if Told(s, id).Some? && !row.manualDisabled {
      MayBeDroppedIff(scope, row, Told(s, id).value, None, s.clock);
      MergedUpdateIsSeenAsBoth(scope, row, Told(s, id).value, Told(s, id).value, s.clock);
    }
  }

  /** Nothing pending or owed for the provider sets a status. */
  predicate OnlyPlain(s: State, id: string) {
    && (id in s.pending ==> s.pending[id].status.None?)
    && (forall k :: 0 <= k < |OwedTo(s, id)| ==> OwedTo(s, id)[k].1.status.None?)
  }

  lemma {:induction false} PlainLeavesStanding(row: Provider, owed: seq<Owed>, now: int)
    requires forall k :: 0 <= k < |owed| ==> owed[k].1.status.None?
    ensures Alike(Availability, SeenAll(row, owed), row, now)
    decreases |owed|
  {
    if owed != [] {
      PlainLeavesStanding(ApplyCached(row, owed[0].1), owed[1..], now);
    }
  }

  lemma PlainIsAbsorbed(s: State, id: string, row: Provider)
    requires OnlyPlain(s, id)
    ensures Alike(Availability, Stored(s, id, row), row, s.clock)
  {
    PlainLeavesStanding(WithPending(s, id, row), OwedTo(s, id), s.clock);
  }

  /** As far as availability goes, plain responses stand in the way of no operator's write and no reload. */
  lemma PlainResponsesAreNoObstacle(s: State, step: Step)
    requires Inv(Availability, s) && Enabled(s, step)
    requires step.Write? ==> step.id in s.db.providers && OnlyPlain(s, step.id)
    requires step.Install? ==>
               s.tasks[step.task].rows == s.db.providers && forall id :: id in s.db.providers ==> OnlyPlain(s, id)
    requires step.Write? || step.Install?
    ensures Orderly(Availability, s, step)
  {
    if step.Write? {
      PlainIsAbsorbed(s, step.id, step.row);
      forall i | 0 <= i < |Batch(s)| && Batch(s)[i].0 == step.id
        ensures AbsorbedBy(Availability, step.row, Batch(s)[i].1, s.clock)
      {
        assert Tracked(Availability, s, Batch(s)[i]);
      }
      assert forall i :: 0 <= i < |Batch(s)| ==> Tracked(Availability, s, Batch(s)[i]);
    } else {
      forall id | id in s.db.providers ensures AlreadyStored(Availability, s, id) {
        PlainIsAbsorbed(s, id, s.db.providers[id]);
      }
    }
  }

  // ----- Boundaries

  /** A reload of rows just read keeps the refinement exactly when they already show everything observed. */
  lemma ReloadNeedsStoredUpdates(scope: Scope, s: State, t: nat)
    requires Inv(scope, s) && Enabled(s, Install(t)) && s.tasks[t].rows == s.db.providers
    ensures Inv(scope, Next(s, Install(t))) <==> forall id :: id in s.db.providers ==> AlreadyStored(scope, s, id)
  {
    InstallKeepsIff(scope, s, t);
  }

  /**
   Merging two updates of a provider in the other order than they were stored shows on no row, at no time, if
   and only if at most one sets the status or both set the same, and, beyond availability, both report the same
   rate limit, use and error.
   */
  lemma OvertakingIsInvisibleIff(scope: Scope, a: ProviderUpdate, b: ProviderUpdate)
    ensures (forall row, now ::
               Alike(scope, ApplyStored(row, Providers.Merge(b, a)), ApplyStored(row, Providers.Merge(a, b)), now))
            <==> && (a.status.None? || b.status.None? || SameStatus(scope, a, b))
                 && (scope.Everything? ==>
                       && a.rateLimit == b.rateLimit
                       && a.lastUsedAt.Or(b.lastUsedAt) == b.lastUsedAt.Or(a.lastUsedAt))
  {
    var row := FAILED;
    var x, y := ApplyStored(row, Providers.Merge(b, a)), ApplyStored(row, Providers.Merge(a, b));
    var early := Earlier(Earlier(0, x.cooldownUntil), y.cooldownUntil);
    if forall r, now ::
         Alike(scope, ApplyStored(r, Providers.Merge(b, a)), ApplyStored(r, Providers.Merge(a, b)), now)
    {
      assert Alike(scope, x, y, early);
      assert Recover(x, early) == x && Recover(y, early) == y;
    }
  }

  predicate SameStatus(scope: Scope, a: ProviderUpdate, b: ProviderUpdate) {
    a.status == b.status && a.cooldownUntil == b.cooldownUntil && (scope.Everything? ==> a.lastError == b.lastError)
  }

  const FAILED := Provider("", None, "", "", "", None, AuthError, false, None, None, None, None, 0)
  const DISABLED := FAILED.(status := Disabled)

  /** `b` was merged into the pending `a` after `a` had been flushed and found unchanged; then both are dropped. */
  predicate ShowsDropped(scope: Scope, row: Provider, a: ProviderUpdate, b: ProviderUpdate, at: int, now: int) {
    var flushed := Recover(ApplyStored(row, a), at);
    Alike(scope, flushed, ApplyStored(flushed, Providers.Merge(a, b)), now)
  }

  predicate SaysNothingNew(scope: Scope, a: ProviderUpdate, b: ProviderUpdate) {
    && (b.status.None? || SameStatus(scope, a, b))
    && (scope.Everything? ==> b.rateLimit == a.rateLimit && b.lastUsedAt.Or(a.lastUsedAt) == a.lastUsedAt)
  }

  lemma NothingNewIsInvisible(scope: Scope, row: Provider, a: ProviderUpdate, b: ProviderUpdate, at: int, now: int)
    requires at <= now && SaysNothingNew(scope, a, b)
    ensures ShowsDropped(scope, row, a, b, at, now)
  {
    FlushedUpdateIsAbsorbed(scope, row, a, at, now);
  }

  /** A row on which, early enough, a difference shows. */
  lemma SomethingNewShows(scope: Scope, a: ProviderUpdate, b: ProviderUpdate)
    requires !SaysNothingNew(scope, a, b)
    ensures var early := Earlier(Earlier(0, a.cooldownUntil), b.cooldownUntil);
            || !ShowsDropped(scope, FAILED, a, b, early, early)
            || !ShowsDropped(scope, DISABLED, a, b, early, early)
            || !ShowsDropped(scope, FAILED.(lastUsedAt := Differs(b.lastUsedAt)), a, b, early, early)
  {
  }

  /**
   Removing a pending update that was merged into since it was compared shows on no row, at no time, if and only
   if what was merged sets no status or the one flushed, and, beyond availability, reports the same rate limit,
   use and error.
   */
  lemma LateDropIsInvisibleIff(scope: Scope, a: ProviderUpdate, b: ProviderUpdate)
    ensures (forall row, at, now | at <= now :: ShowsDropped(scope, row, a, b, at, now))
        <==> SaysNothingNew(scope, a, b)
  {
    if SaysNothingNew(scope, a, b) {
      forall row, at, now | at <= now ensures ShowsDropped(scope, row, a, b, at, now) {
        NothingNewIsInvisible(scope, row, a, b, at, now);
      }
    } else {
      SomethingNewShows(scope, a, b);
    }
  }

  function Differs(time: Option<int>): (t: Option<int>)
    ensures t != time
  {
    if time.Some? then None else Some(0)
  }

  function Earlier(time: int, until: Option<int>): (t: int)
    ensures t <= time && (until.Some? ==> t < until.value)
  {
    if until.Some? && until.value <= time then until.value - 1 else time
  }
}
