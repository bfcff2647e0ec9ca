/**
 The balancer object itself. Its methods are the operations whose interleavings the machines of
 `WriteBehind`, `Affinities` and `Leases` explore; each is proved to do what the machine's step does.
 */
module Balancer {
  import opened Options
  import opened Providers
  import opened Database
  import W = WriteBehind
  import L = Leases
  import A = Affinities

  // ----- The snapshot as a table

  /** The snapshot by id; the first row counts, as it does for `find`. */
  function Rows(ps: seq<Provider>): map<string, Provider> {
    if ps == [] then map[]
    else
      var n := |ps| - 1;
      var init := Rows(ps[..n]);
      if ps[n].id in init then init else init[ps[n].id := ps[n]]
  }

  lemma RowsAppended(ps: seq<Provider>, p: Provider)
    ensures Rows(ps + [p]) == if p.id in Rows(ps) then Rows(ps) else Rows(ps)[p.id := p]
  {
    assert (ps + [p])[..|ps|] == ps;
  }

  lemma {:induction false} AbsentFromRows(ps: seq<Provider>, id: string)
    requires forall k :: 0 <= k < |ps| ==> ps[k].id != id
    ensures id !in Rows(ps)
  {
    if ps != [] {
      AbsentFromRows(ps[..|ps| - 1], id);
    }
  }

  lemma RowsKept(ps: seq<Provider>, i: nat, kept: seq<Provider>, id: string)
    requires i < |ps| && Rows(kept) == Rows(ps[..i]) - {id}
    ensures Rows(if ps[i].id == id then kept else kept + [ps[i]]) == Rows(ps[..i + 1]) - {id}
  {
    assert ps[..i + 1] == ps[..i] + [ps[i]];
    RowsAppended(ps[..i], ps[i]);
    RowsAppended(kept, ps[i]);
  }

  /** `retain`: the rows of other ids, in their order. */
  function Others(ps: seq<Provider>, id: string): seq<Provider> {
    if ps == [] then []
    else
      var n := |ps| - 1;
      if ps[n].id == id then Others(ps[..n], id) else Others(ps[..n], id) + [ps[n]]
  }

  lemma OthersAppended(ps: seq<Provider>, i: nat, id: string)
    requires i < |ps|
    ensures Others(ps[..i + 1], id) == if ps[i].id == id then Others(ps[..i], id) else Others(ps[..i], id) + [ps[i]]
  {
    assert ps[..i + 1][..i] == ps[..i];
  }

  /** Part by part, so in order: of a single row only another id's is kept. */
  lemma {:induction false} OthersInOrder(a: seq<Provider>, b: seq<Provider>, id: string)
    ensures Others(a + b, id) == Others(a, id) + Others(b, id)
    ensures |a| == 1 ==> Others(a, id) == if a[0].id == id then [] else a
    decreases |b|
  {
    if |a| == 1 {
      assert a[..0] == [] && a == [a[0]];
    }
    if b == [] {
      assert a + b == a;
    } else {
      OthersInOrder(a, b[..|b| - 1], id);
      assert (a + b)[..|a + b| - 1] == a + b[..|b| - 1];
    }
  }

  /** Rewriting the first row of an id. */
  lemma {:induction false} RowsOfUpdate(ps: seq<Provider>, i: nat, row: Provider)
    requires i < |ps| && row.id == ps[i].id && forall k :: 0 <= k < i ==> ps[k].id != row.id
    ensures row.id in Rows(ps) && Rows(ps)[row.id] == ps[i]
    ensures Rows(ps[i := row]) == Rows(ps)[row.id := row]
  {
    var n := |ps| - 1;
    if i == n {
      AbsentFromRows(ps[..n], row.id);
      assert ps[i := row][..n] == ps[..n];
    } else {
      RowsOfUpdate(ps[..n], i, row);
      assert ps[i := row][..n] == ps[..n][i := row];
    }
  }

  lemma {:induction false} RowsRecovered(before: seq<Provider>, after: seq<Provider>, now: int)
    requires |before| == |after| && forall k :: 0 <= k < |before| ==> after[k] == Recover(before[k], now)
    ensures Rows(after) == W.RecoverRows(Rows(before), now)
  {
    if before != [] {
      RowsRecovered(before[..|before| - 1], after[..|after| - 1], now);
    }
  }

  function Ids(ps: seq<Provider>): set<string> {
    set i | 0 <= i < |ps| :: ps[i].id
  }

  // ----- Who may be selected

  datatype Query = Query(userId: string, allProviders: bool, hash: Option<string>, excluded: Option<string>, now: int)

  predicate Permitted(p: Provider, grants: map<string, set<string>>, q: Query) {
    q.allProviders || p.ownerId == Some(q.userId) || (p.id in grants && q.userId in grants[p.id])
  }

  predicate Eligible(p: Provider, grants: map<string, set<string>>, q: Query) {
    Available(p, q.now) && Permitted(p, grants, q) && q.excluded != Some(p.id)
  }

  /** The eligible providers in snapshot order. */
  function EligibleOf(ps: seq<Provider>, grants: map<string, set<string>>, q: Query): seq<Provider> {
    if ps == [] then []
    else
      var n := |ps| - 1;
      var init := EligibleOf(ps[..n], grants, q);
      if Eligible(ps[n], grants, q) then init + [ps[n]] else init
  }

  lemma {:induction false} EligibleOfIsExact(ps: seq<Provider>, grants: map<string, set<string>>, q: Query, p: Provider)
    ensures p in EligibleOf(ps, grants, q) <==>
            && p in ps && Available(p, q.now) && q.excluded != Some(p.id)
            && (q.allProviders || p.ownerId == Some(q.userId) || (p.id in grants && q.userId in grants[p.id]))
  {
    if ps != [] {
      var n := |ps| - 1;
      EligibleOfIsExact(ps[..n], grants, q, p);
      assert ps == ps[..n] + [ps[n]];
    }
  }

  lemma {:induction false} EligibleInOrder(
    a: seq<Provider>, b: seq<Provider>, grants: map<string, set<string>>, q: Query)
    ensures EligibleOf(a + b, grants, q) == EligibleOf(a, grants, q) + EligibleOf(b, grants, q)
    ensures |a| == 1 ==> EligibleOf(a, grants, q) == if Eligible(a[0], grants, q) then a else []
    decreases |b|
  {
    if |a| == 1 {
      assert a[..0] == [] && a == [a[0]];
    }
    if b == [] {
      assert a + b == a;
    } else {
      EligibleInOrder(a, b[..|b| - 1], grants, q);
      assert (a + b)[..|a + b| - 1] == a + b[..|b| - 1];
    }
  }

  function Loads(inflight: map<string, int>, ps: seq<Provider>): (loads: seq<int>)
    ensures |loads| == |ps|
  {
    seq(|ps|, i requires 0 <= i < |ps| => L.Load(inflight, ps[i].id))
  }

  predicate DistinctRows(ps: seq<Provider>) {
    forall i, j :: 0 <= i < j < |ps| ==> ps[i].id != ps[j].id
  }

  /** The counters after a selection without affinity from a fixed eligible list. */
  function Selected(inflight: map<string, int>, ps: seq<Provider>, cursor: nat): map<string, int>
    requires ps != []
  {
    L.Acquired(inflight, ps[L.Pick(Loads(inflight, ps), cursor)].id)
  }

  /** `counters` holds the in-flight counters before and after each selection. */
  ghost predicate IsSelectionRun(counters: seq<map<string, int>>, ps: seq<Provider>, cursors: seq<nat>)
    requires ps != []
  {
    && |counters| == |cursors| + 1
    && forall j :: 0 <= j < |cursors| ==> counters[j + 1] == Selected(counters[j], ps, cursors[j])
  }

  predicate Within(loads: seq<int>, k: int) {
    forall i :: 0 <= i < |loads| ==> 0 <= loads[i] <= k
  }

  lemma AcquiringCountsOne(inflight: map<string, int>, ps: seq<Provider>, i: nat)
    requires DistinctRows(ps) && i < |ps| && 0 <= Loads(inflight, ps)[i] < L.U64_SIZE - 1
    ensures Loads(L.Acquired(inflight, ps[i].id), ps) == Loads(inflight, ps)[i := Loads(inflight, ps)[i] + 1]
  {
    var after := Loads(L.Acquired(inflight, ps[i].id), ps);
    forall j | 0 <= j < |ps| ensures after[j] == if j == i then Loads(inflight, ps)[i] + 1 else Loads(inflight, ps)[j] {
      assert j < i || j == i || i < j;
    }
  }

  lemma SelectionIsAPick(inflight: map<string, int>, ps: seq<Provider>, cursor: nat, k: nat)
    requires ps != [] && DistinctRows(ps) && Within(Loads(inflight, ps), k) && k < L.U64_SIZE - 1
    ensures Loads(Selected(inflight, ps, cursor), ps) == L.Picked(Loads(inflight, ps), cursor)
    ensures Within(L.Picked(Loads(inflight, ps), cursor), k + 1)
  {
    AcquiringCountsOne(inflight, ps, L.Pick(Loads(inflight, ps), cursor));
  }

  lemma OneSelectionMore(inflight: map<string, int>, ps: seq<Provider>, cursor: nat, k: nat)
    requires ps != [] && DistinctRows(ps) && k < L.U64_SIZE - 1
    requires Within(Loads(inflight, ps), k) && L.Even(Loads(inflight, ps), k)
    ensures var after := Loads(Selected(inflight, ps, cursor), ps); Within(after, k + 1) && L.Even(after, k + 1)
  {
    SelectionIsAPick(inflight, ps, cursor, k);
    L.EvenStaysEven(Loads(inflight, ps), k, cursor);
  }

  /**
   From idle counters, `k` selections without affinity leave every provider with its even share, whatever the
   cursor does.
   */
  lemma {:induction false} SelectionsStayEven(
    counters: seq<map<string, int>>, ps: seq<Provider>, cursors: seq<nat>, k: nat)
    requires ps != [] && DistinctRows(ps) && k <= |cursors| < L.U64_SIZE
    requires IsSelectionRun(counters, ps, cursors) && Within(Loads(counters[0], ps), 0)
    ensures Within(Loads(counters[k], ps), k) && L.Even(Loads(counters[k], ps), k)
  {
    if k == 0 {
      L.EvenAtZero(Loads(counters[0], ps));
    } else {
      SelectionsStayEven(counters, ps, cursors, k - 1);
      OneSelectionMore(counters[k - 1], ps, cursors[k - 1], k - 1);
      assert counters[k - 1 + 1] == Selected(counters[k - 1], ps, cursors[k - 1]);
    }
  }

  /** The id `select` settles on among the eligible providers. */
  function ChosenId(eligible: seq<Provider>, inflight: map<string, int>, cursor: nat, affinities: map<string, A.Entry>,
                    hash: Option<string>, now: int): string
    requires eligible != []
  {
    var least := eligible[L.Pick(Loads(inflight, eligible), cursor)].id;
    if hash.Some? then A.Choice(affinities, now, hash.value, Ids(eligible), least) else least
  }

  datatype Lease = Lease(provider: Provider, accessToken: string, refreshToken: string)

  class Balancer {
    var inflight: map<string, int>
    var cursor: nat
    var providers: seq<Provider>
    var grants: map<string, set<string>>
    var affinities: map<string, A.Entry>
    var dirty: set<string>
    var updates: map<string, ProviderUpdate>

    constructor ()
      ensures inflight == map[] && cursor == 0 && providers == [] && grants == map[]
      ensures affinities == map[] && dirty == {} && updates == map[]
    {
      inflight, cursor, providers, grants := map[], 0, [], map[];
      affinities, dirty, updates := map[], {}, map[];
    }

    // ----- Selection

    method FirstLeastFrom(ps: seq<Provider>, start: nat) returns (best: nat)
      requires start < |ps|
      ensures best == L.At(start, L.FirstLeast(Loads(inflight, ps), start, |ps|), |ps|)
    {
      ghost var loads := Loads(inflight, ps);
      best := start;
      var next := start;
      for k := 1 to |ps|
        invariant best == L.At(start, L.FirstLeast(loads, start, k), |ps|) && next == L.At(start, k - 1, |ps|)
      {
        next := if next + 1 < |ps| then next + 1 else 0;
        if L.Load(inflight, ps[next].id) < L.Load(inflight, ps[best].id) {
          best := next;
        }
      }
    }

    method LeastInflight(ps: seq<Provider>) returns (p: Provider)
      requires ps != []
      modifies `cursor
      ensures p == ps[L.Pick(Loads(inflight, ps), old(cursor))] && cursor == L.Wrap(old(cursor) + 1)
    {
      var best := FirstLeastFrom(ps, cursor % |ps|);
      cursor := L.Wrap(cursor + 1);
      p := ps[best];
    }

    method EligibleProviders(q: Query) returns (eligible: seq<Provider>)
      ensures eligible == EligibleOf(providers, grants, q)
    {
      eligible := [];
      for i := 0 to |providers|
        invariant eligible == EligibleOf(providers[..i], grants, q)
      {
        assert providers[..i + 1][..i] == providers[..i];
        if Eligible(providers[i], grants, q) {
          eligible := eligible + [providers[i]];
        }
      }
      assert providers[..|providers|] == providers;
    }

    method AffinityProvider(hash: string, eligible: seq<Provider>, now: int) returns (p: Option<Provider>)
      ensures p.Some? ==> p.value in eligible
      ensures forall fallback ::
                A.Choice(affinities, now, hash, Ids(eligible), fallback) == if p.Some? then p.value.id else fallback
    {
      if hash !in affinities || affinities[hash].expiresAt <= now {
        return None;
      }
      var wanted := affinities[hash].providerId;
      for i := 0 to |eligible|
        invariant forall k :: 0 <= k < i ==> eligible[k].id != wanted
      {
        if eligible[i].id == wanted {
          return Some(eligible[i]);
        }
      }
      p := None;
    }

    method RememberAffinity(hash: string, id: string, now: int, ttl: int)
      modifies `affinities, `dirty
      ensures affinities == old(affinities)[hash := A.Entry(id, now + ttl, now)] && dirty == old(dirty) + {hash}
    {
      affinities := affinities[hash := A.Entry(id, now + ttl, now)];
      dirty := dirty + {hash};
    }

    /** The remembered provider if it is eligible and not expired, else the least loaded. */
    method Choose(eligible: seq<Provider>, hash: Option<string>, now: int) returns (p: Provider)
      requires eligible != []
      modifies `cursor
      ensures p in eligible
      ensures p.id == ChosenId(eligible, inflight, old(cursor), affinities, hash, now)
    {
      var remembered: Option<Provider> := None;
      if hash.Some? {
        remembered := AffinityProvider(hash.value, eligible, now);
      }
      if remembered.Some? {
        p := remembered.value;
      } else {
        p := LeastInflight(eligible);
      }
    }

    /**
     Fails exactly when nobody is eligible, and then changes nothing. Otherwise it leases the chosen
     provider, counts the lease and remembers the choice.
     */
    method Select(q: Query, ttl: int) returns (lease: Option<Lease>)
      modifies `inflight, `cursor, `affinities, `dirty
      ensures lease.None? <==> EligibleOf(providers, grants, q) == []
      ensures lease.None? ==> inflight == old(inflight) && cursor == old(cursor)
      ensures lease.Some? ==>
                var p, eligible := lease.value.provider, EligibleOf(providers, grants, q);
                && p in eligible && lease.value == Lease(p, p.accessToken, p.refreshToken)
                && p in providers && Available(p, q.now) && q.excluded != Some(p.id)
                && (q.allProviders || p.ownerId == Some(q.userId) || (p.id in grants && q.userId in grants[p.id]))
                && inflight == L.Acquired(old(inflight), p.id)
                && p.id == ChosenId(eligible, old(inflight), old(cursor), old(affinities), q.hash, q.now)
      ensures if lease.Some? && q.hash.Some?
              then affinities == old(affinities)[q.hash.value := A.Entry(lease.value.provider.id, q.now + ttl, q.now)]
                   && dirty == old(dirty) + {q.hash.value}
              else affinities == old(affinities) && dirty == old(dirty)
    {
      var eligible := EligibleProviders(q);
      if eligible == [] {
        return None;
      }
      var p := Choose(eligible, q.hash, q.now);
      EligibleOfIsExact(providers, grants, q, p);
      if q.hash.Some? {
        RememberAffinity(q.hash.value, p.id, q.now, ttl);
      }
      inflight := inflight[p.id := L.Wrap((if p.id in inflight then inflight[p.id] else 0) + 1)];
      lease := Some(Lease(p, p.accessToken, p.refreshToken));
    }

    /** `Lease::drop`. */
    method DropLease(id: string)
      modifies `inflight
      ensures inflight == L.Released(old(inflight), id)
    {
      if id in inflight {
        inflight := inflight[id := L.Wrap(inflight[id] - 1)];
      }
    }

    // ----- The snapshot

    /** The store of `forget_provider`, of a snapshot loaded at some time before. */
    method StoreForgotten(loaded: seq<Provider>, id: string)
      modifies `providers
      ensures providers == Others(loaded, id) && Rows(providers) == Rows(loaded) - {id}
    {
      var kept := [];
      for i := 0 to |loaded|
        invariant kept == Others(loaded[..i], id) && Rows(kept) == Rows(loaded[..i]) - {id}
      {
        RowsKept(loaded, i, kept, id);
        OthersAppended(loaded, i, id);
        if loaded[i].id != id {
          kept := kept + [loaded[i]];
        }
      }
      assert loaded[..|loaded|] == loaded;
      providers := kept;
    }

    /** Undisturbed; the second look at the cache, which then finds nothing, is a step of `Affinities`. */
    method ForgetAffinities(id: string)
      modifies `affinities, `dirty
      ensures affinities == map h | h in old(affinities) && old(affinities)[h].providerId != id :: old(affinities)[h]
      ensures dirty == set h | h in old(dirty) && !(h in old(affinities) && old(affinities)[h].providerId == id)
    {
      var hashes := set h | h in affinities && affinities[h].providerId == id;
      while hashes != {}
        invariant forall h :: h in hashes ==> h in affinities && affinities[h].providerId == id
        invariant forall h ::
                    h in affinities <==> h in old(affinities) && (old(affinities)[h].providerId != id || h in hashes)
        invariant forall h :: h in affinities ==> affinities[h] == old(affinities)[h]
        invariant forall h ::
                    h in dirty <==>
                      && h in old(dirty)
                      && (h in old(affinities) ==> old(affinities)[h].providerId != id || h in hashes)
        decreases |hashes|
      {
        var hash :| hash in hashes;
        hashes := hashes - {hash};
        if affinities[hash].providerId == id {
          affinities := affinities - {hash};
          dirty := dirty - {hash};
        }
      }
    }

    method ForgetProvider(id: string)
      modifies `providers, `inflight, `updates, `grants, `affinities, `dirty
      ensures providers == Others(old(providers), id) && Rows(providers) == old(Rows(providers)) - {id}
      ensures inflight == old(inflight) - {id} && updates == old(updates) - {id} && grants == old(grants) - {id}
      ensures affinities == map h | h in old(affinities) && old(affinities)[h].providerId != id :: old(affinities)[h]
      ensures dirty == set h | h in old(dirty) && !(h in old(affinities) && old(affinities)[h].providerId == id)
    {
      StoreForgotten(providers, id);
      inflight := inflight - {id};
      updates := updates - {id};
      grants := grants - {id};
      ForgetAffinities(id);
    }

    /** The store of `observe`, of a snapshot loaded at some time before. */
    method StoreObserved(loaded: seq<Provider>, id: string, update: ProviderUpdate)
      modifies `providers
      ensures Rows(providers) == W.ObserveRow(Rows(loaded), id, update)
      ensures |providers| == |loaded| && forall k :: 0 <= k < |loaded| ==> providers[k].id == loaded[k].id
    {
      var rows, i := loaded, 0;
      while i < |rows| && rows[i].id != id
        invariant i <= |rows| && forall k :: 0 <= k < i ==> rows[k].id != id
      {
        i := i + 1;
      }
      if i < |rows| {
        var row := rows[i];
        if !row.manualDisabled && update.status.Some? {
          row := row.(status := update.status.value, cooldownUntil := update.cooldownUntil,
              lastError := update.lastError);
        }
        row := row.(rateLimit := Some(update.rateLimit), updatedAt := update.updatedAt,
                    lastUsedAt := if update.lastUsedAt.Some? then update.lastUsedAt else row.lastUsedAt);
        RowsOfUpdate(rows, i, row);
        rows := rows[i := row];
      } else {
        AbsentFromRows(rows, id);
      }
      providers := rows;
    }

    method MergePending(id: string, update: ProviderUpdate)
      modifies `updates
      ensures updates == W.ObservePending(old(updates), id, update)
    {
      updates := updates[id := if id in updates then Merge(updates[id], update) else update];
    }

    /** Undisturbed; in `WriteBehind` load, store and merge are three steps. */
    method Observe(id: string, update: ProviderUpdate)
      modifies `providers, `updates
      ensures Rows(providers) == W.ObserveRow(old(Rows(providers)), id, update)
      ensures updates == W.ObservePending(old(updates), id, update)
      ensures |providers| == |old(providers)|
      ensures forall k :: 0 <= k < |providers| ==> providers[k].id == old(providers)[k].id
    {
      StoreObserved(providers, id, update);
      MergePending(id, update);
    }

    /** The store of `recover_cached_providers`, of a snapshot loaded at some time before. */
    method StoreRecovered(loaded: seq<Provider>, now: int)
      modifies `providers
      ensures |providers| == |loaded| && forall k :: 0 <= k < |loaded| ==> providers[k] == Recover(loaded[k], now)
      ensures Rows(providers) == W.RecoverRows(Rows(loaded), now)
    {
      var rows := loaded;
      for i := 0 to |loaded|
        invariant |rows| == |loaded|
        invariant forall k :: 0 <= k < |loaded| ==> rows[k] == if k < i then Recover(loaded[k], now) else loaded[k]
      {
        var row := rows[i];
        if !row.manualDisabled && row.status == Cooldown && row.cooldownUntil.Some? && row.cooldownUntil.value <= now {
          rows := rows[i := row.(status := Active, cooldownUntil := None, lastError := None, updatedAt := now)];
        }
      }
      RowsRecovered(loaded, rows, now);
      providers := rows;
    }

    // ----- Maintenance

    /** The pending updates, in whatever order the map yields them. */
    method CollectUpdates() returns (items: seq<Pending>)
      ensures DistinctIds(items)
      ensures forall i :: 0 <= i < |items| ==> items[i].0 in updates && items[i].1 == updates[items[i].0]
      ensures forall id :: id in updates ==> Names(items, id)
    {
      items := [];
      var rest := updates.Keys;
      while rest != {}
        invariant rest <= updates.Keys && DistinctIds(items)
        invariant forall i :: 0 <= i < |items| ==>
            items[i].0 in updates && items[i].0 !in rest && items[i].1 == updates[items[i].0]
        invariant forall id :: id in updates && id !in rest ==> Names(items, id)
        decreases |rest|
      {
        var id :| id in rest;
        ghost var before := items;
        rest, items := rest - {id}, items + [(id, updates[id])];
        forall p | p in updates && p !in rest ensures Names(items, p) {
          if p == id {
            assert items[|before|].0 == p;
          } else {
            var i :| 0 <= i < |before| && before[i].0 == p;
            assert items[i].0 == p;
          }
        }
      }
    }

    method CollectAffinities() returns (snapshot: map<string, A.Entry>)
      ensures snapshot == map h | h in dirty && h in affinities :: affinities[h]
    {
      snapshot := map[];
      var rest := dirty;
      while rest != {}
        invariant rest <= dirty
        invariant snapshot == map h | h in dirty - rest && h in affinities :: affinities[h]
        decreases |rest|
      {
        var hash :| hash in rest;
        rest := rest - {hash};
        if hash in affinities {
          snapshot := snapshot[hash := affinities[hash]];
        }
      }
    }

    /** Updates that did not change since they were collected are no longer pending. */
    method SettleUpdates(items: seq<Pending>)
      modifies `updates
      ensures updates == map id | id in old(updates) && (id, old(updates)[id]) !in items :: old(updates)[id]
    {
      for i := 0 to |items|
        invariant updates == map id | id in old(updates) && (id, old(updates)[id]) !in items[..i] :: old(updates)[id]
      {
        assert items[..i + 1] == items[..i] + [items[i]];
        var (id, update) := items[i];
        if id in updates && updates[id] == update {
          updates := updates - {id};
        }
      }
      assert items[..|items|] == items;
    }

    /** Entries that did not change are clean, or gone when their provider's row was missing. */
    method SettleAffinities(snapshot: map<string, A.Entry>, known: set<string>)
      modifies `affinities, `dirty
      ensures affinities == map h | h in old(affinities)
          && !(Settled(snapshot, old(affinities), h) && snapshot[h].providerId !in known) :: old(affinities)[h]
      ensures dirty == set h | h in old(dirty) && !Settled(snapshot, old(affinities), h)
    {
      var rest := snapshot.Keys;
      while rest != {}
        invariant rest <= snapshot.Keys
        invariant forall h ::
                    h in affinities <==>
                    && h in old(affinities)
                    && !(h !in rest && Settled(snapshot, old(affinities), h) && snapshot[h].providerId !in known)
        invariant forall h :: h in affinities ==> affinities[h] == old(affinities)[h]
        invariant forall h :: h in dirty <==> h in old(dirty) && !(h !in rest && Settled(snapshot, old(affinities), h))
        decreases |rest|
      {
        var hash :| hash in rest;
        rest := rest - {hash};
        if hash in affinities && affinities[hash] == snapshot[hash] {
          if snapshot[hash].providerId !in known {
            affinities := affinities - {hash};
          }
          dirty := dirty - {hash};
        }
      }
    }

    method ExpireAffinities(now: int)
      modifies `affinities
      ensures affinities == map h | h in old(affinities) && now < old(affinities)[h].expiresAt :: old(affinities)[h]
    {
      affinities := map h | h in affinities && now < affinities[h].expiresAt :: affinities[h];
    }

    method FinishAffinities(snapshot: map<string, A.Entry>, known: set<string>, now: int)
      requires snapshot == map h | h in dirty && h in affinities :: affinities[h]
      modifies `affinities, `dirty
      ensures affinities == KeptAffinities(old(affinities), old(dirty), known, now)
          && dirty == old(dirty) - old(affinities).Keys
    {
      SettleAffinities(snapshot, known);
      ExpireAffinities(now);
    }

    /**
     A maintenance pass that nobody disturbs: it stores every pending update, merged into its own row
     and no other, recovers expired cooldowns in database and snapshot alike, and leaves nothing pending
     and no entry dirty. If the transaction aborts, nothing changes at all.
     */
    method Maintain(db: Db, stored: map<string, A.Entry>, now: int) returns (done: Option<(Db, map<string, A.Entry>)>)
      modifies `providers, `updates, `affinities, `dirty
      ensures done.None? ==>
          providers == old(providers) && updates == old(updates) && affinities == old(affinities) && dirty == old(dirty)
      ensures done.Some? ==>
                && updates == map[] && dirty == old(dirty) - old(affinities).Keys
                && affinities == KeptAffinities(old(affinities), old(dirty), db.providers.Keys, now)
                && Rows(providers) == W.RecoverRows(old(Rows(providers)), now)
                && done.value.0.providers == MaintainedRows(db.providers, old(updates), now)
                && done.value.1 == A.Persist(stored, map h | h in old(dirty) && h in old(affinities) ::
                    old(affinities)[h], db.providers.Keys, now)
    {
      var items := CollectUpdates();
      var snapshot := CollectAffinities();
      var flushed := FlushUpdates(db, items, now);
      if flushed.None? {
        return None;
      }
      FlushStores(db, items, updates, now);
      AllCollected(items, updates);
      SettleUpdates(items);
      FinishAffinities(snapshot, db.providers.Keys, now);
      StoreRecovered(providers, now);
      done := Some((flushed.value, A.Persist(stored, snapshot, db.providers.Keys, now)));
    }
  }

  lemma AllCollected(items: seq<Pending>, updates: map<string, ProviderUpdate>)
    requires forall i :: 0 <= i < |items| ==> items[i].0 in updates && items[i].1 == updates[items[i].0]
    requires forall id :: id in updates ==> Names(items, id)
    ensures forall id :: id in updates ==> (id, updates[id]) in items
  {
    forall id | id in updates ensures (id, updates[id]) in items {
      var i :| 0 <= i < |items| && items[i].0 == id;
      assert items[i] == (id, updates[id]);
    }
  }

  /** Unexpired entries, without the dirty ones whose provider's row is missing. */
  function KeptAffinities(affinities: map<string, A.Entry>, dirty: set<string>, known: set<string>,
      now: int): map<string, A.Entry> {
    map h | h in affinities && now < affinities[h].expiresAt && (h in dirty ==> affinities[h].providerId in known) ::
        affinities[h]
  }

  predicate Settled(snapshot: map<string, A.Entry>, affinities: map<string, A.Entry>, hash: string) {
    hash in snapshot && hash in affinities && affinities[hash] == snapshot[hash]
  }

  /** Every stored row with its pending update applied and an expired cooldown recovered. */
  function MaintainedRows(rows: map<string, Provider>, updates: map<string, ProviderUpdate>, now: int)
    : map<string, Provider>
  {
    map id | id in rows :: Recover(if id in updates then ApplyStored(rows[id], updates[id]) else rows[id], now)
  }

  /** Whatever the order in which updates are collected, a committed flush stores each into its row. */
  lemma FlushStores(db: Db, items: seq<Pending>, updates: map<string, ProviderUpdate>, now: int)
    requires DistinctIds(items) && Flush(db, items, now).Some?
    requires forall i :: 0 <= i < |items| ==> items[i].0 in updates && items[i].1 == updates[items[i].0]
    requires forall id :: id in updates ==> Names(items, id)
    ensures Flush(db, items, now).value.providers == MaintainedRows(db.providers, updates, now)
  {
    FlushAllRows(db, items);
    var flushed := FlushAll(db, items).value;
    forall id | id in db.providers
      ensures flushed.providers[id] ==
              if id in updates then ApplyStored(db.providers[id], updates[id]) else db.providers[id]
    {
      if id in updates {
        assert Names(items, id);
      }
    }
  }

  lemma {:induction false} FlushStopsAtAbort(db: Db, items: seq<Pending>, k: nat)
    requires k <= |items| && FlushAll(db, items[..k]).None?
    ensures FlushAll(db, items).None?
    decreases |items|
  {
    if k == |items| {
      assert items[..k] == items;
    } else {
      var init := items[..|items| - 1];
      assert init[..k] == items[..k];
      FlushStopsAtAbort(db, init, k);
    }
  }

  /** The statements of the transaction in turn; the first that fails aborts it. */
  method FlushUpdates(db: Db, items: seq<Pending>, now: int) returns (flushed: Option<Db>)
    ensures flushed == Flush(db, items, now)
  {
    var work := db;
    for i := 0 to |items|
      invariant FlushAll(db, items[..i]) == Some(work)
    {
      assert items[..i + 1][..i] == items[..i];
      var next := FlushOne(work, items[i]);
      if next.None? {
        FlushStopsAtAbort(db, items, i + 1);
        return None;
      }
      work := next.value;
    }
    assert items[..|items|] == items;
    flushed := Some(RecoverAll(work, now));
  }
}
