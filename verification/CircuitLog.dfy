/**
 The circuit log follows provider status: whatever transactions run, in whatever order, a provider
 is cooling down exactly while it has one open event.
 */
module CircuitLog {
  import opened Options
  import opened Providers
  import opened Database

  // ----- The invariant, provider by provider

  ghost predicate NoneOpen(events: map<string, Event>, id: string) {
    forall e :: e in events ==> !IsOpen(events[e], id)
  }

  ghost predicate SoleOpen(events: map<string, Event>, id: string, e: string) {
    && e in events && IsOpen(events[e], id)
    && forall f :: f in events && IsOpen(events[f], id) ==> f == e
  }

  predicate Covers(event: Event, until: Option<int>) {
    until.Some? && until.value <= event.cooldownUntil
  }

  /** Cooling down means exactly one open event, lasting at least as long as the cooldown; otherwise there is none. */
  ghost predicate InStepAt(db: Db, id: string)
    requires id in db.providers
  {
    var row := db.providers[id];
    && (row.manualDisabled ==> row.status != Cooldown)
    && (row.status != Cooldown ==> NoneOpen(db.events, id))
    && (row.status == Cooldown ==> exists e :: SoleOpen(db.events, id, e) && Covers(db.events[e], row.cooldownUntil))
  }

  ghost predicate InStep(db: Db) {
    && (forall e :: e in db.events ==> db.events[e].providerId in db.providers)
    && (forall id :: id in db.providers ==> InStepAt(db, id))
  }

  /** History: closed events are frozen, and an event only disappears together with its provider. */
  ghost predicate KeepsHistory(before: Db, after: Db) {
    forall e :: e in before.events && before.events[e].providerId in after.providers ==>
      e in after.events && Continues(before.events[e], after.events[e])
  }

  predicate Continues(before: Event, after: Event) {
    && after.providerId == before.providerId
    && after.openedAt == before.openedAt
    && (before.closedAt.Some? ==> after == before)
  }

  ghost predicate WellFormed(tx: Transaction) {
    match tx
    case Maintain(items, _) => forall i :: 0 <= i < |items| ==> Coherent(items[i].1)
    case Insert(row) => row.status == Active
    case _ => true
  }

  // ----- Frames

  /** A statement about provider `id`: other rows and other providers' events are untouched. */
  ghost predicate OnlyAbout(id: string, before: Db, after: Db) {
    && before.providers.Keys == after.providers.Keys
    && (forall p :: p in before.providers && p != id ==> after.providers[p] == before.providers[p])
    && (forall e :: e in before.events && before.events[e].providerId != id ==>
        e in after.events && after.events[e] == before.events[e])
    && (forall e :: e in after.events && after.events[e].providerId != id ==>
        e in before.events && after.events[e] == before.events[e])
  }

  lemma OthersStayInStep(id: string, p: string, before: Db, after: Db)
    requires OnlyAbout(id, before, after) && p != id && p in before.providers && InStepAt(before, p)
    ensures InStepAt(after, p)
  {
    if before.providers[p].status == Cooldown {
      var e :| SoleOpen(before.events, p, e) && Covers(before.events[e], before.providers[p].cooldownUntil);
      assert SoleOpen(after.events, p, e);
    }
  }

  lemma StatementKeepsStep(id: string, before: Db, after: Db)
    requires InStep(before) && OnlyAbout(id, before, after)
    requires id in after.providers && InStepAt(after, id)
    ensures InStep(after)
  {
    forall p | p in after.providers ensures InStepAt(after, p) {
      if p != id { OthersStayInStep(id, p, before, after); }
    }
    forall e | e in after.events ensures after.events[e].providerId in after.providers {
    }
  }

  // ----- One statement at a time

  /**
   The open event names the latest cause; one that was open before ends no earlier, a new one is the circuit's
   own.
   */
  ghost predicate Recorded(db: Db, id: string, circuit: CircuitOpen, e: string, event: Event) {
    && event.cause == circuit.cause && event.rateLimit == circuit.rateLimit
    && circuit.cooldownUntil <= event.cooldownUntil
    && (if SoleOpen(db.events, id, e)
        then event.openedAt == db.events[e].openedAt
             && event.cooldownUntil in {db.events[e].cooldownUntil, circuit.cooldownUntil}
             && db.events[e].cooldownUntil <= event.cooldownUntil
        else NoneOpen(db.events, id) && e == circuit.id && event.openedAt == circuit.openedAt
             && event.cooldownUntil == circuit.cooldownUntil)
  }

  lemma RecordingOpensOne(db: Db, id: string, circuit: CircuitOpen)
    requires InStep(db) && id in db.providers && !db.providers[id].manualDisabled
    requires RecordCircuit(db, id, circuit).Some?
    ensures var r := RecordCircuit(db, id, circuit).value;
            && r.providers == db.providers && OnlyAbout(id, db, r) && KeepsHistory(db, r)
            && exists e :: SoleOpen(r.events, id, e) && Recorded(db, id, circuit, e, r.events[e])
  {
    var r := RecordCircuit(db, id, circuit).value;
    assert InStepAt(db, id);
    if HasOpen(db.events, id) {
      var e :| e in db.events && IsOpen(db.events[e], id);
      assert SoleOpen(r.events, id, e);
    } else {
      assert SoleOpen(r.events, id, circuit.id);
    }
  }

  /**
   Assigning `status` keeps the log in step: leaving cooldown closes the event, entering it needs an
   event that covers it.
   */
  lemma StatusWriteKeepsStep(start: Db, db: Db, id: string, row: Provider, e: string)
    requires InStep(start) && id in db.providers
    requires start.providers == db.providers && OnlyAbout(id, start, db) && KeepsHistory(start, db)
    requires row.manualDisabled ==> row.status != Cooldown
    requires if row.status == Cooldown
             then SoleOpen(db.events, id, e) && Covers(db.events[e], row.cooldownUntil)
             else db == start
    ensures InStep(UpdateStatus(db, id, row)) && KeepsHistory(start, UpdateStatus(db, id, row))
  {
    var r := UpdateStatus(db, id, row);
    assert InStepAt(start, id);
    if row.status == Cooldown {
      assert SoleOpen(r.events, id, e);
    }
    assert OnlyAbout(id, start, r);
    StatementKeepsStep(id, start, r);
  }

  lemma LeavingCooldownKeepsStep(db: Db, id: string, row: Provider)
    requires InStep(db) && id in db.providers && row.status != Cooldown
    ensures InStep(UpdateStatus(db, id, row)) && KeepsHistory(db, UpdateStatus(db, id, row))
  {
    StatusWriteKeepsStep(db, db, id, row, "");
  }

  lemma FlushOneKeepsStep(db: Db, item: Pending)
    requires InStep(db) && Coherent(item.1) && FlushOne(db, item).Some?
    ensures InStep(FlushOne(db, item).value) && KeepsHistory(db, FlushOne(db, item).value)
    ensures FlushOne(db, item).value.providers.Keys == db.providers.Keys
  {
    var (id, update) := item;
    if id in db.providers {
      var row := ApplyStored(db.providers[id], update);
      assert InStepAt(db, id);
      if row.status != Cooldown {
        LeavingCooldownKeepsStep(db, id, row);
      } else if update.circuit.Some? {
        RecordingOpensOne(db, id, update.circuit.value);
        var r := RecordCircuit(db, id, update.circuit.value).value;
        var e :| SoleOpen(r.events, id, e) && update.circuit.value.cooldownUntil <= r.events[e].cooldownUntil;
        StatusWriteKeepsStep(db, r, id, row, e);
      } else {
        var e :| SoleOpen(db.events, id, e) && Covers(db.events[e], db.providers[id].cooldownUntil);
        StatusWriteKeepsStep(db, db, id, row, e);
      }
    }
  }

  lemma HistoryIsTransitive(a: Db, b: Db, c: Db)
    requires KeepsHistory(a, b) && KeepsHistory(b, c) && c.providers.Keys <= b.providers.Keys
    ensures KeepsHistory(a, c)
  {
  }

  lemma {:induction false} FlushAllKeepsStep(db: Db, items: seq<Pending>)
    requires InStep(db) && (forall i :: 0 <= i < |items| ==> Coherent(items[i].1)) && FlushAll(db, items).Some?
    ensures InStep(FlushAll(db, items).value) && KeepsHistory(db, FlushAll(db, items).value)
    ensures FlushAll(db, items).value.providers.Keys == db.providers.Keys
  {
    if items != [] {
      var earlier := FlushAll(db, items[..|items| - 1]);
      FlushAllKeepsStep(db, items[..|items| - 1]);
      FlushOneKeepsStep(earlier.value, items[|items| - 1]);
      HistoryIsTransitive(db, earlier.value, FlushAll(db, items).value);
    }
  }

  lemma RecoveryKeepsStep(db: Db, now: int)
    requires InStep(db)
    ensures InStep(RecoverAll(db, now)) && KeepsHistory(db, RecoverAll(db, now))
  {
    var r := RecoverAll(db, now);
    forall p | p in r.providers ensures InStepAt(r, p) {
      assert InStepAt(db, p);
      if r.providers[p].status == Cooldown {
        var e :| SoleOpen(db.events, p, e) && Covers(db.events[e], db.providers[p].cooldownUntil);
        assert SoleOpen(r.events, p, e);
      }
    }
  }

  lemma DeleteKeepsStep(db: Db, id: string)
    requires InStep(db)
    ensures InStep(Execute(db, Delete(id))) && KeepsHistory(db, Execute(db, Delete(id)))
  {
    var r := Execute(db, Delete(id));
    forall p | p in r.providers ensures InStepAt(r, p) {
      assert InStepAt(db, p);
      if r.providers[p].status == Cooldown {
        var e :| SoleOpen(db.events, p, e) && Covers(db.events[e], db.providers[p].cooldownUntil);
        assert SoleOpen(r.events, p, e);
      }
    }
  }

  lemma InsertKeepsStep(db: Db, row: Provider)
    requires InStep(db) && row.status == Active
    ensures InStep(Execute(db, Insert(row))) && KeepsHistory(db, Execute(db, Insert(row)))
  {
    var r := Execute(db, Insert(row));
    forall p | p in r.providers ensures InStepAt(r, p) {
      if p in db.providers {
        assert InStepAt(db, p);
        if r.providers[p].status == Cooldown {
          var e :| SoleOpen(db.events, p, e) && Covers(db.events[e], db.providers[p].cooldownUntil);
          assert SoleOpen(r.events, p, e);
        }
      }
    }
  }

  // ----- Whole transactions and whole runs

  /** Every transaction, of the balancer, of a refresh or of an operator, keeps the log in step. */
  lemma TransactionKeepsStep(db: Db, tx: Transaction)
    requires InStep(db) && WellFormed(tx)
    ensures InStep(Execute(db, tx)) && KeepsHistory(db, Execute(db, tx))
  {
    match tx
    case Maintain(items, at) =>
      if FlushAll(db, items).Some? {
        FlushAllKeepsStep(db, items);
        RecoveryKeepsStep(FlushAll(db, items).value, at);
        HistoryIsTransitive(db, FlushAll(db, items).value, Execute(db, tx));
      }
    case Delete(id) => DeleteKeepsStep(db, id);
    case Insert(row) => InsertKeepsStep(db, row);
    case ProxyRefreshed(id, used, issued, at) =>
      if Matches(db, id, used) { LeavingCooldownKeepsStep(db, id, ProxyRefreshedRow(db.providers[id], issued, at)); }
    case ProxyRefused(id, used, at) =>
      if Matches(db, id, used) { LeavingCooldownKeepsStep(db, id, ProxyRefusedRow(db.providers[id], at)); }
    case ConsoleRefreshed(id, used, issued, at) =>
      if Matches(db, id, used) { LeavingCooldownKeepsStep(db, id, ConsoleCredentialRow(db.providers[id], issued, at)); }
    case ReplaceTokens(id, issued, at) =>
      if id in db.providers { LeavingCooldownKeepsStep(db, id, ConsoleCredentialRow(db.providers[id], issued, at)); }
    case SetEnabled(id, enabled, at) =>
      if id in db.providers { LeavingCooldownKeepsStep(db, id, EnabledRow(db.providers[id], enabled, at)); }
  }

  function ExecuteAll(db: Db, txs: seq<Transaction>): Db {
    if txs == [] then db else Execute(ExecuteAll(db, txs[..|txs| - 1]), txs[|txs| - 1])
  }

  /**
   Over any run the log stays in step, and an event closed at its start reads the same at its end unless its
   provider was deleted.
   */
  lemma {:induction false} RunKeepsStep(db: Db, txs: seq<Transaction>)
    requires InStep(db) && forall i :: 0 <= i < |txs| ==> WellFormed(txs[i])
    ensures InStep(ExecuteAll(db, txs))
    ensures forall id :: id in db.providers && Delete(id) !in txs ==> id in ExecuteAll(db, txs).providers
    ensures forall e :: e in db.events && db.events[e].closedAt.Some? && Delete(db.events[e].providerId) !in txs ==>
              e in ExecuteAll(db, txs).events && ExecuteAll(db, txs).events[e] == db.events[e]
  {
    if txs != [] {
      var init, last := txs[..|txs| - 1], txs[|txs| - 1];
      RunKeepsStep(db, init);
      TransactionKeepsStep(ExecuteAll(db, init), last);
      assert txs == init + [last];
      forall id | id in ExecuteAll(db, init).providers && last != Delete(id)
        ensures id in ExecuteAll(db, txs).providers
      {
        if last.Maintain? && FlushAll(ExecuteAll(db, init), last.items).Some? {
          FlushAllKeepsStep(ExecuteAll(db, init), last.items);
        }
      }
    }
  }

  // ----- Where the log starts

  /**
   The installing migration: one event for every provider found cooling down with a known end; `name` draws the
   ids.
   */
  function Migrated(providers: map<string, Provider>, name: string -> string): Db
    requires forall p, q :: name(p) == name(q) ==> p == q
  {
    Db(providers,
       map p | p in providers && providers[p].status == Cooldown && providers[p].cooldownUntil.Some? ::
         name(p) := Event(p, providers[p].lastError.GetOr("rate limited"), providers[p].rateLimit.GetOr("{}"),
                          providers[p].lastUsedAt.GetOr(providers[p].updatedAt), providers[p].cooldownUntil.value,
                              None, None))
  }

  /** The migrated log is in step exactly when no provider was cooling down without an end, or while disabled. */
  lemma MigrationStartsInStep(providers: map<string, Provider>, name: string -> string)
    requires forall p, q :: name(p) == name(q) ==> p == q
    ensures InStep(Migrated(providers, name)) <==>
            forall p :: p in providers && providers[p].status == Cooldown ==>
                providers[p].cooldownUntil.Some? && !providers[p].manualDisabled
  {
    var db := Migrated(providers, name);
    forall p | p in providers
      ensures InStepAt(db, p)
          <==> (providers[p].status == Cooldown ==> providers[p].cooldownUntil.Some? && !providers[p].manualDisabled)
    {
      if providers[p].status == Cooldown && providers[p].cooldownUntil.Some? {
        assert SoleOpen(db.events, p, name(p));
      }
    }
  }

  /** What is known of a cooldown found at the migration: when it began at the latest, why, and until when. */
  lemma MigrationRecordsWhatIsKnown(providers: map<string, Provider>, name: string -> string, p: string)
    requires forall p, q :: name(p) == name(q) ==> p == q
    requires p in providers && providers[p].status == Cooldown && providers[p].cooldownUntil.Some?
    ensures var events, row := Migrated(providers, name).events, providers[p];
            && SoleOpen(events, p, name(p)) && events[name(p)].cooldownUntil == row.cooldownUntil.value
            && (row.lastUsedAt.Some? ==> events[name(p)].openedAt == row.lastUsedAt.value)
            && (row.lastUsedAt.None? ==> events[name(p)].openedAt == row.updatedAt)
            && events[name(p)].cause == (if row.lastError.Some? then row.lastError.value else "rate limited")
            && events[name(p)].rateLimit == (if row.rateLimit.Some? then row.rateLimit.value else "{}")
  {
  }

  // ----- How events are closed

  /** A closed event has the time and the kind of the change of status that closed it. */
  predicate Tells(event: Event, row: Provider) {
    && row.status != Cooldown && event.closedAt == Some(row.updatedAt)
    && event.resolution == Some(
         if row.status == Active then "provider became active"
         else "provider status changed to " + (if row.status == AuthError then "auth_error" else "disabled"))
  }

  predicate ClosedBetween(before: Db, after: Db, e: string) {
    e in before.events && before.events[e].closedAt.None? && e in after.events && after.events[e].closedAt.Some?
  }

  /** What was closed, of providers that `touched` names, says why. */
  ghost predicate ClosingsTell(before: Db, after: Db, touched: set<string>) {
    forall e :: ClosedBetween(before, after, e) ==>
      var id := before.events[e].providerId;
      && id in touched && id in before.providers && id in after.providers && before.providers[id].status == Cooldown
      && Tells(after.events[e], after.providers[id])
  }

  lemma StatementTells(db: Db, id: string, row: Provider)
    requires id in db.providers
    ensures ClosingsTell(db, UpdateStatus(db, id, row), {id})
  {
  }

  lemma FlushOneTells(db: Db, item: Pending)
    requires FlushOne(db, item).Some?
    ensures ClosingsTell(db, FlushOne(db, item).value, {item.0})
    ensures forall e :: e in db.events ==>
              e in FlushOne(db, item).value.events
              && FlushOne(db, item).value.events[e].providerId == db.events[e].providerId
    ensures forall e :: e in db.events && db.events[e].closedAt.Some? ==>
        FlushOne(db, item).value.events[e] == db.events[e]
  {
  }

  function IdsOf(items: seq<Pending>): set<string> {
    set i | 0 <= i < |items| :: items[i].0
  }

  lemma {:induction false} FlushTells(db: Db, items: seq<Pending>)
    requires DistinctIds(items) && FlushAll(db, items).Some?
    ensures ClosingsTell(db, FlushAll(db, items).value, IdsOf(items))
    ensures FlushAll(db, items).value.providers.Keys == db.providers.Keys
    ensures forall e :: e in db.events ==>
              e in FlushAll(db, items).value.events
              && FlushAll(db, items).value.events[e].providerId == db.events[e].providerId
    ensures forall p :: p in db.providers && p !in IdsOf(items) ==>
              FlushAll(db, items).value.providers[p] == db.providers[p]
  {
    if items != [] {
      var init, last := items[..|items| - 1], items[|items| - 1];
      var earlier, r := FlushAll(db, init).value, FlushAll(db, items).value;
      assert IdsOf(items) == IdsOf(init) + {last.0} && last.0 !in IdsOf(init) by {
        assert items == init + [last];
      }
      FlushTells(db, init);
      FlushOneTells(earlier, last);
      FlushOneRows(earlier, last);
      forall e | ClosedBetween(db, r, e)
        ensures var id := db.events[e].providerId;
                && id in IdsOf(items) && id in db.providers && id in r.providers && db.providers[id].status == Cooldown
                && Tells(r.events[e], r.providers[id])
      {
        assert ClosedBetween(db, earlier, e) || ClosedBetween(earlier, r, e);
      }
    }
  }

  lemma RecoveryTells(db: Db, flushed: Db, now: int, touched: set<string>)
    requires ClosingsTell(db, flushed, touched) && flushed.providers.Keys == db.providers.Keys
    requires forall e :: e in db.events ==>
               e in flushed.events && flushed.events[e].providerId == db.events[e].providerId
    requires forall p :: p in db.providers && p !in touched ==> flushed.providers[p] == db.providers[p]
    ensures forall e :: ClosedBetween(db, RecoverAll(flushed, now), e) ==>
              Tells(RecoverAll(flushed, now).events[e], RecoverAll(flushed, now).providers[db.events[e].providerId])
  {
    var r := RecoverAll(flushed, now);
    forall e | ClosedBetween(db, r, e) ensures Tells(r.events[e], r.providers[db.events[e].providerId]) {
      if flushed.events[e].closedAt.Some? {
        assert ClosedBetween(db, flushed, e);
      }
    }
  }

  /** Whatever transaction closes an event, the event tells when its provider stopped cooling down, and how. */
  lemma ClosedEventsTellWhy(db: Db, tx: Transaction, e: string)
    requires tx.Maintain? ==> DistinctIds(tx.items)
    requires ClosedBetween(db, Execute(db, tx), e)
    ensures db.events[e].providerId in Execute(db, tx).providers
    ensures Tells(Execute(db, tx).events[e], Execute(db, tx).providers[db.events[e].providerId])
  {
    match tx
    case Maintain(items, at) =>
      if FlushAll(db, items).Some? {
        FlushTells(db, items);
        RecoveryTells(db, FlushAll(db, items).value, at, IdsOf(items));
      }
    case Insert(_) =>
    case Delete(_) =>
    case _ => StatementTells(db, tx.id, Execute(db, tx).providers[tx.id]);
  }

  // ----- When maintenance commits

  /** The pending circuit can no longer be recorded: its event is closed, the provider enabled and not cooling down. */
  predicate Clashes(db: Db, item: Pending) {
    && item.1.circuit.Some? && item.0 in db.providers
    && !db.providers[item.0].manualDisabled && db.providers[item.0].status != Cooldown
    && item.1.circuit.value.id in db.events
  }

  predicate DistinctCircuits(items: seq<Pending>) {
    forall i, j :: 0 <= i < j < |items| && items[i].1.circuit.Some? && items[j].1.circuit.Some? ==>
      items[i].1.circuit.value.id != items[j].1.circuit.value.id
  }

  /**
   One statement pair fails exactly on a clash, `db` being the log before the transaction and `earlier` just
   before it.
   */
  lemma FlushOneFailsOnClash(db: Db, earlier: Db, item: Pending)
    requires InStep(earlier) && earlier.providers.Keys == db.providers.Keys
    requires item.0 in db.providers ==> earlier.providers[item.0] == db.providers[item.0]
    requires item.1.circuit.Some? ==>
        (item.1.circuit.value.id in earlier.events <==> item.1.circuit.value.id in db.events)
    ensures FlushOne(earlier, item).Some? <==> !Clashes(db, item)
  {
    if item.1.circuit.Some? && item.0 in db.providers {
      assert InStepAt(earlier, item.0);
      assert HasOpen(earlier.events, item.0) <==> earlier.providers[item.0].status == Cooldown;
    }
  }

  /**
   Maintenance commits exactly when no pending circuit clashes. A pending update that was merged
   further after it was flushed keeps its circuit id, so a provider that recovers in between blocks
   the flush of every provider until its next status-bearing observation.
   */
  lemma {:induction false} FlushCommitsUnlessClash(db: Db, items: seq<Pending>)
    requires InStep(db) && DistinctIds(items) && DistinctCircuits(items)
    requires forall i :: 0 <= i < |items| ==> Coherent(items[i].1)
    ensures FlushAll(db, items).Some? <==> forall i :: 0 <= i < |items| ==> !Clashes(db, items[i])
  {
    if items != [] {
      var init, last := items[..|items| - 1], items[|items| - 1];
      assert forall i :: 0 <= i < |init| ==> init[i] == items[i];
      FlushCommitsUnlessClash(db, init);
      if FlushAll(db, init).Some? {
        var earlier := FlushAll(db, init).value;
        FlushAllRows(db, init);
        FlushAllKeepsStep(db, init);
        assert !Names(init, last.0);
        if last.1.circuit.Some? {
          assert !Introduces(init, last.1.circuit.value.id);
        }
        FlushOneFailsOnClash(db, earlier, last);
      }
      assert forall i :: 0 <= i < |items| ==> i < |init| || items[i] == last;
    }
  }
}
