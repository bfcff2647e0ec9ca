/**
 The provider tables. A table is a map, a transaction is one atomic step, and the trigger that
 closes circuit events runs inside every statement that assigns `status`.
 */
module Database {
  import opened Numbers
  import opened Options
  import opened Providers

  datatype Event = Event(
    providerId: string,
    cause: string,
    rateLimit: string,
    openedAt: int,
    cooldownUntil: int,
    closedAt: Option<int>,
    resolution: Option<string>)

  datatype Db = Db(providers: map<string, Provider>, events: map<string, Event>)

  datatype Credentials = Credentials(accessToken: string, refreshToken: string, accountId: string,
      expiresAt: Option<int>)

  function CredentialsOf(row: Provider): Credentials {
    Credentials(row.accessToken, row.refreshToken, row.accountId, row.expiresAt)
  }

  function WithCredentials(row: Provider, c: Credentials): Provider {
    row.(accessToken := c.accessToken, refreshToken := c.refreshToken, accountId := c.accountId,
        expiresAt := c.expiresAt)
  }

  predicate IsOpen(event: Event, id: string) {
    event.providerId == id && event.closedAt.None?
  }

  predicate HasOpen(events: map<string, Event>, id: string) {
    exists e :: e in events && IsOpen(events[e], id)
  }

  // ----- The trigger

  function StatusText(status: Status): string {
    match status
    case Active => "active"
    case Cooldown => "cooldown"
    case AuthError => "auth_error"
    case Disabled => "disabled"
  }

  function Closed(event: Event, status: Status, at: int): Event {
    event.(closedAt := Some(at),
           resolution := Some(if status == Active then "provider became active"
                              else "provider status changed to " + StatusText(status)))
  }

  /** `UPDATE providers SET status=... WHERE id=...`, with the trigger it fires. */
  function UpdateStatus(db: Db, id: string, row: Provider): Db
    requires id in db.providers
  {
    Db(db.providers[id := row],
       if db.providers[id].status == Cooldown && row.status != Cooldown
       then map e | e in db.events ::
              if IsOpen(db.events[e], id) then Closed(db.events[e], row.status, row.updatedAt) else db.events[e]
       else db.events)
  }

  // ----- The statements of a maintenance transaction

  /** The upsert of a circuit event; `None` when its id clashes with a closed event, which aborts the transaction. */
  function RecordCircuit(db: Db, id: string, circuit: CircuitOpen): Option<Db> {
    if id !in db.providers || db.providers[id].manualDisabled then
      Some(db)
    else if HasOpen(db.events, id) then
      Some(db.(events := map e | e in db.events ::
                           if IsOpen(db.events[e], id)
                           then db.events[e].(cause := circuit.cause, rateLimit := circuit.rateLimit,
                                              cooldownUntil := Max(db.events[e].cooldownUntil, circuit.cooldownUntil))
                           else db.events[e]))
    else if circuit.id in db.events then
      None
    else
      Some(db.(events := db.events[circuit.id :=
                 Event(id, circuit.cause, circuit.rateLimit, circuit.openedAt, circuit.cooldownUntil, None, None)]))
  }

  type Pending = (string, ProviderUpdate)

  function FlushOne(db: Db, item: Pending): Option<Db> {
    var recorded := if item.1.circuit.Some? then RecordCircuit(db, item.0, item.1.circuit.value) else Some(db);
    if recorded.None? || item.0 !in db.providers then recorded
    else Some(UpdateStatus(recorded.value, item.0, ApplyStored(db.providers[item.0], item.1)))
  }

  function FlushAll(db: Db, items: seq<Pending>): Option<Db> {
    if items == [] then Some(db)
    else
      var earlier := FlushAll(db, items[..|items| - 1]);
      if earlier.None? then None else FlushOne(earlier.value, items[|items| - 1])
  }

  /** The recovery statement: every expired cooldown at once, the trigger running row by row. */
  function RecoverAll(db: Db, now: int): Db {
    Db(map id | id in db.providers :: Recover(db.providers[id], now),
       map e | e in db.events ::
         var event := db.events[e];
         if event.closedAt.None? && event.providerId in db.providers
             && CooldownExpired(db.providers[event.providerId], now)
         then Closed(event, Active, now)
         else event)
  }

  /** The whole maintenance transaction; `None` when it aborts. */
  function Flush(db: Db, items: seq<Pending>, now: int): Option<Db> {
    var flushed := FlushAll(db, items);
    if flushed.None? then None else Some(RecoverAll(flushed.value, now))
  }

  // ----- The other writers of provider rows

  /** The credentials a refresh writes, and the row as the request path or the console writes it. */
  function ProxyRefreshedRow(row: Provider, issued: Credentials, now: int): Provider {
    WithCredentials(row, issued).(status := Active, lastError := None, updatedAt := now)
  }

  function ProxyRefusedRow(row: Provider, now: int): Provider {
    row.(status := AuthError, lastError := Some("credential refresh failed"), updatedAt := now)
  }

  function ConsoleCredentialRow(row: Provider, issued: Credentials, now: int): Provider {
    WithCredentials(row, issued).(status := if row.manualDisabled then Disabled else Active,
                                 cooldownUntil := None, lastError := None, updatedAt := now)
  }

  function EnabledRow(row: Provider, enabled: bool, now: int): Provider {
    row.(manualDisabled := !enabled, status := if enabled then Active else Disabled,
         cooldownUntil := None, updatedAt := now)
  }

  /** A row that was given credentials: it is offered again, unless an operator disabled it. */
  ghost predicate PutInService(before: Provider, after: Provider, c: Credentials, now: int) {
    && CredentialsOf(after) == c
    && (forall time :: Available(after, time) <==> !before.manualDisabled)
    && (!before.manualDisabled ==> after.status == Active)
    && after.lastError == None && after.updatedAt == now
    && SameOwner(before, after) && SameUse(before, after)
  }

  /** A row whose credentials were refused: it is not offered before somebody writes it again. */
  ghost predicate TakenOutOfService(before: Provider, after: Provider, now: int) {
    && NeverAvailable(after) && after.status == AuthError && after.lastError.Some? && after.updatedAt == now
    && SameOwner(before, after) && SameCredentials(before, after) && SameUse(before, after)
  }

  datatype Transaction =
    | Maintain(items: seq<Pending>, at: int)
    | ProxyRefreshed(id: string, used: string, issued: Credentials, at: int)
    | ProxyRefused(id: string, used: string, at: int)
    | ConsoleRefreshed(id: string, used: string, issued: Credentials, at: int)
    | ReplaceTokens(id: string, issued: Credentials, at: int)
    | SetEnabled(id: string, enabled: bool, at: int)
    | Insert(row: Provider)
    | Delete(id: string)

  function Execute(db: Db, tx: Transaction): Db {
    match tx
    case Maintain(items, at) => Flush(db, items, at).GetOr(db)
    case ProxyRefreshed(id, used, issued, at) =>
      if Matches(db, id, used) then UpdateStatus(db, id, ProxyRefreshedRow(db.providers[id], issued, at)) else db
    case ProxyRefused(id, used, at) =>
      if Matches(db, id, used) then UpdateStatus(db, id, ProxyRefusedRow(db.providers[id], at)) else db
    case ConsoleRefreshed(id, used, issued, at) =>
      if Matches(db, id, used) then UpdateStatus(db, id, ConsoleCredentialRow(db.providers[id], issued, at)) else db
    case ReplaceTokens(id, issued, at) =>
      if id in db.providers then UpdateStatus(db, id, ConsoleCredentialRow(db.providers[id], issued, at)) else db
    case SetEnabled(id, enabled, at) =>
      if id in db.providers then UpdateStatus(db, id, EnabledRow(db.providers[id], enabled, at)) else db
    case Insert(row) =>
      if row.id in db.providers then db else db.(providers := db.providers[row.id := row])
    case Delete(id) =>
      Db(db.providers - {id}, map e | e in db.events && db.events[e].providerId != id :: db.events[e])
  }

  /** The compare half of a refresh's compare-and-set. */
  predicate Matches(db: Db, id: string, used: string) {
    id in db.providers && db.providers[id].refreshToken == used
  }

  /** What the transactions of refreshes and operators make of the row they are about. */
  lemma TransactionsDecideService(db: Db, tx: Transaction)
    requires match tx
             case Maintain(_, _) => false
             case Insert(_) => false
             case Delete(_) => false
             case _ => tx.id in db.providers
    ensures Execute(db, tx).providers.Keys == db.providers.Keys
    ensures forall p :: p in db.providers && p != tx.id ==> Execute(db, tx).providers[p] == db.providers[p]
    ensures var before, after := db.providers[tx.id], Execute(db, tx).providers[tx.id];
            match tx
            case ProxyRefreshed(_, used, issued, at) =>
              if before.refreshToken == used then PutInService(before, after, issued, at) else after == before
            case ProxyRefused(_, used, at) =>
              if before.refreshToken == used then TakenOutOfService(before, after, at) else after == before
            case ConsoleRefreshed(_, used, issued, at) =>
              if before.refreshToken == used then PutInService(before, after, issued, at) else after == before
            case ReplaceTokens(_, issued, at) => PutInService(before, after, issued, at)
            case SetEnabled(_, enabled, at) =>
              && (forall time :: Available(after, time) <==> enabled)
              && after.manualDisabled == !enabled && after.updatedAt == at
              && after.id == before.id && after.ownerId == before.ownerId
              && SameCredentials(before, after) && SameUse(before, after) && after.lastError == before.lastError
            case _ => true
  {
  }

  // ----- What a flush does, item by item

  predicate DistinctIds(items: seq<Pending>) {
    forall i, j :: 0 <= i < j < |items| ==> items[i].0 != items[j].0
  }

  predicate Names(items: seq<Pending>, id: string) {
    exists i :: 0 <= i < |items| && items[i].0 == id
  }

  ghost predicate Introduces(items: seq<Pending>, e: string) {
    exists i :: 0 <= i < |items| && items[i].1.circuit.Some? && items[i].1.circuit.value.id == e
  }

  lemma FlushOneRows(db: Db, item: Pending)
    requires FlushOne(db, item).Some?
    ensures var r := FlushOne(db, item).value;
            && r.providers.Keys == db.providers.Keys
            && (item.0 in db.providers ==> r.providers[item.0] == ApplyStored(db.providers[item.0], item.1))
            && (forall p :: p in db.providers && p != item.0 ==> r.providers[p] == db.providers[p])
            && (forall e :: e in db.events ==> e in r.events)
            && (forall e :: e in r.events && e !in db.events ==> item.1.circuit.Some? && item.1.circuit.value.id == e)
  {
  }

  lemma NamesAppended(items: seq<Pending>, last: Pending, id: string)
    ensures Names(items + [last], id) <==> Names(items, id) || last.0 == id
  {
    var all := items + [last];
    assert all[|items|] == last && forall i :: 0 <= i < |items| ==> all[i] == items[i];
    if Names(items, id) {
      var i :| 0 <= i < |items| && items[i].0 == id;
      assert all[i].0 == id;
    }
  }

  lemma IntroducesAppended(items: seq<Pending>, last: Pending, e: string)
    ensures Introduces(items + [last], e) <==>
            Introduces(items, e) || (last.1.circuit.Some? && last.1.circuit.value.id == e)
  {
    var all := items + [last];
    assert all[|items|] == last && forall i :: 0 <= i < |items| ==> all[i] == items[i];
    if Introduces(items, e) {
      var i :| 0 <= i < |items| && items[i].1.circuit.Some? && items[i].1.circuit.value.id == e;
      assert all[i].1.circuit.value.id == e;
    }
  }

  lemma {:induction false} FlushAllAddsEvents(db: Db, items: seq<Pending>)
    requires FlushAll(db, items).Some?
    ensures var r := FlushAll(db, items).value;
            && r.providers.Keys == db.providers.Keys
            && (forall e :: e in db.events ==> e in r.events)
            && (forall e :: e in r.events && e !in db.events ==> Introduces(items, e))
  {
    if items != [] {
      var init, last := items[..|items| - 1], items[|items| - 1];
      assert items == init + [last];
      FlushAllAddsEvents(db, init);
      FlushOneRows(FlushAll(db, init).value, last);
      forall e | Introduces(init, e) || (last.1.circuit.Some? && last.1.circuit.value.id == e)
        ensures Introduces(items, e)
      {
        IntroducesAppended(init, last, e);
      }
    }
  }

  /** What a flush makes of one row. */
  predicate FlushedTo(items: seq<Pending>, id: string, before: Provider, after: Provider) {
    && (forall i :: 0 <= i < |items| && items[i].0 == id ==> after == ApplyStored(before, items[i].1))
    && (!Names(items, id) ==> after == before)
  }

  lemma {:induction false} FlushAllTouchesRow(db: Db, items: seq<Pending>, id: string)
    requires DistinctIds(items) && FlushAll(db, items).Some? && id in db.providers
    ensures var r := FlushAll(db, items).value.providers;
            id in r && FlushedTo(items, id, db.providers[id], r[id])
  {
    if items != [] {
      var init, last := items[..|items| - 1], items[|items| - 1];
      assert items == init + [last];
      FlushAllTouchesRow(db, init, id);
      FlushOneRows(FlushAll(db, init).value, last);
      NamesAppended(init, last, id);
      assert last.0 == id ==> !Names(init, id);
    }
  }

  /** A committed flush applies each pending update to its own row and to no other. */
  lemma FlushAllRows(db: Db, items: seq<Pending>)
    requires DistinctIds(items) && FlushAll(db, items).Some?
    ensures var r := FlushAll(db, items).value;
            && r.providers.Keys == db.providers.Keys
            && (forall i :: 0 <= i < |items| && items[i].0 in db.providers ==>
                  r.providers[items[i].0] == ApplyStored(db.providers[items[i].0], items[i].1))
            && (forall p :: p in db.providers && !Names(items, p) ==> r.providers[p] == db.providers[p])
            && (forall e :: e in db.events ==> e in r.events)
            && (forall e :: e in r.events && e !in db.events ==> Introduces(items, e))
  {
    FlushAllAddsEvents(db, items);
    forall id | id in db.providers
      ensures FlushedTo(items, id, db.providers[id], FlushAll(db, items).value.providers[id])
    {
      FlushAllTouchesRow(db, items, id);
    }
  }
}
