/**
 Upstream providers as the balancer sees them: the row, the observation made of a response, and
 the four ways a row changes (`observe` on the snapshot, `UPDATE` in the database, merging two
 observations that are still pending, and recovery of an expired cooldown).
 */
module Providers {
  import opened Numbers
  import opened Options

  datatype Status = Active | Cooldown | AuthError | Disabled

  datatype Provider = Provider(
    id: string,
    ownerId: Option<string>,
    accessToken: string,
    refreshToken: string,
    accountId: string,
    expiresAt: Option<int>,
    status: Status,
    manualDisabled: bool,
    cooldownUntil: Option<int>,
    rateLimit: Option<string>,
    lastError: Option<string>,
    lastUsedAt: Option<int>,
    updatedAt: int)

  datatype CircuitOpen = CircuitOpen(id: string, cause: string, rateLimit: string, openedAt: int, cooldownUntil: int)

  datatype ProviderUpdate = ProviderUpdate(
    status: Option<Status>,
    cooldownUntil: Option<int>,
    rateLimit: string,
    lastError: Option<string>,
    lastUsedAt: Option<int>,
    updatedAt: int,
    circuit: Option<CircuitOpen>)

  /** `ProviderUpdate::merge`. */
  function Merge(first: ProviderUpdate, next: ProviderUpdate): ProviderUpdate {
    var base := if next.status.Some?
                then first.(status := next.status, cooldownUntil := next.cooldownUntil,
                            lastError := next.lastError, circuit := next.circuit)
                else first;
    base.(rateLimit := next.rateLimit,
          lastUsedAt := next.lastUsedAt.Or(first.lastUsedAt),
          updatedAt := Max(first.updatedAt, next.updatedAt))
  }

  /** What `observe` does to the row of the in-memory snapshot. */
  function ApplyCached(row: Provider, update: ProviderUpdate): Provider {
    var base := if !row.manualDisabled && update.status.Some?
                then row.(status := update.status.value, cooldownUntil := update.cooldownUntil,
                    lastError := update.lastError)
                else row;
    base.(rateLimit := Some(update.rateLimit),
          lastUsedAt := update.lastUsedAt.Or(row.lastUsedAt),
          updatedAt := update.updatedAt)
  }

  /** What the `UPDATE providers` of a maintenance transaction does to the stored row. */
  function ApplyStored(row: Provider, update: ProviderUpdate): Provider {
    row.(status := if row.manualDisabled then Disabled else update.status.GetOr(row.status),
         cooldownUntil := if row.manualDisabled then None
                          else if update.status.None? then row.cooldownUntil else update.cooldownUntil,
         rateLimit := Some(update.rateLimit),
         lastError := if update.status.None? then row.lastError else update.lastError,
         lastUsedAt := update.lastUsedAt.Or(row.lastUsedAt),
         updatedAt := update.updatedAt)
  }

  predicate CooldownExpired(row: Provider, now: int) {
    !row.manualDisabled && row.status == Cooldown && row.cooldownUntil.Some? && row.cooldownUntil.value <= now
  }

  /** Recovery of an expired cooldown: the same rule in the transaction and in `recover_cached_providers`. */
  function Recover(row: Provider, now: int): Provider {
    if CooldownExpired(row, now)
    then row.(status := Active, cooldownUntil := None, lastError := None, updatedAt := now)
    else row
  }

  /** `provider_is_available`. */
  predicate Available(row: Provider, now: int) {
    !row.manualDisabled
    && (row.status == Active
        || (row.status == Cooldown && row.cooldownUntil.Some? && row.cooldownUntil.value <= now))
  }

  // ----- Observations

  /** The `error` object of an upstream body: its JSON text and the members that are read. */
  datatype ErrorBody = ErrorBody(text: string, kind: Option<string>, resetsAt: Option<int>,
      resetsInSeconds: Option<int>)

  /** `usage_limit_cooldown`; the addition is `checked_add` on 64 bits. */
  function UsageLimitCooldown(error: Option<ErrorBody>, now: int): (until: Option<int>)
    ensures until.Some? ==> now < until.value
  {
    if error.None? || error.value.kind != Some("usage_limit_reached") then None
    else if error.value.resetsAt.Some? && error.value.resetsAt.value > now then error.value.resetsAt
    else if error.value.resetsInSeconds.Some? && error.value.resetsInSeconds.value > 0
            && now + error.value.resetsInSeconds.value <= I64_MAX
    then Some(now + error.value.resetsInSeconds.value)
    else None
  }

  /** The update `track_response` hands to `observe`; `circuitId` is the freshly drawn identifier. */
  function TrackResponse(code: int, statusText: string, error: Option<ErrorBody>, now: int,
      circuitId: string): ProviderUpdate {
    var rate := if error.Some? then error.value.text else "{}";
    var plain := ProviderUpdate(None, None, rate, None, Some(now), now, None);
    if code == 401 || code == 403 then
      plain.(status := Some(AuthError), lastError := Some("upstream HTTP " + statusText))
    else if code == 429 then
      match UsageLimitCooldown(error, now)
      case Some(until) =>
        plain.(status := Some(Cooldown), cooldownUntil := Some(until), lastError := Some("usage limit reached"),
               circuit := Some(CircuitOpen(circuitId, "usage_limit_reached", rate, now, until)))
      case None => plain
    else plain
  }

  /** The shape every pending update has: a cooldown carries the circuit that records it, nothing else does. */
  predicate Coherent(update: ProviderUpdate) {
    && (update.status == Some(Cooldown) <==> update.circuit.Some?)
    && (update.circuit.Some? ==> update.cooldownUntil == Some(update.circuit.value.cooldownUntil))
    && (update.status.Some? ==> update.status.value != Disabled && update.status.value != Active)
  }

  lemma TrackedUpdatesMergeCoherently(pending: ProviderUpdate, code: int, text: string, error: Option<ErrorBody>,
      now: int, id: string)
    requires Coherent(pending)
    ensures var seen := TrackResponse(code, text, error, now, id);
            Coherent(seen) && Coherent(Merge(pending, seen))
            && (seen.circuit.Some? ==>
                  && seen.circuit.value.id == id && seen.circuit.value.cause == "usage_limit_reached"
                  && seen.circuit.value.openedAt == now < seen.circuit.value.cooldownUntil
                  && error.Some? && seen.circuit.value.rateLimit == error.value.text)
            && (seen.status.Some? ==> Merge(pending, seen).circuit == seen.circuit)
            && (seen.status.None? ==> Merge(pending, seen).circuit == pending.circuit)
  {
  }

  // ----- What an observation does to a provider

  /**
   The limit an error body reports ends at `until`: the reset time if it is still to come, else so many seconds
   on.
   */
  predicate LimitEnds(error: Option<ErrorBody>, now: int, until: int) {
    && error.Some? && error.value.kind == Some("usage_limit_reached") && now < until
    && (error.value.resetsAt == Some(until)
        || ((error.value.resetsAt.Some? ==> error.value.resetsAt.value <= now)
            && error.value.resetsInSeconds == Some(until - now) && until <= I64_MAX))
  }

  ghost predicate NeverAvailable(row: Provider) {
    forall time :: !Available(row, time)
  }

  ghost predicate AlwaysAvailable(row: Provider) {
    forall time :: Available(row, time)
  }

  ghost predicate AvailableFrom(row: Provider, until: int) {
    forall time :: Available(row, time) <==> until <= time
  }

  ghost predicate AvailableAlike(a: Provider, b: Provider) {
    forall time :: Available(a, time) <==> Available(b, time)
  }

  /** What neither observations nor refreshes touch. */
  predicate SameOwner(before: Provider, after: Provider) {
    && after.id == before.id && after.ownerId == before.ownerId && after.manualDisabled == before.manualDisabled
  }

  predicate SameCredentials(before: Provider, after: Provider) {
    && after.accessToken == before.accessToken && after.refreshToken == before.refreshToken
    && after.accountId == before.accountId && after.expiresAt == before.expiresAt
  }

  predicate SameUse(before: Provider, after: Provider) {
    after.rateLimit == before.rateLimit && after.lastUsedAt == before.lastUsedAt
  }

  /** A row says what was reported and when; whose it is and its credentials stay. */
  predicate Reports(before: Provider, after: Provider, error: Option<ErrorBody>, now: int) {
    && after.rateLimit == Some(if error.Some? then error.value.text else "{}")
    && after.lastUsedAt == Some(now) && after.updatedAt == now
    && SameOwner(before, after) && SameCredentials(before, after)
  }

  /** What a response does to an enabled provider. */
  ghost predicate Reflects(before: Provider, after: Provider, code: int, error: Option<ErrorBody>, now: int) {
    && (code in {401, 403} ==> NeverAvailable(after) && after.lastError.Some?)
    && (forall until :: code == 429 && LimitEnds(error, now, until) ==> AvailableFrom(after, until))
    && (code !in {401, 403} && !(code == 429 && exists until :: LimitEnds(error, now, until)) ==>
          AvailableAlike(after, before) && after.lastError == before.lastError)
  }

  lemma LimitHasOneEnd(error: Option<ErrorBody>, now: int)
    ensures UsageLimitCooldown(error, now).Some? ==> LimitEnds(error, now, UsageLimitCooldown(error, now).value)
    ensures forall until :: LimitEnds(error, now, until) ==> UsageLimitCooldown(error, now) == Some(until)
  {
  }

  /**
   In the snapshot and in the database alike. A disabled provider stays unavailable: the snapshot keeps its status,
   the database has it disabled, without cooldown.
   */
  lemma ResponsesAreReflected(row: Provider, code: int, text: string, error: Option<ErrorBody>, now: int, id: string)
    ensures var seen := TrackResponse(code, text, error, now, id);
            var (cached, stored) := (ApplyCached(row, seen), ApplyStored(row, seen));
            && Reports(row, cached, error, now) && Reports(row, stored, error, now)
            && (!row.manualDisabled ==>
                  Reflects(row, cached, code, error, now) && Reflects(row, stored, code, error, now))
            && (row.manualDisabled ==>
                  && NeverAvailable(cached) && NeverAvailable(stored)
                  && cached.status == row.status && cached.cooldownUntil == row.cooldownUntil
                  && stored.status == Disabled && stored.cooldownUntil == None)
  {
    LimitHasOneEnd(error, now);
  }

  /** Which responses take an active provider out of service, and until when. */
  lemma ResponsesThatStopAProvider(
    row: Provider, code: int, text: string, error: Option<ErrorBody>, now: int, id: string, until: int)
    requires !row.manualDisabled && row.status == Active
    ensures var after := ApplyCached(row, TrackResponse(code, text, error, now, id));
            && (NeverAvailable(after) <==> code == 401 || code == 403)
            && (AvailableFrom(after, until) <==> code == 429 && LimitEnds(error, now, until))
            && (AlwaysAvailable(after) <==>
                  code != 401 && code != 403 && !(code == 429 && exists end :: LimitEnds(error, now, end)))
  {
    var after := ApplyCached(row, TrackResponse(code, text, error, now, id));
    LimitHasOneEnd(error, now);
    if after.status == Cooldown {
      var end := after.cooldownUntil.value;
      assert Available(after, end) && !Available(after, end - 1);
    } else {
      assert Available(after, until - 1) <==> Available(after, until);
    }
  }

  /** Recovery makes an expired cooldown an active row, and changes no other row and no answer from then on. */
  lemma RecoveryRestoresService(row: Provider, at: int)
    ensures var after := Recover(row, at);
            && (Available(row, at) ==> after.status == Active && AlwaysAvailable(after))
            && (!Available(row, at) || row.status == Active ==> after == row)
            && (after != row ==> after.cooldownUntil == None && after.lastError == None && after.updatedAt == at)
            && SameOwner(row, after) && SameCredentials(row, after) && SameUse(row, after)
            && forall time :: at <= time ==> (Available(after, time) <==> Available(row, time))
  {
  }

  // ----- The algebra of updates

  lemma MergeIsAssociative(a: ProviderUpdate, b: ProviderUpdate, c: ProviderUpdate)
    ensures Merge(Merge(a, b), c) == Merge(a, Merge(b, c))
  {
  }

  /**
   Storing a merged update equals storing both in turn, for every row, exactly when the
   observations were made in clock order: only `updated_at` tells the two apart.
   */
  lemma MergedUpdateStoresBoth(a: ProviderUpdate, b: ProviderUpdate)
    ensures (forall row :: ApplyStored(row, Merge(a, b)) == ApplyStored(ApplyStored(row, a), b))
            <==> a.updatedAt <= b.updatedAt
  {
    var row := Provider("", None, "", "", "", None, Active, false, None, None, None, None, 0);
    if a.updatedAt > b.updatedAt {
      assert ApplyStored(row, Merge(a, b)).updatedAt != ApplyStored(ApplyStored(row, a), b).updatedAt;
    }
  }

  /** A response observed at 10 that merges before one observed at 9: the row keeps 10, stored in turn it has 9. */
  lemma OutOfClockOrderStoresAnotherTime(row: Provider, error: Option<ErrorBody>, id: string)
    ensures var (a, b) := (TrackResponse(200, "200", error, 10, id), TrackResponse(200, "200", error, 9, id));
            && ApplyStored(row, Merge(a, b)).updatedAt == 10
            && ApplyStored(ApplyStored(row, a), b).updatedAt == 9
  {
  }

  /** A row with every expired cooldown recovered and without its `updated_at`: what requests can tell apart. */
  function View(row: Provider, now: int): Provider {
    Recover(row, now).(updatedAt := 0)
  }

  lemma ViewDecidesAvailability(row: Provider, now: int)
    ensures Available(row, now) <==> !View(row, now).manualDisabled && View(row, now).status == Active
  {
  }

  /** Recovery at an earlier time is invisible later. */
  lemma ViewAbsorbsRecovery(row: Provider, earlier: int, now: int)
    requires earlier <= now
    ensures View(Recover(row, earlier), now) == View(row, now)
    ensures View(View(row, earlier), now) == View(row, now)
  {
  }

  /** Rows that look alike keep looking alike under the next observation, stored or cached. */
  lemma ViewIsACongruence(x: Provider, y: Provider, update: ProviderUpdate, now: int)
    requires !x.manualDisabled && View(x, now) == View(y, now)
    ensures View(ApplyStored(x, update), now) == View(ApplyCached(y, update), now)
    ensures View(ApplyCached(x, update), now) == View(ApplyCached(y, update), now)
  {
  }

  /** `later` overwrites whatever `earlier` wrote: it was obtained by merging more observations into it. */
  predicate Overrides(later: ProviderUpdate, earlier: ProviderUpdate) {
    && (earlier.status.Some? ==> later.status.Some?)
    && (earlier.lastUsedAt.Some? ==> later.lastUsedAt.Some?)
  }

  /** Re-flush absorption: storing an update that was merged further after it had been stored loses nothing. */
  lemma ReflushIsAbsorbed(row: Provider, earlier: ProviderUpdate, later: ProviderUpdate, flushed: int, now: int)
    requires !row.manualDisabled && Overrides(later, earlier) && flushed <= now
    ensures View(ApplyStored(Recover(ApplyStored(row, earlier), flushed), later), now)
        == View(ApplyStored(row, later), now)
  {
  }
}
