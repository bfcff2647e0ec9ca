# OpenAI-LB: a verified model of balancer, credential refresh and audit

OpenAI-LB relays OpenAI requests over a pool of provider accounts. Its correctness rests on a few pieces of
shared state that many requests touch at once. This project models those pieces in Dafny and proves what they
are for.

| files | what they model |
|---|---|
| `Providers`, `Database`, `CircuitLog` | provider rows, observations of upstream responses, the provider tables with the trigger that closes circuit events |
| `WriteBehind`, `Refinement`, `Races`, `Affinities`, `Leases`, `Balancer` | the balancer: a snapshot with pending updates behind it, when that is invisible and the runs in which it is not, session affinities, in-flight counters; `Balancer` is the object, the others explore how its operations interleave |
| `CredentialRefresh`, `CredentialAccounts`, `RefreshTask` | the refresh protocol: per-provider mutex, token exchange (section 6 of RFC 6749), compare-and-set write, operators who write without the mutex |
| `AuditCall`, `AuditRecord`, `AuditPipeline`, `AuditWriter`, `AuditObjects` | a call's event from reservation to row, and what it says: tracker, stream completion, bounded queue, memory budget, batched writer |
| `SseUsage`, `Previews`, `Pricing`, `ResponseText`, `UsagePivot` | token usage of an event stream, body previews, the price table, reconstructed response text, the usage pivot |

Concurrency is modelled by state machines whose steps are operations that the source performs atomically: a load
or a store of the snapshot, a map operation, a statement or transaction, a token exchange, a destructor. Where a
machine takes several of them as one step, "Left out" says so. A run is any sequence of enabled steps, and the
main results hold after every run, or say for which runs. Code that updates objects or loops is also written as
classes and methods, proved to do what the machines' steps do. Clock readings, generated ids, token responses,
parsed JSON and hashes are parameters; ids are fresh where a step says so.

The model follows the code where the repository's own README says otherwise: a 429 puts a provider into
cooldown only if its body is a usage-limit error with a reset time, and no `Retry-After` header is read.

## What does not hold

Properties that fail, each with the exact condition (first) and a concrete case (last):

- `observe`, the recovery that ends a maintenance pass and `forget_provider` load the snapshot, change a copy and
  store it. If another store falls between, it is undone: two overlapping observations lose the cooldown of one
  provider, which is offered again until the next reload. A store is harmless exactly when every row looks in the
  loaded copy as it does now (`Refinement.StoreObserveKeepsIff`, `Refinement.StoreRecoverKeepsIff`,
  `Refinement.StoreForgetKeepsIff`; `Races.OverlappingObserversLoseACooldown`).
- Two observations of one provider may store the snapshot in one order and merge their updates in the other; the
  snapshot then shows the one and the database keeps the other (`Refinement.OvertakingIsInvisibleIff`,
  `Refinement.MergeKeepsIff`; `Races.OvertakingSplitsSnapshotAndDatabase`).
- An observation merged between the comparison and the removal that settle a pending update is removed with it.
  That shows exactly if it sets a status other than the one flushed or, beyond availability, reports another rate
  limit, use or error (`Refinement.LateDropIsInvisibleIff`, `Refinement.DropKeepsIff`;
  `Races.LateDropLosesAnObservation`).
- Reloading the snapshot before an observation is flushed makes a cooling provider selectable again
  (`Refinement.InstallKeepsIff`, `Refinement.AlreadyStoredIff`; `Races.EarlyReloadForgetsACooldown`).
- An operator's write is undone by what is still pending: tokens replaced within a second of an authentication
  error are stored as refused (`Refinement.WriteKeepsIff`; `Races.PendingUpdateUndoesAWrite`).
- A pending update keeps its circuit id when it is merged further after having been stored. If the provider
  recovers in between, the id clashes with the closed event and every later maintenance transaction aborts, for
  all providers, until that provider's next status-bearing response (`CircuitLog.FlushCommitsUnlessClash`;
  `Races.RecoveredCircuitBlocksMaintenance`).
- A mark set between the comparison and the unmarking that settle an affinity is removed, and a live entry is
  neither marked nor stored (`Affinities.ReleaseKeepsIff`; `Affinities.LateUnmarkingLosesAnAffinity`).
- The console saves the tokens it loaded. If a refresh used the refresh token meanwhile, it is brought back and
  exchanged again: stored tokens stay unused exactly as long as operators bring none that was used, or is another
  provider's (`CredentialRefresh.TokensStayUnusedIff`; `CredentialRefresh.BroughtBackTokenIsExchangedAgain`).
- A request's refresh falls back on the account of its lease, not of the row whose token it exchanges. After an
  operator has moved the provider to another account, it writes the old account back beside the new tokens
  (`CredentialAccounts.ExchangeYieldsTheAccountIff`; `CredentialAccounts.StaleLeaseOverwritesTheAccount`).
- Of two overlapping selections of one key the older may insert its affinity last, so that the entry expires
  earlier than the ttl after the last selection (`Affinities.ChoiceSticksIff`;
  `Affinities.OverlappingSelectionsShortenTheEntry`).
- A provider that is forgotten with live leases and then selected from an old snapshot counts too few leases ever
  after, and ends with a counter wrapped below zero (`Leases.CountersAreExactIff`;
  `Leases.ForgetBetweenTwoLeasesUnderflows`).
- A negative input token count makes pricing panic for models that charge for cache writes, and the event is lost
  (`Pricing.PanicsIffNegativeInput`, `AuditCall.ExactlyOneEventPerSlot`; `AuditCall.NegativeInputLosesTheEvent`).
- A consumer deleted while one of its calls waits in the queue makes the writer retry that batch for ever
  (`AuditWriter.BatchCommitsIffWritable`; `AuditWriter.DeletedConsumerBlocksTheWriter`).
- A stream line over 2 MiB is counted or dropped depending on where the chunks are cut
  (`SseUsage.ChunkingIsInvisibleIffBounded`; `SseUsage.OverlongLinesDependOnChunking`).
- A pivot column whose key is a name every JavaScript object inherits, such as `constructor`, shows no numbers
  (`UsagePivot.EveryCellIsANumberIffOrdinary`; `UsagePivot.ConstructorColumnIsNotANumber`).
- A pivot key does not always tell its labels: of two and more dimensions if a label has U+001F in it, of one
  dimension if the label is empty or `total` (`UsagePivot.KeyTellsLabelsIffUnambiguous`;
  `UsagePivot.TotalIsSharedWithTheUnnamed`).
- Merging two observations that were made out of clock order stores another `updated_at` than storing both
  (`Providers.MergedUpdateStoresBoth`; `Providers.OutOfClockOrderStoresAnotherTime`).

## Model

| member | source | states |
|---|---|---|
| Providers.UsageLimitCooldown | src/balancer.rs:501-516 | a usage-limit body yields a cooldown only in the future, or none |
| Providers.TrackedUpdatesMergeCoherently | src/balancer.rs:437-499 | every observation, alone or merged into a pending one, is a cooldown exactly when it carries the circuit that records it, with the same end; the circuit opens at the observation with the error's text, and a merge keeps the last one |
| Providers.ResponsesAreReflected | src/balancer.rs:437-499 | in the snapshot and in the database a 401 or 403 makes an enabled provider unavailable at every time, a 429 with a usage limit until exactly the reset time, and any other response leaves its availability as it was; rate limit, last use and time are those of the response, owner and credentials stay |
| Providers.ResponsesThatStopAProvider | src/balancer.rs:451-516 | an active provider is never available again if and only if the code was 401 or 403, available exactly from a time on if and only if the code was 429 with a usage limit that ends then, and always available otherwise |
| Providers.RecoveryRestoresService | src/balancer.rs:385-399 | recovery makes exactly the rows whose cooldown has expired active, without cooldown and error, and changes no answer from then on |
| Providers.MergeIsAssociative | src/balancer.rs:81-93 | grouping of merges does not matter |
| Providers.MergedUpdateStoresBoth | src/balancer.rs:81-93 | storing a merged update equals storing both in turn for every row, exactly when they were observed in clock order |
| Providers.OutOfClockOrderStoresAnotherTime | src/balancer.rs:81-93 | a response observed a second earlier and merged after another is stored under the later time, and under the earlier one if both are stored |
| Providers.ViewDecidesAvailability | src/balancer.rs:426-431 | availability depends only on what is left of a row once expired cooldowns are recovered |
| Providers.ViewAbsorbsRecovery | src/balancer.rs:385-399 | an earlier recovery cannot be told from a later one |
| Providers.ViewIsACongruence | src/balancer.rs:401-416 | rows that look alike still do after the same observation, whether applied to the snapshot or stored |
| Providers.ReflushIsAbsorbed | src/balancer.rs:331-350 | storing an update that was merged further after a first flush and recovery shows the same row as storing it once |
| Database.FlushAllRows | src/balancer.rs:332-347 | a committed flush applies each update to its own row, touches no other row and adds only the events its circuits introduce |
| Database.TransactionsDecideService | src/api.rs:464-603 | what the transactions of refreshes and operators leave: a row given credentials is available at every time exactly if not manually disabled, a refused one never, an enabled or disabled one as the operator says; owner, rate limit and last use stay, and other rows too |
| CircuitLog.RecordingOpensOne | src/balancer.rs:333-339 | the upsert leaves exactly one open event for the provider, with the new cause; one that was open keeps its opening and ends at the later time, a new one is the circuit's own; history is kept |
| CircuitLog.StatusWriteKeepsStep | migrations/20260808000025_provider_circuit_events.sql:21-32 | with the trigger, any status write keeps provider and log in step as long as a cooldown is covered by an open event |
| CircuitLog.TransactionKeepsStep | src/api.rs:448-484 | every transaction (flush and recovery, both refresh paths, token replacement, enable and disable, insert, delete) keeps the log in step: cooldown if and only if there is a sole open event that covers it |
| CircuitLog.RunKeepsStep | migrations/20260808000025_provider_circuit_events.sql:12-32 | over any run of transactions the log stays in step and a closed event never changes unless its provider is deleted |
| CircuitLog.MigrationStartsInStep | migrations/20260808000025_provider_circuit_events.sql:34-46 | the installing migration starts in step exactly when no provider was cooling down without an end or while disabled |
| CircuitLog.MigrationRecordsWhatIsKnown | migrations/20260808000025_provider_circuit_events.sql:34-46 | the event made for a cooldown found has its end, its error as cause and its last use as opening |
| CircuitLog.ClosedEventsTellWhy | migrations/20260808000025_provider_circuit_events.sql:21-32 | whatever transaction closes an event, its closing time and resolution are those of the change that ended the cooldown |
| CircuitLog.FlushCommitsUnlessClash | src/balancer.rs:331-354 | maintenance commits if and only if no pending circuit id is that of a recorded event while its provider is enabled and not cooling down |
| Refinement.StoreObserveKeepsIff | src/balancer.rs:401-418 | storing an observed snapshot keeps snapshot, database with what was observed, and ideal row alike if and only if every row looks in the loaded copy, with the observation, as it does in the current snapshot with it |
| Refinement.StoreRecoverKeepsIff | src/balancer.rs:385-399 | the same for the store that ends a maintenance pass |
| Refinement.MaintenanceRecovers | src/balancer.rs:350-399 | after the transaction and after the store that ends the pass no row, in database or snapshot, waits for a cooldown that was over |
| Refinement.StoreForgetKeepsIff | src/balancer.rs:268-271 | the same for the store of a forgotten provider's snapshot |
| Refinement.InstallKeepsIff | src/balancer.rs:248-266 | a reload keeps them alike if and only if every row it read shows everything observed |
| Refinement.WriteKeepsIff | src/api.rs:448-484 | an operator's write keeps them alike if and only if nothing pending, owed or being settled changes what the new row shows |
| Refinement.CommitKeeps | src/balancer.rs:331-354 | the maintenance transaction, committed or aborted, keeps them alike |
| Refinement.MayOvertakeIff | src/balancer.rs:81-93 | an update merged before one stored earlier shows the same row if and only if, of what both report, either the values agree or something stored later overrides them |
| Refinement.MergeKeepsIff | src/balancer.rs:419-422 | merging an update keeps the three alike if and only if it may overtake all those stored before it and not yet merged, which it may when there are none |
| Refinement.MayBeDroppedIff | src/balancer.rs:355-363 | dropping an update from a row it was pending for shows the same row if and only if everything it reports is in the row, or overridden by what is still owed |
| Refinement.DropKeepsIff | src/balancer.rs:355-363 | the removal that settles a pending update keeps the three alike if and only if that holds of the stored row |
| Refinement.UnmergedDropIsCareful | src/balancer.rs:355-363 | it does for every update that was found unchanged, and not merged into since |
| Refinement.LateDropIsInvisibleIff | src/balancer.rs:355-363 | removing an update merged into since its comparison shows on no row exactly when what was merged sets no status or the one flushed, and, beyond availability, reports the same rate limit, use and error |
| Refinement.StepKeepsIff | src/balancer.rs:248-423 | every single load, store, map operation and transaction of observers, maintenance, reloads, operators and deletions keeps the refinement if and only if it meets its condition on the state before it; whether rows are compared by everything shown or by availability only |
| Refinement.RefinementHoldsIff | src/balancer.rs:248-423 | the refinement holds throughout a run if and only if each of its steps meets its condition |
| Refinement.WriteBehindIsInvisible | src/balancer.rs:248-423 | after any run from start-up in which no snapshot is stored between a task's load and its store, updates are merged in the order they were stored, and reloads and operators' writes find everything observed (or, compared by availability only, every status observed) in the rows: snapshot, database with what was observed, and a row updated at once and never maintained are available at the same times from then on |
| Refinement.AlreadyStoredIff | src/balancer.rs:248-266 | a row shows everything observed if and only if each thing last reported, pending or owed, is in it |
| Refinement.PlainResponsesAreNoObstacle | src/balancer.rs:437-499 | by availability, writes and reloads may come at any time while only responses that set no status are pending or owed |
| Refinement.ReloadNeedsStoredUpdates | src/balancer.rs:248-266 | a reload of current rows keeps the refinement exactly when they already show everything observed |
| Refinement.OvertakingIsInvisibleIff | src/balancer.rs:419-422 | merging two updates in the other order shows on no row exactly when at most one sets a status or both set the same, and, beyond availability, both report the same rate limit, use and error |
| Races.OverlappingObserversLoseACooldown | src/balancer.rs:401-418 | two overlapping observations lose the cooldown of one provider from the snapshot |
| Races.ForgetsAlone | src/balancer.rs:268-277 | undisturbed, forgetting a deleted provider removes its row from the snapshot and its pending update, and nothing else |
| Races.OvertakingSplitsSnapshotAndDatabase | src/balancer.rs:401-423 | two observations of one provider merged in the other order leave a snapshot that offers it and a database that never will |
| Races.EarlyReloadForgetsACooldown | src/balancer.rs:248-266 | a reload before the flush makes a cooling provider available again |
| Races.PendingUpdateUndoesAWrite | src/api.rs:581-603 | an authentication error pending when an operator replaces the tokens is flushed into the new row, which is then never available |
| Races.LateDropLosesAnObservation | src/balancer.rs:355-363 | a cooldown merged between the comparison and the removal never reaches the database |
| Races.RecoveredCircuitBlocksMaintenance | src/balancer.rs:81-93 | an ordinary run from start-up after which no flush commits, at any time |
| Affinities.SafetyPersists | src/balancer.rs:278-295 | what is marked, or owed a mark by a running task, stays so through every single map operation |
| Affinities.NoAffinityIsLost | src/balancer.rs:214-225 | with remember, forget and maintenance interleaved per map operation, at quiescence every live cached entry is dirty or stored |
| Affinities.QuietCommitStoresEverything | src/balancer.rs:318-354 | an undisturbed commit leaves every live entry stored |
| Affinities.CommitForgetsExpired | src/balancer.rs:341-353 | a commit leaves exactly the unexpired ones of the stored rows and the snapshot, the snapshot's where both have one |
| Affinities.FinishForgetsExpired | src/balancer.rs:380 | the end of a pass keeps exactly the cached entries that had not expired at its start |
| Affinities.ForgetsAlone | src/balancer.rs:278-295 | undisturbed, forgetting removes the entry and its mark, and nothing else |
| Affinities.StoredStayOwned | src/balancer.rs:341-349 | over every run no stored row outlives its provider |
| Affinities.ReleaseKeepsIff | src/balancer.rs:364-379 | taking the comparison and the unmarking of an entry apart, the unmarking is harmless if and only if a live entry is still the flushed one, or a task that inserted another has yet to mark it |
| Affinities.LateUnmarkingLosesAnAffinity | src/balancer.rs:364-379 | a selection made between the two leaves a live entry that is neither marked nor stored |
| Affinities.SelectionsStick | src/balancer.rs:125-188 | over a whole run every selection of a key, overlapping ones included, returns its provider as long as it looks the key up less than the ttl after the clock of the entry inserted last, whatever else happens |
| Affinities.ChoiceSticksIff | src/balancer.rs:177-188 | a selection whose fallback is another provider returns the remembered one if and only if its clock is before the expiry |
| Affinities.OverlappingSelectionsShortenTheEntry | src/balancer.rs:214-225 | of two overlapping selections the older may insert last; a selection less than the ttl after the younger then falls back |
| Leases.StepConserves | src/balancer.rs:102-108 | no decrement underflows, and dropping a lease of a forgotten provider changes nothing |
| Leases.RunConserves | src/balancer.rs:165-175 | over every run each provider's counter equals its live leases |
| Leases.CountersOverRuns | src/balancer.rs:165-175 | over every run, reselection of forgotten providers included, a counter shows the live leases less those that were live when it was last created |
| Leases.CountersAreExactIff | src/balancer.rs:165-175 | it equals the live leases if and only if none was live then |
| Leases.ReselectionAfterForgetUnderflows | src/balancer.rs:102-108 | once all leases are dropped, a counter that missed some is below zero by as many, wrapped |
| Leases.ForgetBetweenTwoLeasesUnderflows | src/balancer.rs:268-276 | the shortest run that wraps a counter |
| Leases.PickIsLeast | src/balancer.rs:190-205 | the provider picked carries no more leases than any other, for every cursor |
| Leases.PicksStayEven | src/balancer.rs:190-205 | from zero load, after k picks with any cursor values every provider carries the floor or ceiling of k/n and the loads sum to k |
| Leases.RotationAdvances | src/balancer.rs:190-205 | with a running cursor the pick is the provider under the cursor and the pattern of loads moves on by one |
| Leases.PicksGoRound | src/balancer.rs:190-205 | the k-th pick is the provider k places after the first |
| Leases.EveryBlockVisitsEachOnce | src/balancer.rs:190-205 | every block of n consecutive picks visits each of n providers exactly once |
| Balancer.EligibleOfIsExact | src/balancer.rs:136-148 | the candidates are exactly the providers of the snapshot that are available, not excluded, and open to the user: by the flag for all, as owner or by a grant |
| Balancer.EligibleInOrder | src/balancer.rs:136-148 | they are in the order of the snapshot |
| Balancer.SelectionIsAPick | src/balancer.rs:165-175 | a selection counted in the in-flight map is a pick on the loads |
| Balancer.SelectionsStayEven | src/balancer.rs:152-205 | from idle counters a run of k selections leaves every provider its even share in the in-flight map |
| Balancer.Balancer.LeastInflight | src/balancer.rs:190-205 | the loop from the cursor returns the first least loaded provider and advances the cursor, wrapping on 64 bits |
| Balancer.Balancer.AffinityProvider | src/balancer.rs:177-188 | finds the remembered provider exactly when its entry is unexpired and it is eligible |
| Balancer.Balancer.Select | src/balancer.rs:125-175 | fails, changing nothing, exactly when nobody is eligible; otherwise leases the remembered or least loaded provider with its own tokens, counts one lease and remembers the choice |
| Balancer.Balancer.DropLease | src/balancer.rs:102-108 | one lease less for a known provider, nothing for a forgotten one |
| Balancer.Balancer.ForgetProvider | src/balancer.rs:268-296 | removes the row, keeping the others in order, the counter, pending update, grants and every affinity of the provider with its mark, and nothing else |
| Balancer.OthersInOrder | src/balancer.rs:268-271 | the rows kept are in their order |
| Balancer.Balancer.StoreObserved | src/balancer.rs:401-418 | the snapshot stored is the one loaded, whenever that was, with the first row of the provider rewritten and all rows in place |
| Balancer.Balancer.MergePending | src/balancer.rs:419-422 | the update is merged into the pending one |
| Balancer.Balancer.Observe | src/balancer.rs:401-423 | both, undisturbed |
| Balancer.Balancer.StoreRecovered | src/balancer.rs:385-399 | the snapshot stored is the one loaded with every expired cooldown recovered, row by row and in place |
| Balancer.Balancer.CollectUpdates | src/balancer.rs:313-317 | the collected items are the pending updates, each once, in some order |
| Balancer.Balancer.SettleUpdates | src/balancer.rs:355-363 | exactly the updates that changed since they were collected stay pending |
| Balancer.Balancer.SettleAffinities | src/balancer.rs:364-379 | unchanged entries become clean, and disappear when their provider has no row |
| Balancer.Balancer.Maintain | src/balancer.rs:311-383 | an undisturbed pass stores every pending update into its row in any order, recovers database and snapshot alike and leaves nothing pending or dirty; an aborted one changes nothing |
| Balancer.FlushUpdates | src/balancer.rs:331-354 | the statements run in turn and commit together or not at all |
| CredentialRefresh.StepKeeps | src/proxy.rs:1107-1163 | every step of tasks and operators, whatever tokens these bring, keeps the protocol invariant: lock ownership, and every lease and row a version that was stored |
| CredentialRefresh.StepKeepsUnusedIff | src/api.rs:581-603 | it keeps the stored refresh tokens unused as well, unless about to be replaced, if and only if an operator's token is neither used nor another provider's |
| CredentialRefresh.TokensStayUnusedIff | src/api.rs:581-603 | stored refresh tokens stay unused throughout a run if and only if all tokens operators bring are like that |
| CredentialRefresh.NoTokenIsExchangedTwice | src/proxy.rs:1107-1163 | in any such run no refresh token value is exchanged successfully twice |
| CredentialRefresh.BroughtBackTokenIsExchangedAgain | web/src/App.tsx:3313-3327 | the console saves the refresh token it loaded before a refresh used it, and the next refresh exchanges it again |
| CredentialRefresh.LeasesComeFromOneVersion | src/proxy.rs:1126-1161 | token pair, account and expiry of a finished lease were stored together in one row version |
| CredentialRefresh.ExchangeYieldsTheResponse | src/proxy.rs:1145-1147 | what an exchange yields are the response's tokens, good for as long as it says from the read (request) or the reply (console) on |
| CredentialRefresh.WritePutsIntoService | src/proxy.rs:1148-1161 | a write over an unchanged token leaves exactly the issued credentials, and the provider active and available at every time unless manually disabled, without error; owner, rate limit and last use stay, and so do other rows |
| CredentialRefresh.ReportTakesOutOfService | src/proxy.rs:1138-1143 | a refused exchange of an unchanged token makes the provider unavailable at every time, and changes nothing else of it; of another token it changes no row |
| CredentialRefresh.ReplacementPutsIntoService | src/api.rs:594-598 | the tokens an operator brings end a cooldown and make the provider available at every time unless manually disabled |
| CredentialRefresh.OperatorsChangeOneRow | src/api.rs:448-484 | an operator's writes, insertions and deletions leave what they say in one row and all others alone |
| CredentialAccounts.ExchangeYieldsTheAccountIff | src/proxy.rs:1145-1146 | an exchange yields the account of the token exchanged, or the one the response names, for every console task, and for a request task if and only if the response names one or the lease is of the account of the row read |
| CredentialAccounts.AccountsStayUnmixedIff | src/proxy.rs:1121-1161 | throughout a run every stored, read and written version pairs its refresh token with that token's account if and only if every exchange meets that condition, and operators bring no known token with another account |
| CredentialAccounts.LeasesNameTheirAccount | src/proxy.rs:1126-1161 | in such a run a finished lease names the account its refresh token was issued for |
| CredentialAccounts.StaleLeaseOverwritesTheAccount | src/proxy.rs:1145-1146 | a run in which a request exchanges the refresh token an operator brought for account B and writes the old account A back, into row and lease |
| CredentialRefresh.OperatorsWin | src/api.rs:581-603 | once an operator has replaced the token a refresh read, and unless one brings it back, that refresh changes no row, however it ends |
| CredentialRefresh.WriteLeavesFreshlyHeld | src/proxy.rs:1146-1161 | a successful refresh with a late enough expiry leaves every waiting request a row to adopt |
| CredentialRefresh.WaitingTasksAdopt | src/proxy.rs:1115-1133 | from then on no request of that provider attempts an exchange, and those that finish adopted the new credentials |
| RefreshTask.RefreshIfNeeded | src/proxy.rs:1107-1163 | for any table contents other writers leave during the exchange: an unexpired lease stays, a fresh row is adopted; otherwise a successful exchange over an unchanged token puts an enabled provider into service, active, available and without error, with the response's credentials in row and lease, and a refused one takes it out |
| RefreshTask.RefreshProvider | src/api.rs:486-514 | the console's refresh, likewise; the provider is then available at every time exactly if not manually disabled |
| RefreshTask.EffectsAreOutcomes | src/proxy.rs:1107-1163 | both functions amount to the protocol's steps taken one after the other |
| AuditCall.TrackerStepKeeps | src/proxy.rs:312-371 | setters, finish, take_stream and drop move the event to exactly one place, and panic exactly when finish settles a held event with a usage that cannot be priced |
| AuditCall.StreamStepKeeps | src/proxy.rs:1537-1594 | capture, finish and drop of a stream do so and never panic |
| AuditCall.DropsRecordCancellation | src/proxy.rs:354-371 | a destructor that finds the event unsettled sends it as status 499, client_cancelled |
| AuditCall.RunKeeps | src/proxy.rs:312-389 | over any run pricing panics exactly if the event is held and the first finish, take_stream or drop is a finish with a negative input count under a model with a cache-write price |
| AuditCall.ExactlyOneEventPerSlot | src/proxy.rs:114-371 | whatever happens to a call, it enqueues one event with a real status if it had a slot and none otherwise, except exactly when its event is first settled like that |
| AuditCall.NegativeInputLosesTheEvent | src/proxy.rs:2034-2039 | a concrete call that loses its event |
| AuditRecord.StreamedCallIsRecorded | src/proxy.rs:1537-1594 | from the start of a call: after any setters, any chunks and any end of the stream the one event has what the setters set last; the usage of the whole stream if its lines are bounded; all bytes counted and, archiving, the first 1 MiB with the exact truncation flag; status and error of the end; and the price of that usage |
| AuditRecord.StreamedResponseIsRecorded | src/proxy.rs:341-352 | the same from any call that is still to be answered |
| AuditRecord.BufferedCallIsRecorded | src/proxy.rs:312-339 | after any setters a finish that can be priced sends the event with exactly what was set last and measured |
| AuditRecord.SettersAreRecorded | src/proxy.rs:179-293 | each field of the event is what its last setter gave it; bodies only if archiving, up to the limit, marked exactly if cut |
| AuditRecord.UnansweredCallIsRecorded | src/proxy.rs:354-371 | a call nobody answered is sent with status 499, without model, usage and price |
| AuditPipeline.OpConserves | src/proxy.rs:312-371 | each operation splits the slot and reservation a call holds between the call, its message and what is returned |
| AuditPipeline.CallWithinBudget | src/proxy.rs:198-208 | a call never holds more body bytes than it reserved |
| AuditPipeline.StepKeeps | src/audit.rs:105-161 | arrival, call operations, transport reports, receipt and commit conserve slots and reservations |
| AuditPipeline.EveryRunIsBounded | src/audit.rs:15-19 | in every reachable state free, held and queued slots add up to 4096, free and held reservations to 64 MiB, and all bodies held fit the reservations |
| AuditPipeline.CallsPanicIffTheyLose | src/proxy.rs:312-389 | among interleaved calls, each loses its event exactly if it held a slot and its own operations lose it |
| AuditPipeline.FinishedCallsAreEnqueuedOnce | src/proxy.rs:1509-1594 | among any number of interleaved calls, a finished one has one event in the queue's history exactly when it held a slot and its operations do not lose the event |
| AuditPipeline.StepStaysInOrder | src/lib.rs:206-242 | events keep distinct ids and a transport report is only ever enqueued after its event |
| AuditPipeline.EveryRunCanBeWritten | src/audit.rs:212-252 | whatever a run enqueues can be written while its consumers exist, and every transport update finds the row its event inserted |
| AuditWriter.Persist | src/audit.rs:212-252 | the transaction applies every message of the batch in order, or nothing |
| AuditWriter.FillBatch | src/audit.rs:186-195 | a batch is the next messages of the queue, at least one and at most 128 |
| AuditWriter.PersistWithRetries | src/audit.rs:196-208 | any finite number of failed attempts leaves the batch written once |
| AuditWriter.Run | src/audit.rs:185-210 | for any batch cuts and outages the tables equal those of applying the queue one message at a time |
| AuditWriter.LaggingIsInvisible | src/audit.rs:258 | however far writing lags, and whichever providers are deleted meanwhile, the waiting messages lead to the tables of immediate writing |
| AuditWriter.BatchCommitsIffWritable | src/audit.rs:254-308 | a batch can be written if and only if its call ids are new and its consumers exist |
| AuditWriter.EventsAreWritten | src/audit.rs:212-308 | once a queue is written, the row of each of its calls says what the event said, with its provider if that still exists, and the transport bytes and encoding of the last report after it, or the event's own and none; an archiving call has its bodies, flags and the last headers reported in the archive, another nothing |
| AuditWriter.ReportsUpdateRows | src/audit.rs:226-232 | a row that was there keeps everything but transport bytes and encoding, which are those of the last report |
| AuditWriter.OtherRowsStay | src/audit.rs:212-252 | rows and archives of calls no message names are unchanged |
| AuditWriter.DeletedConsumerBlocksTheWriter | migrations/20260718000016_consumer_delete_cascade.sql:3-8 | deleting the consumer of a waiting call makes its batch fail |
| AuditWriter.ConsumersTakeTheirCallsAlong | migrations/20260718000016_consumer_delete_cascade.sql:3-8 | with a consumer exactly its calls and their archives go |
| AuditWriter.TransportFindsItsRow | src/audit.rs:220-239 | in an ordered queue the row of a transport update is there when it is applied |
| AuditObjects.AuditQueue.TryReserve | src/audit.rs:125-131 | a slot is granted exactly when one is free |
| AuditObjects.AuditQueue.TryReserveArchive | src/audit.rs:133-139 | a whole reservation is granted or none |
| AuditObjects.AuditQueue.RelayAndReport | src/lib.rs:225-241 | the body passes through unchanged and its arrived bytes are reported once, after its end |
| AuditObjects.ArrivedAddsUp | src/lib.rs:225-241 | each chunk that arrived counts with all its bytes, one that failed with none |
| AuditObjects.AuditTracker.Begin | src/proxy.rs:115-177 | no slot, no event; no archive reservation without a slot |
| AuditObjects.AuditTracker.SetRequest | src/proxy.rs:198-208 | keeps a preview of the body only for archiving calls |
| AuditObjects.AuditTracker.SetResponseBody | src/proxy.rs:284-293 | the same for the response body |
| AuditObjects.AuditTracker.Finish | src/proxy.rs:312-339 | settles and sends as the call machine says, and the slot it takes is always still there |
| AuditObjects.AuditTracker.TakeStream | src/proxy.rs:341-352 | event, slot and budget move to the completion together |
| AuditObjects.AuditTracker.Drop | src/proxy.rs:354-371 | an unsettled event is sent as cancelled with its slot, an unused slot and reservation are returned |
| AuditObjects.StreamCompletion.CaptureSse | src/proxy.rs:1537-1546 | bytes, usage and preview advance as the call machine says |
| AuditObjects.StreamCompletion.Finish | src/proxy.rs:1548-1570 | sends the event once, with 502 if the upstream failed, and never panics |
| AuditObjects.StreamCompletion.Drop | src/proxy.rs:1573-1594 | as for the tracker, keeping what the stream had captured |
| AuditObjects.Settle | src/proxy.rs:373-389 | the event settled with its price, or a panic in pricing |
| SseUsage.LinesOfConcat | src/proxy.rs:2055-2062 | the lines of a stream are those of its beginning followed by those of the unfinished line and the rest |
| SseUsage.LinesAndTailAreTheStream | src/proxy.rs:2055-2062 | lines and unfinished line are the bytes of the stream |
| SseUsage.OnlyDataIsParsed | src/proxy.rs:2057-2062 | what follows `data: ` is parsed, any other line counts for nothing |
| SseUsage.MergedIsLeastBound | src/proxy.rs:1618-1625 | merged usage is the least usage above the start and every line |
| SseUsage.UsageIgnoresOrder | src/proxy.rs:1618-1625 | order and repetition of events do not change the usage |
| SseUsage.UpdateSseUsage | src/proxy.rs:2055-2067 | the draining loop leaves the bytes after the last newline, cleared beyond 2 MiB, and merges every complete line |
| SseUsage.ReaderIgnoresChunking | src/proxy.rs:2055-2067 | for lines up to 2 MiB every chunking ends with the same pending bytes and usage |
| SseUsage.ChunkingIsInvisibleIffBounded | src/proxy.rs:2064-2066 | chunking is invisible throughout a stream if and only if its lines are bounded |
| SseUsage.OverlongLinesDependOnChunking | src/proxy.rs:2064-2066 | an overlong line cut before its newline is lost, uncut it counts |
| SseUsage.ImagesUsage | src/proxy.rs:1450-1460 | the buffered reader's loop over stripped lines collects the same maximum |
| SseUsage.BufferedAndStreamedAgree | src/proxy.rs:1450-1460 | reading a newline-terminated body at once or in any chunks gives the same usage |
| Previews.PreviewIgnoresChunking | src/proxy.rs:617-625 | after any chunks the preview is the first bytes up to the limit, truncated exactly if there were more, and counts all bytes |
| Previews.StreamedPreviewIsBodyPreview | src/proxy.rs:592-595 | the streamed preview equals the preview of the whole body |
| Previews.StreamingPreview.Capture | src/proxy.rs:617-625 | the object's capture is one step of that preview |
| Previews.CreateSpool | src/audio_spool.rs:32-64 | an upload is spooled exactly when all chunks arrive; file, preview, truncation flag and byte count then describe the whole body |
| Pricing.TableIsSensible | src/proxy.rs:1690-2026 | in the table cached tokens are never dearer, cache writes never cheaper than plain input, and long-context prices never lower |
| Pricing.InputIsPartitioned | src/proxy.rs:2032-2039 | every input token is billed once, as plain, cached or written to the cache |
| Pricing.CostIsExactUpToSaturation | src/proxy.rs:2028-2053 | for non-negative input every model in the table costs the exact unbounded price, at the long-context rates from 272000 input tokens on if it has them, cut off at the 64-bit maximum, and no other model has a price |
| Pricing.PlausibleUsageIsBilledByCount | src/proxy.rs:2032-2053 | the exact price is cached tokens, cache writes if charged for, other input and output, each by its own rate |
| Pricing.ImplausibleCountsAreCutOff | src/proxy.rs:2033-2050 | negative counts bill as none, and more cached or written tokens than there is input bill as what is left of it |
| Pricing.PanicsIffNegativeInput | src/proxy.rs:2034-2039 | pricing panics exactly for a negative input count on a model with a cache-write price |
| Pricing.CostIsMonotone | src/proxy.rs:1673-1686 | more input, even across the long-context threshold, and more output never cost less |
| Pricing.CachingNeverRaisesCost | src/proxy.rs:2033-2045 | more cached tokens never raise the cost |
| ResponseText.SortedKeys | web/src/lib/response-output.ts:83-90 | the parts come out sorted by output and content index, one per part seen |
| ResponseText.CollectParts | web/src/lib/response-output.ts:55-79 | the loop builds for every part what its own events in order amount to |
| ResponseText.StreamTextParts | web/src/lib/response-output.ts:55-90 | the loops yield the texts the lemmas below are about |
| ResponseText.EventsGrowTheirText | web/src/lib/response-output.ts:74-88 | a delta is appended to its part's text unless a finished text has been sent, a finished text replaces it, anything else and other parts' events leave it |
| ResponseText.TextsInIndexOrder | web/src/lib/response-output.ts:82-90 | the texts are those of all parts that have one, by output index and then content index |
| ResponseText.OutputIsWrittenOut | web/src/lib/response-output.ts:92-101 | the output is the texts in order, or else those of a finished response, each after the first following a blank line, and nothing else |
| ResponseText.CompletedTextsInOrder | web/src/lib/response-output.ts:97-98 | the texts of finished responses come in the order of their events |
| ResponseText.TextsDependOnParts | web/src/lib/response-output.ts:55-90 | two streams with the same events for each part give the same texts |
| ResponseText.InterleavingIsInvisible | web/src/lib/response-output.ts:55-101 | reordering events of different parts changes neither texts nor output text |
| ResponseText.DoneEventsAreRedundant | web/src/lib/response-output.ts:66-90 | if every done text is the concatenation of its deltas, removing the done events changes nothing |
| UsagePivot.PivotUsageRows | web/src/App.tsx:6525-6561 | the loop over rows builds the pivot its specification says |
| UsagePivot.LabelsShowTheRow | web/src/App.tsx:6469-6482 | a user is shown by name, else email, else id, the other dimensions by what they are |
| UsagePivot.RowsShareAKeyIffLabelsAgree | web/src/App.tsx:6562-6568 | a row with unambiguous labels is grouped with exactly the rows that show the same labels |
| UsagePivot.KeyTellsLabelsIffUnambiguous | web/src/App.tsx:6562-6568 | a key stands for one list of labels if and only if none of several has U+001F in it, and a single one is neither empty nor `total` |
| UsagePivot.TotalIsSharedWithTheUnnamed | web/src/App.tsx:6562-6568 | the concrete pair of labels that share a key |
| UsagePivot.MetricsAddUp | web/src/App.tsx:6546-6551 | each metric is summed on its own |
| UsagePivot.OrdersAreByAppearance | web/src/App.tsx:6531-6555 | rows and, before they are sorted, columns come in the order in which their keys first appear |
| UsagePivot.CellsAreSums | web/src/App.tsx:6533-6553 | a cell exists exactly for the key pairs that occur, and is the per-metric sum of exactly those rows unless its column is an inherited name |
| UsagePivot.EveryCellIsANumberIffOrdinary | web/src/App.tsx:6538-6545 | all cells are numbers if and only if no column key is an inherited name |
| UsagePivot.ConstructorColumnIsNotANumber | web/src/App.tsx:6538-6545 | a concrete column that is none |
| UsagePivot.GrandTotalIsConserved | web/src/App.tsx:6525-6561 | the cells add up to the input total for every choice of dimensions |
| UsagePivot.RowTotalIsItsCellWithoutColumns | web/src/App.tsx:6562-6568 | a row's cells add up to its single cell in the pivot without column dimensions |

## Left out

- HTTP, header forwarding, compression, OAuth network calls, JSON parsing, SHA-256, UUIDs and SQLite itself: I/O or libraries; their results are parameters, tables are maps, a transaction is one step.
- Balancer.Balancer.Observe: undisturbed; what falls between its load, store and merge is explored by `WriteBehind`.
- Balancer.Balancer.SettleUpdates: undisturbed; `WriteBehind` takes the comparison and the removal of one pending update as two steps.
- Balancer.Balancer.Maintain: the object runs undisturbed; what interleaves with it is explored by the machines of `WriteBehind` and `Affinities`.
- Refinement.WriteBehindIsInvisible: for orderly runs (exact conditions step by step in `StepKeepsIff`); `updated_at` is not compared, disabled rows agree only on being unavailable, and a row an operator has just written is compared once its reload is done.
- CircuitLog.RunKeepsStep: the circuit log of merged observations is not compared with that of storing each, because merging keeps only the last circuit; an event whose provider is deleted goes with it.
- CircuitLog.FlushCommitsUnlessClash: assumes SQLite resolves the named conflict target before the primary key, and distinct circuit ids.
- CredentialRefresh.NoTokenIsExchangedTwice: the token endpoint issues no refresh token twice, operators bring none that was used or is another provider's (exactly then stored tokens stay unused: `TokensStayUnusedIff`), and no task is cancelled or fails to write between a successful exchange and its write.
- CredentialRefresh.OperatorsWin: an operator who brings the replaced token back makes the row as it was, and the refresh may then write.
- CredentialRefresh.WaitingTasksAdopt: request tasks only; a console refresh always exchanges.
- Affinities.NoAffinityIsLost: collecting one dirty entry, and settling one hash of a maintenance pass, are one step each, though the source makes several map operations of them; `ReleaseKeepsIff` says what the second boundary costs.
- Affinities.SelectionsStick: clocks that run backwards are not modelled.
- Leases.PicksGoRound: the cursor does not wrap and nothing but selections changes the loads.
- AuditCall.ExactlyOneEventPerSlot: a stream is taken at most once per call, as the only caller does; headers, latencies and other fields that are only copied are not modelled.
- AuditWriter.Run: a commit whose outcome the database does not report is taken to have failed; `consumers.last_used_at`, the key to `users` and the expiry of archives are not modelled.
- SseUsage.BufferedAndStreamedAgree: bodies that end in a newline; the image data of `images_from_sse` is not modelled.
- CredentialRefresh.LeasesComeFromOneVersion: that this version names the right account is the matter of `CredentialAccounts`; what a lease does with its credentials afterwards is not modelled.
- RefreshTask.RefreshIfNeeded: the reload of the snapshot after a refresh is a step of `WriteBehind`.
- Usage::merge, ProviderUpdate::merge and SQL statements are functions on values, not updates in place: nothing aliases what they change.
- ResponseText.StreamTextParts: indices are the finite numbers JSON can carry, taken as reals; splitting the body into events is a parameter.
- UsagePivot.PivotUsageRows: the label a column is sorted by, a column keyed `__proto__`, and members added to `Object.prototype` at run time are not modelled.
- Start-up loading (`hydrate`), the dispatch and retry flow that owns a lease, provider names, grants and roles, resource sampling, usage reports and the rest of the interface: plumbing that would only add easy members.
