/**
 The two refresh functions as code: the request path's `refresh_if_needed`, which rewrites row and
 lease, and the console's `refresh_provider`. `meanwhile` is the table as other writers leave it while
 the exchange is in flight. Each does the steps that `CredentialRefresh` interleaves, in their order.
 */
module RefreshTask {
  import opened Options
  import opened Providers
  import opened Database
  import M = CredentialRefresh

  class ProviderTable {
    var rows: map<string, Provider>

    /** `UPDATE providers ... WHERE id=? AND refresh_token=?`: whether a row was affected. */
    method UpdateIfToken(id: string, token: string, row: Provider -> Provider) returns (affected: bool)
      modifies this
      ensures affected == (id in old(rows) && old(rows)[id].refreshToken == token)
      ensures rows == if affected then old(rows)[id := row(old(rows)[id])] else old(rows)
    {
      affected := id in rows && rows[id].refreshToken == token;
      if affected {
        rows := rows[id := row(rows[id])];
      }
    }
  }

  class LeaseCredentials {
    const id: string
    var accessToken: string
    var refreshToken: string
    var accountId: string
    var expiresAt: Option<int>

    constructor (id: string)
    {
      this.id, accessToken, refreshToken, accountId, expiresAt := id, "", "", "", None;
    }

    function Value(): Credentials
      reads this
    {
      Credentials(accessToken, refreshToken, accountId, expiresAt)
    }
  }

  datatype Effect = Effect(rows: map<string, Provider>, lease: Credentials, ok: bool)

  /** The credentials a response yields from `now` on, the account falling back on `account`. */
  function Issued(token: M.TokenResponse, account: string, now: int): Credentials {
    Credentials(token.accessToken, token.refreshToken, token.accountId.GetOr(account), Some(now + token.expiresIn))
  }

  predicate Holds(rows: map<string, Provider>, id: string, token: string) {
    id in rows && rows[id].refreshToken == token
  }

  /** What the exchange of a request task and its write come to, `token` being the refresh token it read. */
  function ProxyExchange(id: string, token: string, lease: Credentials, now: int,
                         response: Option<M.TokenResponse>, meanwhile: map<string, Provider>): Effect {
    if !Holds(meanwhile, id, token) then Effect(meanwhile, lease, false)
    else if response.None? then Effect(meanwhile[id := ProxyRefusedRow(meanwhile[id], now)], lease, false)
    else
      var issued := Issued(response.value, lease.accountId, now);
      Effect(meanwhile[id := ProxyRefreshedRow(meanwhile[id], issued, now)], issued, true)
  }

  function ProxyEffect(rows: map<string, Provider>, id: string, lease: Credentials, before: int, now: int,
                       response: Option<M.TokenResponse>, meanwhile: map<string, Provider>): Effect {
    if lease.expiresAt.None? || M.GoodUntilMargin(lease.expiresAt, before) then Effect(rows, lease, true)
    else if id !in rows then Effect(rows, lease, false)
    else if M.GoodUntilMargin(rows[id].expiresAt, now) then Effect(rows, CredentialsOf(rows[id]), true)
    else ProxyExchange(id, rows[id].refreshToken, lease, now, response, meanwhile)
  }

  function ConsoleEffect(rows: map<string, Provider>, id: string, lease: Credentials, now: int,
                         response: Option<M.TokenResponse>, meanwhile: map<string, Provider>): Effect {
    if id !in rows then Effect(rows, lease, false)
    else if response.None? || !Holds(meanwhile, id, rows[id].refreshToken) then Effect(meanwhile, lease, false)
    else
      var issued := Issued(response.value, rows[id].accountId, now);
      Effect(meanwhile[id := ConsoleCredentialRow(meanwhile[id], issued, now)], issued, true)
  }

  // ----- The steps of the protocol, for one task alone at the table

  function Started(rows: map<string, Provider>, kind: M.Kind, id: string, lease: Credentials, now: int): M.State {
    M.Next(M.State(rows, map[id := {lease}], map[], map[], {}, map[], now), M.Start(0, kind, id, lease))
  }

  function HasRead(s: M.State, now: int): M.State
    requires 0 in s.tasks && s.tasks[0].stage.Queued? && s.locks == map[] && s.clock <= now
  {
    M.Next(M.Next(M.Next(s, M.Tick(now)), M.Lock(0)), M.Read(0))
  }

  /** The exchange, the writes of others, and its own write. */
  function HasWritten(s: M.State, response: Option<M.TokenResponse>, meanwhile: map<string, Provider>): M.State
    requires 0 in s.tasks && s.tasks[0].stage.MustExchange? && s.issuedTo == map[]
  {
    var exchanged := M.Next(s, M.Exchange(0, response)).(rows := meanwhile);
    match exchanged.tasks[0].stage
    case MustWrite(_, _, _) => M.Next(exchanged, M.Write(0))
    case MustReport(_, _) => M.Next(exchanged, M.Report(0))
    case _ => exchanged
  }

  function EffectOf(s: M.State): Effect
    requires 0 in s.tasks
  {
    Effect(s.rows, s.tasks[0].lease, s.tasks[0].stage.Ready?)
  }

  lemma ReadingIsAStep(rows: map<string, Provider>, kind: M.Kind, id: string, lease: Credentials, before: int, now: int)
    requires before <= now
    ensures var s := Started(rows, kind, id, lease, before);
            && 0 in s.tasks && s.locks == map[] && s.issuedTo == map[]
            && s.tasks[0].stage ==
               (if kind.Proxy? && (lease.expiresAt.None? || M.GoodUntilMargin(lease.expiresAt, before)) then M.Ready
                   else M.Queued)
            && (s.tasks[0].stage.Ready? ==> EffectOf(s) == Effect(rows, lease, true))
            && (s.tasks[0].stage.Queued? ==>
                  var read := HasRead(s, now);
                  0 in read.tasks && read.issuedTo == map[] &&
                  if id !in rows then EffectOf(read) == Effect(rows, lease, false)
                  else if kind.Proxy? && M.GoodUntilMargin(rows[id].expiresAt, now)
                      then EffectOf(read) == Effect(rows, CredentialsOf(rows[id]), true)
                  else read.tasks[0] == M.Task(kind, id, lease, M.MustExchange(rows[id], now)) && read.clock == now)
  {
  }

  lemma ProxyExchangeIsAStep(s: M.State, response: Option<M.TokenResponse>, meanwhile: map<string, Provider>)
    requires 0 in s.tasks && s.issuedTo == map[] && s.tasks[0].stage.MustExchange? && s.tasks[0].kind.Proxy?
    ensures var t, done := s.tasks[0], HasWritten(s, response, meanwhile);
            0 in done.tasks && EffectOf(done)
                == ProxyExchange(t.id, t.stage.seen.refreshToken, t.lease, t.stage.at, response, meanwhile)
  {
    var t := s.tasks[0];
    var exchanged := M.Next(s, M.Exchange(0, response)).(rows := meanwhile);
    assert M.Unchanged(exchanged, exchanged.tasks[0]) <==> Holds(meanwhile, t.id, t.stage.seen.refreshToken);
  }

  lemma ConsoleExchangeIsAStep(s: M.State, response: Option<M.TokenResponse>, meanwhile: map<string, Provider>)
    requires 0 in s.tasks && s.issuedTo == map[] && s.tasks[0].stage.MustExchange? && s.tasks[0].kind.Console?
    ensures var t, done := s.tasks[0], HasWritten(s, response, meanwhile);
            0 in done.tasks && EffectOf(done)
                == ConsoleEffect(map[t.id := t.stage.seen], t.id, t.lease, s.clock, response, meanwhile)
  {
  }

  /** The whole life of a task: adopt, fail, or exchange and write. */
  function Outcome(s: M.State, now: int, response: Option<M.TokenResponse>, meanwhile: map<string, Provider>): M.State
    requires 0 in s.tasks && (s.tasks[0].stage.Queued? || s.tasks[0].stage.Ready?)
    requires s.locks == map[] && s.clock <= now && s.issuedTo == map[]
  {
    if s.tasks[0].stage.Ready? then s
    else
      var read := HasRead(s, now);
      if read.tasks[0].stage.MustExchange? then HasWritten(read, response, meanwhile) else read
  }

  /** The functions below do what the protocol's steps do, one after the other. */
  lemma EffectsAreOutcomes(rows: map<string, Provider>, kind: M.Kind, id: string, lease: Credentials, before: int,
      now: int,
                           response: Option<M.TokenResponse>, meanwhile: map<string, Provider>)
    requires before <= now
    ensures var s := Started(rows, kind, id, lease, before);
            && 0 in s.tasks && (s.tasks[0].stage.Queued? || s.tasks[0].stage.Ready?) && s.locks == map[]
                && s.clock <= now && s.issuedTo == map[]
            && 0 in Outcome(s, now, response, meanwhile).tasks
            && EffectOf(Outcome(s, now, response, meanwhile)) ==
               if kind.Proxy? then ProxyEffect(rows, id, lease, before, now, response, meanwhile)
               else ConsoleEffect(rows, id, lease, now, response, meanwhile)
  {
    ReadingIsAStep(rows, kind, id, lease, before, now);
    var s := Started(rows, kind, id, lease, before);
    if s.tasks[0].stage.Queued? {
      var read := HasRead(s, now);
      if read.tasks[0].stage.MustExchange? {
        if kind.Proxy? {
          ProxyExchangeIsAStep(read, response, meanwhile);
        } else {
          ConsoleExchangeIsAStep(read, response, meanwhile);
        }
      }
    }
  }

  // ----- What they leave

  predicate OnlyChanges(id: string, before: map<string, Provider>, after: map<string, Provider>) {
    id in before && after.Keys == before.Keys && forall p :: p in before && p != id ==> after[p] == before[p]
  }

  /**
   What a request's exchange comes to. It succeeds if the response does and the row still holds the token
   read; the provider is then in service with the response's credentials, which the lease has too. A refusal
   takes such a row out of service. A row that holds another token is left alone, and so is the lease.
   */
  ghost predicate Exchanged(id: string, token: string, lease: Credentials, now: int,
                            response: Option<M.TokenResponse>, meanwhile: map<string, Provider>, effect: Effect) {
    && (effect.ok <==> response.Some? && Holds(meanwhile, id, token))
    && (Holds(meanwhile, id, token) ==> OnlyChanges(id, meanwhile, effect.rows))
    && (effect.ok ==>
          && PutInService(meanwhile[id], effect.rows[id], effect.lease, now)
          && effect.rows[id].cooldownUntil == meanwhile[id].cooldownUntil
          && M.Yields(response.value, now, lease.accountId, effect.lease))
    && (Holds(meanwhile, id, token) && response.None? ==> TakenOutOfService(meanwhile[id], effect.rows[id], now))
    && (!Holds(meanwhile, id, token) ==> effect.rows == meanwhile)
    && (!effect.ok ==> effect.lease == lease)
  }

  /** An unexpired lease stays; a deleted row fails; an unexpired row is adopted; anything else is exchanged. */
  ghost predicate Maintained(rows: map<string, Provider>, id: string, lease: Credentials, before: int, now: int,
                             response: Option<M.TokenResponse>, meanwhile: map<string, Provider>, effect: Effect) {
    if lease.expiresAt.None? || lease.expiresAt.value > before + 60
    then effect.ok && effect.rows == rows && effect.lease == lease
    else if id !in rows then !effect.ok && effect.rows == rows && effect.lease == lease
    else if rows[id].expiresAt.Some? && rows[id].expiresAt.value > now + 60
    then effect.ok && effect.rows == rows && effect.lease == CredentialsOf(rows[id])
    else Exchanged(id, rows[id].refreshToken, lease, now, response, meanwhile, effect)
  }

  lemma ProxyEffectMaintains(rows: map<string, Provider>, id: string, lease: Credentials, before: int, now: int,
                             response: Option<M.TokenResponse>, meanwhile: map<string, Provider>)
    ensures Maintained(rows, id, lease, before, now, response, meanwhile,
                       ProxyEffect(rows, id, lease, before, now, response, meanwhile))
  {
  }

  // ----- The code

  /** From the exchange on: the row and then the lease are written, if the row still holds the token read. */
  method Exchange(table: ProviderTable, lease: LeaseCredentials, refreshToken: string, now: int,
                  response: Option<M.TokenResponse>, meanwhile: map<string, Provider>) returns (ok: bool)
    modifies table, lease
    ensures Effect(table.rows, lease.Value(), ok) ==
            ProxyExchange(lease.id, refreshToken, old(lease.Value()), now, response, meanwhile)
  {
    table.rows := meanwhile;
    if response.None? {
      var _ := table.UpdateIfToken(lease.id, refreshToken, (row: Provider) =>
        row.(status := AuthError, lastError := Some("credential refresh failed"), updatedAt := now));
      return false;
    }
    var token := response.value;
    var accountId := if token.accountId.Some? then token.accountId.value else lease.accountId;
    var expiresAt := now + token.expiresIn;
    ok := table.UpdateIfToken(lease.id, refreshToken, (row: Provider) =>
      row.(accessToken := token.accessToken, refreshToken := token.refreshToken, accountId := accountId,
           expiresAt := Some(expiresAt), status := Active, lastError := None, updatedAt := now));
    if !ok {
      return false;
    }
    lease.accessToken, lease.refreshToken := token.accessToken, token.refreshToken;
    lease.accountId, lease.expiresAt := accountId, Some(expiresAt);
  }

  /** `before` is the clock at the first look at the lease, `now` the clock under the lock. */
  method RefreshIfNeeded(table: ProviderTable, lease: LeaseCredentials, before: int, now: int,
                         response: Option<M.TokenResponse>, meanwhile: map<string, Provider>) returns (ok: bool)
    requires before <= now
    modifies table, lease
    ensures Effect(table.rows, lease.Value(), ok) ==
            ProxyEffect(old(table.rows), lease.id, old(lease.Value()), before, now, response, meanwhile)
    ensures Maintained(old(table.rows), lease.id, old(lease.Value()), before, now, response, meanwhile,
                       Effect(table.rows, lease.Value(), ok))
  {
    ProxyEffectMaintains(table.rows, lease.id, lease.Value(), before, now, response, meanwhile);
    if lease.expiresAt.None? || lease.expiresAt.value > before + 60 {
      return true;
    }
    if lease.id !in table.rows {
      return false;
    }
    var current := table.rows[lease.id];
    if current.expiresAt.Some? && current.expiresAt.value > now + 60 {
      lease.accessToken, lease.refreshToken := current.accessToken, current.refreshToken;
      lease.expiresAt, lease.accountId := current.expiresAt, current.accountId;
      return true;
    }
    ok := Exchange(table, lease, current.refreshToken, now, response, meanwhile);
  }

  /** The console refreshes unconditionally and clears the cooldown; `now` is read after the exchange. */
  method RefreshProvider(table: ProviderTable, id: string, lease: Credentials, now: int,
                         response: Option<M.TokenResponse>, meanwhile: map<string, Provider>) returns (ok: bool)
    modifies table
    ensures var effect := ConsoleEffect(old(table.rows), id, lease, now, response, meanwhile);
            table.rows == effect.rows && ok == effect.ok
    ensures id !in old(table.rows) ==> !ok && table.rows == old(table.rows)
    ensures id in old(table.rows) ==>
              && (ok <==> response.Some? && Holds(meanwhile, id, old(table.rows)[id].refreshToken))
              && (ok ==>
                    && OnlyChanges(id, meanwhile, table.rows) && table.rows[id].cooldownUntil == None
                    && PutInService(meanwhile[id], table.rows[id], CredentialsOf(table.rows[id]), now)
                    && M.Yields(response.value, now, old(table.rows)[id].accountId, CredentialsOf(table.rows[id])))
              && (!ok ==> table.rows == meanwhile)
  {
    if id !in table.rows {
      return false;
    }
    var current := table.rows[id];
    table.rows := meanwhile;
    if response.None? {
      return false;
    }
    var token := response.value;
    var accountId := if token.accountId.Some? then token.accountId.value else current.accountId;
    ok := table.UpdateIfToken(id, current.refreshToken, (row: Provider) =>
      row.(accessToken := token.accessToken, refreshToken := token.refreshToken, accountId := accountId,
           expiresAt := Some(now + token.expiresIn), status := if row.manualDisabled then Disabled else Active,
           cooldownUntil := None, lastError := None, updatedAt := now));
  }
}
