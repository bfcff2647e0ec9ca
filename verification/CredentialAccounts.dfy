/**
 Whose account a refresh writes. Every refresh token was issued for one account; this follows the
 runs of `CredentialRefresh` and says when rows and leases keep naming the account of their token.
 */
module CredentialAccounts {
  import opened Options
  import opened Providers
  import opened Database
  import opened CredentialRefresh

  /** The account each refresh token was issued for. */
  type Accounts = map<string, string>

  /** The account of the token a response carries: the one it names, else that of the token exchanged. */
  function AccountFor(a: Accounts, response: TokenResponse, seen: Provider): string {
    response.accountId.GetOr(if seen.refreshToken in a then a[seen.refreshToken] else seen.accountId)
  }

  function Learned(a: Accounts, token: string, account: string): Accounts {
    if token in a then a else a[token := account]
  }

  /** What a step tells about accounts; operators bring a token and its account together. */
  function Noted(s: State, a: Accounts, step: Step): Accounts
    requires Enabled(s, step)
  {
    match step
    case Exchange(task, Some(response)) =>
      a[response.refreshToken := AccountFor(a, response, s.tasks[task].stage.seen)]
    case Replace(_, c) => Learned(a, c.refreshToken, c.accountId)
    case Add(_, row) => Learned(a, row.refreshToken, row.accountId)
    case _ => a
  }

  predicate Unmixed(a: Accounts, c: Credentials) {
    c.refreshToken in a && a[c.refreshToken] == c.accountId
  }

  /** No row version ever stored pairs a refresh token with another token's account. */
  ghost predicate VersionsUnmixed(s: State, a: Accounts) {
    forall id, c :: id in s.versions && c in s.versions[id] ==> Unmixed(a, c)
  }

  /** Nor does a version a task has read, or what it is about to store. */
  predicate TaskUnmixed(s: State, a: Accounts, t: nat)
    requires t in s.tasks
  {
    var stage := s.tasks[t].stage;
    && (Seen(stage) ==> Unmixed(a, CredentialsOf(stage.seen)))
    && (stage.MustWrite? ==> Unmixed(a, stage.issued))
  }

  ghost predicate AllUnmixed(s: State, a: Accounts) {
    && a.Keys <= s.issuedTo.Keys && VersionsUnmixed(s, a)
    && forall t :: t in s.tasks ==> TaskUnmixed(s, a, t)
  }

  /**
   What an exchange needs to get the account right. A console task falls back on the row it read, a
   request task on its lease, which must then be of the same account, unless the response names one.
   */
  predicate KnowsItsAccount(t: Task, response: TokenResponse)
    requires t.stage.MustExchange?
  {
    t.kind.Console? || response.accountId.Some? || t.lease.accountId == t.stage.seen.accountId
  }

  /** And what an operator needs: a token that is known comes with its own account. */
  predicate NamesItsAccount(s: State, a: Accounts, step: Step)
    requires Enabled(s, step)
  {
    match step
    case Exchange(task, Some(response)) => KnowsItsAccount(s.tasks[task], response)
    case Replace(_, c) => c.refreshToken in a ==> a[c.refreshToken] == c.accountId
    case Add(_, row) => row.refreshToken in a ==> a[row.refreshToken] == row.accountId
    case _ => true
  }

  // ----- Exchanges

  /** The credentials an exchange yields name the account of the token exchanged, or the one the response names, iff. */
  lemma ExchangeYieldsTheAccountIff(s: State, a: Accounts, task: nat, response: TokenResponse)
    requires Enabled(s, Exchange(task, Some(response))) && Unmixed(a, CredentialsOf(s.tasks[task].stage.seen))
    ensures var issued := Issue(s.tasks[task], response, s.clock);
            Unmixed(Noted(s, a, Exchange(task, Some(response))), issued)
            <==> KnowsItsAccount(s.tasks[task], response)
  {
  }

  lemma ExchangeStaysUnmixedIff(s: State, a: Accounts, task: nat, response: Option<TokenResponse>)
    requires AllUnmixed(s, a) && Enabled(s, Exchange(task, response))
    ensures AllUnmixed(Next(s, Exchange(task, response)), Noted(s, a, Exchange(task, response)))
            <==> NamesItsAccount(s, a, Exchange(task, response))
  {
    var n, b := Next(s, Exchange(task, response)), Noted(s, a, Exchange(task, response));
    assert TaskUnmixed(s, a, task);
    forall t | t in s.tasks && t != task ensures TaskUnmixed(n, b, t) {
      assert TaskUnmixed(s, a, t);
    }
    forall id, c | id in s.versions && c in s.versions[id] ensures Unmixed(b, c) {
      assert Unmixed(a, c);
    }
    if response.Some? {
      ExchangeYieldsTheAccountIff(s, a, task, response.value);
      assert TaskUnmixed(n, b, task) <==> KnowsItsAccount(s.tasks[task], response.value);
    }
  }

  // ----- Every other step

  lemma ReadsStayUnmixed(s: State, a: Accounts, task: nat)
    requires Inv(s) && AllUnmixed(s, a) && Enabled(s, Read(task))
    ensures AllUnmixed(Next(s, Read(task)), a)
  {
    if s.tasks[task].id in s.rows { assert RowOk(s, s.tasks[task].id); }
    forall t | t in Next(s, Read(task)).tasks ensures TaskUnmixed(Next(s, Read(task)), a, t) {
      assert TaskUnmixed(s, a, t);
    }
  }

  lemma ArrivalsStayUnmixed(s: State, a: Accounts, step: Step)
    requires AllUnmixed(s, a) && Enabled(s, step) && (step.Tick? || step.Start? || step.Lock? || step.Cancel?)
    ensures AllUnmixed(Next(s, step), a)
  {
    forall t | t in Next(s, step).tasks ensures TaskUnmixed(Next(s, step), a, t) {
      if t in s.tasks { assert TaskUnmixed(s, a, t); }
    }
  }

  lemma WritesStayUnmixed(s: State, a: Accounts, step: Step)
    requires Inv(s) && AllUnmixed(s, a) && Enabled(s, step) && (step.Write? || step.Report?)
    ensures AllUnmixed(Next(s, step), a)
  {
    if s.tasks[step.task].id in s.rows { assert RowOk(s, s.tasks[step.task].id); }
    assert TaskUnmixed(s, a, step.task);
    forall t | t in Next(s, step).tasks ensures TaskUnmixed(Next(s, step), a, t) {
      assert TaskUnmixed(s, a, t);
    }
  }

  lemma OperatorsLeaveTasksUnmixed(s: State, a: Accounts, step: Step, t: nat)
    requires OfOperator(step) && Enabled(s, step) && t in s.tasks && TaskUnmixed(s, a, t)
    ensures TaskUnmixed(Next(s, step), Noted(s, a, step), t)
  {
  }

  lemma OperatorVersions(s: State, a: Accounts, step: Step, id: string, c: Credentials)
    requires Inv(s) && VersionsUnmixed(s, a) && OfOperator(step) && Enabled(s, step)
    requires id in Next(s, step).versions && c in Next(s, step).versions[id] && NamesItsAccount(s, a, step)
    ensures Unmixed(Noted(s, a, step), c)
  {
    if step.Touch? { assert RowOk(s, step.id); }
    if id in s.versions && c in s.versions[id] { assert Unmixed(a, c); }
  }

  lemma BroughtIsStored(s: State, a: Accounts, step: Step)
    requires (step.Replace? || step.Add?) && Enabled(s, step) && VersionsUnmixed(Next(s, step), Noted(s, a, step))
    ensures NamesItsAccount(s, a, step)
  {
    var brought := if step.Replace? then step.credentials else CredentialsOf(step.row);
    assert brought in Next(s, step).versions[step.id];
    assert Unmixed(Noted(s, a, step), brought);
  }

  lemma OperatorsStayUnmixedIff(s: State, a: Accounts, step: Step)
    requires Inv(s) && AllUnmixed(s, a) && Enabled(s, step) && OfOperator(step)
    ensures AllUnmixed(Next(s, step), Noted(s, a, step)) <==> NamesItsAccount(s, a, step)
  {
    var n, b := Next(s, step), Noted(s, a, step);
    forall t | t in n.tasks ensures TaskUnmixed(n, b, t) {
      OperatorsLeaveTasksUnmixed(s, a, step, t);
    }
    if NamesItsAccount(s, a, step) {
      forall id, c | id in n.versions && c in n.versions[id] ensures Unmixed(b, c) {
        OperatorVersions(s, a, step, id, c);
      }
    } else if VersionsUnmixed(n, b) {
      BroughtIsStored(s, a, step);
    }
  }

  lemma StepStaysUnmixedIff(s: State, a: Accounts, step: Step)
    requires Inv(s) && AllUnmixed(s, a) && Enabled(s, step)
    ensures AllUnmixed(Next(s, step), Noted(s, a, step)) <==> NamesItsAccount(s, a, step)
  {
    match step
    case Exchange(task, response) => ExchangeStaysUnmixedIff(s, a, task, response);
    case Write(_) => WritesStayUnmixed(s, a, step);
    case Report(_) => WritesStayUnmixed(s, a, step);
    case Replace(_, _) => OperatorsStayUnmixedIff(s, a, step);
    case Touch(_, _) => OperatorsStayUnmixedIff(s, a, step);
    case Add(_, _) => OperatorsStayUnmixedIff(s, a, step);
    case Remove(_) => OperatorsStayUnmixedIff(s, a, step);
    case Read(task) => ReadsStayUnmixed(s, a, task);
    case _ => ArrivalsStayUnmixed(s, a, step);
  }

  // ----- Runs

  ghost predicate UnmixedThroughout(s: State, a: Accounts, steps: seq<Step>)
    requires IsRun(s, steps)
    decreases |steps|
  {
    AllUnmixed(s, a) && (steps != [] ==> UnmixedThroughout(Next(s, steps[0]), Noted(s, a, steps[0]), steps[1..]))
  }

  ghost predicate AccountsKnownThroughout(s: State, a: Accounts, steps: seq<Step>)
    requires IsRun(s, steps)
    decreases |steps|
  {
    steps != [] ==>
      && NamesItsAccount(s, a, steps[0])
      && AccountsKnownThroughout(Next(s, steps[0]), Noted(s, a, steps[0]), steps[1..])
  }

  /**
   Throughout a run every version pairs each refresh token with its own account if and only if every
   exchange of a request task that got no account from the response held a lease of the account it read, and
   operators brought no known token with another account.
   */
  lemma {:induction false} AccountsStayUnmixedIff(s: State, a: Accounts, steps: seq<Step>)
    requires Inv(s) && AllUnmixed(s, a) && IsRun(s, steps)
    ensures UnmixedThroughout(s, a, steps) <==> AccountsKnownThroughout(s, a, steps)
    decreases |steps|
  {
    if steps != [] {
      StepKeeps(s, steps[0]);
      StepStaysUnmixedIff(s, a, steps[0]);
      if NamesItsAccount(s, a, steps[0]) {
        AccountsStayUnmixedIff(Next(s, steps[0]), Noted(s, a, steps[0]), steps[1..]);
      }
    }
  }

  ghost function AccountsAfter(s: State, a: Accounts, steps: seq<Step>): Accounts
    requires IsRun(s, steps)
    decreases |steps|
  {
    if steps == [] then a else AccountsAfter(Next(s, steps[0]), Noted(s, a, steps[0]), steps[1..])
  }

  lemma {:induction false} UnmixedAtTheEnd(s: State, a: Accounts, steps: seq<Step>)
    requires IsRun(s, steps) && UnmixedThroughout(s, a, steps)
    ensures AllUnmixed(After(s, steps), AccountsAfter(s, a, steps))
    decreases |steps|
  {
    if steps != [] {
      UnmixedAtTheEnd(Next(s, steps[0]), Noted(s, a, steps[0]), steps[1..]);
    }
  }

  /** In such a run a finished lease names the account its refresh token was issued for. */
  lemma LeasesNameTheirAccount(s: State, a: Accounts, steps: seq<Step>, task: nat)
    requires Initial(s) && AllUnmixed(s, a) && IsRun(s, steps) && AccountsKnownThroughout(s, a, steps)
    requires task in After(s, steps).tasks && After(s, steps).tasks[task].stage.Ready?
    ensures Unmixed(AccountsAfter(s, a, steps), After(s, steps).tasks[task].lease)
  {
    LeasesComeFromOneVersion(s, steps, task);
    AccountsStayUnmixedIff(s, a, steps);
    UnmixedAtTheEnd(s, a, steps);
  }

  // ----- A stale lease

  const LEASED := Credentials("a1", "r1", "A", Some(0))
  const BROUGHT := Credentials("a2", "r2", "B", None)
  const RESPONSE := TokenResponse("a3", "r3", 3600, None)

  const FIRST := [Start(0, Proxy, "p", LEASED), Replace("p", BROUGHT)]
  const SECOND := [Lock(0), Read(0), Exchange(0, Some(RESPONSE)), Write(0)]

  function StartUp(row: Provider): State {
    State(map["p" := row], map["p" := {CredentialsOf(row)}], map[], map[], {}, map[row.refreshToken := "p"], 0)
  }

  /** A request leases under account A; then an operator moves the provider to account B. */
  lemma OperatorMovesTheProvider(row: Provider)
    requires CredentialsOf(row) == LEASED
    ensures IsRun(StartUp(row), FIRST)
    ensures var s := After(StartUp(row), FIRST);
            && s.locks == map[] && s.clock == 0 && s.used == {} && s.issuedTo == map["r1" := "p", "r2" := "p"]
            && "p" in s.rows && CredentialsOf(s.rows["p"]) == BROUGHT
            && s.tasks == map[0 := Task(Proxy, "p", LEASED, Queued)]
  {
    var s := StartUp(row);
    Taken(Next(s, FIRST[0]), FIRST[1], []);
    Taken(s, FIRST[0], [FIRST[1]]);
    assert FIRST == [FIRST[0]] + [FIRST[1]] && [FIRST[1]] + [] == [FIRST[1]];
  }

  predicate AboutToExchange(s: State) {
    && s.issuedTo == map["r1" := "p", "r2" := "p"]
    && "p" in s.rows && CredentialsOf(s.rows["p"]) == BROUGHT
    && 0 in s.tasks && s.tasks[0] == Task(Proxy, "p", LEASED, MustExchange(s.rows["p"], 0))
  }

  lemma ExchangeWritesTheOldAccount(s: State)
    requires AboutToExchange(s)
    ensures IsRun(s, SECOND[2..])
    ensures var n := After(s, SECOND[2..]);
            && n.used == s.used + {"r2"}
            && "p" in n.rows && CredentialsOf(n.rows["p"]) == Credentials("a3", "r3", "A", Some(3600))
            && 0 in n.tasks && n.tasks[0].stage.Ready? && n.tasks[0].lease == CredentialsOf(n.rows["p"])
  {
    var exchanged := Next(s, SECOND[2]);
    Taken(exchanged, SECOND[3], []);
    Taken(s, SECOND[2], [SECOND[3]] + []);
    assert SECOND[2..] == [SECOND[2]] + ([SECOND[3]] + []);
  }

  lemma RequestExchangesTheNewToken(s: State)
    requires s.locks == map[] && s.clock == 0 && s.issuedTo == map["r1" := "p", "r2" := "p"]
    requires "p" in s.rows && CredentialsOf(s.rows["p"]) == BROUGHT
    requires s.tasks == map[0 := Task(Proxy, "p", LEASED, Queued)]
    ensures IsRun(s, SECOND)
    ensures var n := After(s, SECOND);
            && n.used == s.used + {"r2"}
            && "p" in n.rows && CredentialsOf(n.rows["p"]) == Credentials("a3", "r3", "A", Some(3600))
            && 0 in n.tasks && n.tasks[0].stage.Ready? && n.tasks[0].lease == CredentialsOf(n.rows["p"])
  {
    var read := Next(Next(s, SECOND[0]), SECOND[1]);
    assert AboutToExchange(read) && read.used == s.used;
    ExchangeWritesTheOldAccount(read);
    Taken(Next(s, SECOND[0]), SECOND[1], SECOND[2..]);
    Taken(s, SECOND[0], [SECOND[1]] + SECOND[2..]);
    assert SECOND == [SECOND[0]] + ([SECOND[1]] + SECOND[2..]);
  }

  /**
   The request then exchanges B's refresh token and, as the response names no account, writes account A
   back, into row and lease.
   */
  lemma StaleLeaseOverwritesTheAccount(row: Provider)
    requires CredentialsOf(row) == LEASED
    ensures Initial(StartUp(row)) && AllUnmixed(StartUp(row), map["r1" := "A"]) && IsRun(StartUp(row), FIRST + SECOND)
    ensures var n := After(StartUp(row), FIRST + SECOND);
            && n.used == {"r2"}
            && "p" in n.rows && CredentialsOf(n.rows["p"]) == Credentials("a3", "r3", "A", Some(3600))
            && 0 in n.tasks && n.tasks[0].stage.Ready? && n.tasks[0].lease == CredentialsOf(n.rows["p"])
  {
    var s := StartUp(row);
    assert RowOk(s, "p");
    OperatorMovesTheProvider(row);
    RequestExchangesTheNewToken(After(s, FIRST));
    Joined(s, FIRST, SECOND);
  }
}
