/**
 The credential refresh protocol. Any number of request tasks and console tasks refresh the same
 providers under one mutex per provider: read the row, exchange its refresh token (the grant of
 section 6 of RFC 6749), write back only if the row still holds that token. Operators write rows
 without the mutex. Every database statement, lock operation and token exchange is one step.
 */
module CredentialRefresh {
  import opened Options
  import opened Providers
  import opened Database

  datatype Kind = Proxy | Console

  datatype Stage =
    | Queued
    | Holding
    | MustExchange(seen: Provider, at: int)
    | MustWrite(seen: Provider, at: int, issued: Credentials)
    | MustReport(seen: Provider, at: int)
    | Ready
    | Failed

  datatype Task = Task(kind: Kind, id: string, lease: Credentials, stage: Stage)

  /** A successful token response; `accountId` is what the access token's claims name, if anything. */
  datatype TokenResponse = TokenResponse(accessToken: string, refreshToken: string, expiresIn: int,
      accountId: Option<string>)

  /**
   `versions` holds every credential set a row ever held, `used` the refresh tokens exchanged
   successfully, `issuedTo` every refresh token ever seen with its provider.
   */
  datatype State = State(
    rows: map<string, Provider>,
    versions: map<string, set<Credentials>>,
    locks: map<string, nat>,
    tasks: map<nat, Task>,
    used: set<string>,
    issuedTo: map<string, string>,
    clock: int)

  datatype Step =
    | Tick(now: int)
    | Start(task: nat, kind: Kind, id: string, lease: Credentials)
    | Lock(task: nat)
    | Read(task: nat)
    | Exchange(task: nat, response: Option<TokenResponse>)
    | Write(task: nat)
    | Report(task: nat)
    | Cancel(task: nat)
    | Replace(id: string, credentials: Credentials)
    | Touch(id: string, row: Provider)
    | Add(id: string, row: Provider)
    | Remove(id: string)

  const REFRESH_MARGIN := 60

  predicate GoodUntilMargin(expiresAt: Option<int>, now: int) {
    expiresAt.Some? && expiresAt.value > now + REFRESH_MARGIN
  }

  predicate HoldsLock(stage: Stage) {
    stage.Holding? || Seen(stage)
  }

  predicate Seen(stage: Stage) {
    stage.MustExchange? || stage.MustWrite? || stage.MustReport?
  }

  predicate At(s: State, task: nat) {
    task in s.tasks
  }

  predicate Enabled(s: State, step: Step) {
    match step
    case Tick(now) => s.clock <= now
    case Start(task, _, id, lease) => task !in s.tasks && id in s.versions && lease in s.versions[id]
    case Lock(task) => At(s, task) && s.tasks[task].stage.Queued? && s.tasks[task].id !in s.locks
    case Read(task) => At(s, task) && s.tasks[task].stage.Holding?
    case Exchange(task, response) =>
      At(s, task) && s.tasks[task].stage.MustExchange?
          && (response.Some? ==> response.value.refreshToken !in s.issuedTo)
    case Write(task) => At(s, task) && s.tasks[task].stage.MustWrite?
    case Report(task) => At(s, task) && s.tasks[task].stage.MustReport?
    case Cancel(task) => At(s, task)
        && (s.tasks[task].stage.Queued? || (HoldsLock(s.tasks[task].stage) && !s.tasks[task].stage.MustWrite?))
    case Replace(id, _) => id in s.rows
    case Touch(id, row) => id in s.rows && CredentialsOf(row) == CredentialsOf(s.rows[id])
    case Add(id, _) => id !in s.versions
    case Remove(_) => true
  }

  // ----- Helpers of the steps

  function MoveTo(s: State, task: nat, stage: Stage): State
    requires At(s, task)
  {
    s.(tasks := s.tasks[task := s.tasks[task].(stage := stage)])
  }

  /** Ends a task that holds the lock. */
  function Finish(s: State, task: nat, done: Task): State
    requires At(s, task)
  {
    s.(tasks := s.tasks[task := done], locks := s.locks - {s.tasks[task].id})
  }

  function Store(s: State, id: string, row: Provider): State {
    s.(rows := s.rows[id := row],
       versions := s.versions[id := (if id in s.versions then s.versions[id] else {}) + {CredentialsOf(row)}])
  }

  /** The credentials a response yields: the account falls back on the lease (proxy) or the row (console). */
  function Issue(task: Task, response: TokenResponse, now: int): Credentials
    requires task.stage.MustExchange?
  {
    var fallback := if task.kind.Proxy? then task.lease.accountId else task.stage.seen.accountId;
    var from := if task.kind.Proxy? then task.stage.at else now;
    Credentials(response.accessToken, response.refreshToken, response.accountId.GetOr(fallback),
        Some(from + response.expiresIn))
  }

  /** An operator brings a refresh token, which may have been seen before. */
  function Known(s: State, id: string, token: string): State {
    if token in s.issuedTo then s else s.(issuedTo := s.issuedTo[token := id])
  }

  predicate Unchanged(s: State, task: Task)
    requires Seen(task.stage)
  {
    task.id in s.rows && s.rows[task.id].refreshToken == task.stage.seen.refreshToken
  }

  function Next(s: State, step: Step): State
    requires Enabled(s, step)
  {
    match step
    case Tick(now) => s.(clock := now)
    case Start(task, kind, id, lease) =>
      var ready := kind.Proxy? && (lease.expiresAt.None? || GoodUntilMargin(lease.expiresAt, s.clock));
      s.(tasks := s.tasks[task := Task(kind, id, lease, if ready then Ready else Queued)])
    case Lock(task) => MoveTo(s.(locks := s.locks[s.tasks[task].id := task]), task, Holding)
    case Read(task) =>
      var t := s.tasks[task];
      if t.id !in s.rows then Finish(s, task, t.(stage := Failed))
      else if t.kind.Proxy? && GoodUntilMargin(s.rows[t.id].expiresAt, s.clock) then
        Finish(s, task, t.(stage := Ready, lease := CredentialsOf(s.rows[t.id])))
      else MoveTo(s, task, MustExchange(s.rows[t.id], s.clock))
    case Exchange(task, response) =>
      var t := s.tasks[task];
      if response.Some? then
        var issued := Issue(t, response.value, s.clock);
        MoveTo(s.(used := s.used + {t.stage.seen.refreshToken}, issuedTo := s.issuedTo[issued.refreshToken := t.id]),
               task, MustWrite(t.stage.seen, if t.kind.Proxy? then t.stage.at else s.clock, issued))
      else if t.kind.Proxy? then MoveTo(s, task, MustReport(t.stage.seen, t.stage.at))
      else Finish(s, task, t.(stage := Failed))
    case Write(task) =>
      var t := s.tasks[task];
      if !Unchanged(s, t) then Finish(s, task, t.(stage := Failed))
      else
        var row := if t.kind.Proxy? then ProxyRefreshedRow(s.rows[t.id], t.stage.issued, t.stage.at)
                   else ConsoleCredentialRow(s.rows[t.id], t.stage.issued, t.stage.at);
        Finish(Store(s, t.id, row), task, t.(stage := Ready, lease := t.stage.issued))
    case Report(task) =>
      var t := s.tasks[task];
      var written := if Unchanged(s, t) then Store(s, t.id, ProxyRefusedRow(s.rows[t.id], t.stage.at)) else s;
      Finish(written, task, t.(stage := Failed))
    case Cancel(task) =>
      var t := s.tasks[task];
      if HoldsLock(t.stage) then Finish(s, task, t.(stage := Failed)) else MoveTo(s, task, Failed)
    case Replace(id, c) => Store(Known(s, id, c.refreshToken), id, ConsoleCredentialRow(s.rows[id], c, s.clock))
    case Touch(id, row) => Store(s, id, row)
    case Add(id, row) => Store(Known(s, id, row.refreshToken), id, row)
    case Remove(id) => s.(rows := s.rows - {id})
  }

  // ----- What every run keeps

  /** Locks are held by those who work under them, and every lease is of some version of its row. */
  predicate TaskOk(s: State, task: nat)
    requires task in s.tasks
  {
    var t := s.tasks[task];
    && (HoldsLock(t.stage) ==> t.id in s.locks && s.locks[t.id] == task)
    && t.id in s.versions && t.lease in s.versions[t.id]
  }

  predicate RowOk(s: State, id: string)
    requires id in s.rows
  {
    id in s.versions && CredentialsOf(s.rows[id]) in s.versions[id]
  }

  ghost predicate Inv(s: State) {
    && (forall t :: t in s.tasks ==> TaskOk(s, t))
    && (forall id :: id in s.rows ==> RowOk(s, id))
    && (forall id :: id in s.locks ==>
          s.locks[id] in s.tasks && s.tasks[s.locks[id]].id == id && HoldsLock(s.tasks[s.locks[id]].stage))
  }

  lemma ArrivalKeeps(s: State, step: Step)
    requires Inv(s) && Enabled(s, step) && (step.Tick? || step.Start? || step.Lock?)
    ensures Inv(Next(s, step))
  {
    var n := Next(s, step);
    forall t | t in n.tasks ensures TaskOk(n, t) {
      if t in s.tasks { assert TaskOk(s, t); }
    }
    forall id | id in n.rows ensures RowOk(n, id) {
      assert RowOk(s, id);
    }
  }

  lemma ReadKeepsTask(s: State, task: nat, t: nat)
    requires Enabled(s, Read(task)) && TaskOk(s, task) && t in s.tasks && TaskOk(s, t)
    requires s.tasks[task].id in s.rows ==> RowOk(s, s.tasks[task].id)
    ensures TaskOk(Next(s, Read(task)), t)
  {
  }

  lemma ReadKeeps(s: State, task: nat)
    requires Inv(s) && Enabled(s, Read(task))
    ensures Inv(Next(s, Read(task)))
  {
    var n := Next(s, Read(task));
    assert TaskOk(s, task);
    forall t | t in n.tasks ensures TaskOk(n, t) {
      if s.tasks[task].id in s.rows { assert RowOk(s, s.tasks[task].id); }
      ReadKeepsTask(s, task, t);
    }
    forall id | id in n.rows ensures RowOk(n, id) {
      assert RowOk(s, id);
    }
  }

  lemma ExchangeKeepsTask(s: State, step: Step, t: nat)
    requires (step.Exchange? || step.Cancel?) && Enabled(s, step) && TaskOk(s, step.task) && t in s.tasks
        && TaskOk(s, t)
    ensures TaskOk(Next(s, step), t)
  {
  }

  lemma ExchangeKeeps(s: State, task: nat, response: Option<TokenResponse>)
    requires Inv(s) && Enabled(s, Exchange(task, response))
    ensures Inv(Next(s, Exchange(task, response)))
  {
    var n := Next(s, Exchange(task, response));
    assert TaskOk(s, task);
    forall t | t in n.tasks ensures TaskOk(n, t) {
      ExchangeKeepsTask(s, Exchange(task, response), t);
    }
    forall id | id in n.rows ensures RowOk(n, id) {
      assert RowOk(s, id);
    }
  }

  lemma CancelKeeps(s: State, task: nat)
    requires Inv(s) && Enabled(s, Cancel(task))
    ensures Inv(Next(s, Cancel(task)))
  {
    var n := Next(s, Cancel(task));
    assert TaskOk(s, task);
    forall t | t in n.tasks ensures TaskOk(n, t) {
      ExchangeKeepsTask(s, Cancel(task), t);
    }
    forall id | id in n.rows ensures RowOk(n, id) {
      assert RowOk(s, id);
    }
  }

  lemma WriteKeepsTask(s: State, step: Step, t: nat)
    requires (step.Write? || step.Report?) && Enabled(s, step) && TaskOk(s, step.task) && t in s.tasks && TaskOk(s, t)
    ensures TaskOk(Next(s, step), t)
  {
  }

  lemma WriteKeepsRow(s: State, step: Step, id: string)
    requires (step.Write? || step.Report?) && Enabled(s, step) && TaskOk(s, step.task) && id in s.rows && RowOk(s, id)
    ensures RowOk(Next(s, step), id)
  {
  }

  lemma WriteKeeps(s: State, step: Step)
    requires Inv(s) && (step.Write? || step.Report?) && Enabled(s, step)
    ensures Inv(Next(s, step))
  {
    var n := Next(s, step);
    assert TaskOk(s, step.task);
    forall t | t in n.tasks ensures TaskOk(n, t) {
      WriteKeepsTask(s, step, t);
    }
    forall id | id in n.rows ensures RowOk(n, id) {
      WriteKeepsRow(s, step, id);
    }
  }

  predicate OfOperator(step: Step) {
    step.Replace? || step.Touch? || step.Add? || step.Remove?
  }

  lemma OperatorKeepsTask(s: State, step: Step, t: nat)
    requires OfOperator(step) && Enabled(s, step) && t in s.tasks && TaskOk(s, t)
    ensures TaskOk(Next(s, step), t)
  {
  }

  lemma OperatorKeeps(s: State, step: Step)
    requires Inv(s) && Enabled(s, step) && OfOperator(step)
    ensures Inv(Next(s, step))
  {
    var n := Next(s, step);
    forall t | t in n.tasks ensures TaskOk(n, t) {
      OperatorKeepsTask(s, step, t);
    }
    forall id | id in n.rows ensures RowOk(n, id) {
      if id in s.rows { assert RowOk(s, id); }
    }
  }

  lemma StepKeeps(s: State, step: Step)
    requires Inv(s) && Enabled(s, step)
    ensures Inv(Next(s, step))
  {
    match step
    case Exchange(task, response) => ExchangeKeeps(s, task, response);
    case Cancel(task) => CancelKeeps(s, task);
    case Write(_) => WriteKeeps(s, step);
    case Report(_) => WriteKeeps(s, step);
    case Read(task) => ReadKeeps(s, task);
    case Tick(_) => ArrivalKeeps(s, step);
    case Start(_, _, _, _) => ArrivalKeeps(s, step);
    case Lock(_) => ArrivalKeeps(s, step);
    case _ => OperatorKeeps(s, step);
  }

  // ----- Single flight

  predicate Belongs(s: State, token: string, id: string) {
    token in s.issuedTo && s.issuedTo[token] == id
  }

  /** A token a task has read is unused until it exchanges it; what it was issued stays unused. */
  predicate TaskUnused(s: State, task: nat)
    requires task in s.tasks
  {
    var t := s.tasks[task];
    && (Seen(t.stage) ==> Belongs(s, t.stage.seen.refreshToken, t.id))
    && (t.stage.MustExchange? || t.stage.MustReport? ==> t.stage.seen.refreshToken !in s.used)
    && (t.stage.MustWrite? ==>
          && t.stage.seen.refreshToken in s.used
          && Belongs(s, t.stage.issued.refreshToken, t.id) && t.stage.issued.refreshToken !in s.used)
  }

  /** The holder of the lock has exchanged the token and is about to write. */
  predicate BeingWritten(s: State, id: string, token: string) {
    && id in s.locks && s.locks[id] in s.tasks
    && s.tasks[s.locks[id]].stage.MustWrite? && s.tasks[s.locks[id]].stage.seen.refreshToken == token
  }

  /** A stored refresh token is unused, unless it is about to be replaced. */
  predicate RowUnused(s: State, id: string)
    requires id in s.rows
  {
    var token := s.rows[id].refreshToken;
    Belongs(s, token, id) && (token in s.used ==> BeingWritten(s, id, token))
  }

  ghost predicate Unused(s: State) {
    && (forall t :: t in s.tasks ==> TaskUnused(s, t))
    && (forall id :: id in s.rows ==> RowUnused(s, id))
    && (forall token :: token in s.used ==> token in s.issuedTo)
  }

  /** An operator may bring a token that is no other provider's, and not used, unless it is about to be replaced. */
  predicate MayBring(s: State, id: string, token: string) {
    (token in s.issuedTo ==> s.issuedTo[token] == id) && (token in s.used ==> BeingWritten(s, id, token))
  }

  predicate BringsUnused(s: State, step: Step) {
    match step
    case Replace(id, c) => MayBring(s, id, c.refreshToken)
    case Add(id, row) => MayBring(s, id, row.refreshToken)
    case _ => true
  }

  lemma ReadKeepsUnused(s: State, task: nat)
    requires Inv(s) && Unused(s) && Enabled(s, Read(task))
    ensures Unused(Next(s, Read(task)))
  {
    var n := Next(s, Read(task));
    assert TaskOk(s, task);
    if s.tasks[task].id in s.rows { assert RowUnused(s, s.tasks[task].id); }
    forall t | t in n.tasks ensures TaskUnused(n, t) {
      assert TaskUnused(s, t);
    }
    forall id | id in n.rows ensures RowUnused(n, id) {
      assert RowUnused(s, id);
    }
  }

  lemma ExchangeKeepsTaskUnused(s: State, task: nat, response: Option<TokenResponse>, t: nat)
    requires Inv(s) && Unused(s) && Enabled(s, Exchange(task, response)) && t in s.tasks
    ensures TaskUnused(Next(s, Exchange(task, response)), t)
  {
    assert TaskOk(s, task) && TaskOk(s, t) && TaskUnused(s, task) && TaskUnused(s, t);
  }

  lemma ExchangeKeepsUnused(s: State, task: nat, response: Option<TokenResponse>)
    requires Inv(s) && Unused(s) && Enabled(s, Exchange(task, response))
    ensures Unused(Next(s, Exchange(task, response)))
  {
    var n := Next(s, Exchange(task, response));
    forall t | t in n.tasks ensures TaskUnused(n, t) {
      ExchangeKeepsTaskUnused(s, task, response, t);
    }
    assert TaskOk(s, task) && TaskUnused(s, task);
    forall id | id in n.rows ensures RowUnused(n, id) {
      assert RowUnused(s, id);
    }
  }

  lemma WriteKeepsTaskUnused(s: State, step: Step, t: nat)
    requires Enabled(s, step) && (step.Write? || step.Report?) && t in s.tasks && TaskUnused(s, t)
    ensures TaskUnused(Next(s, step), t)
  {
  }

  lemma WriteKeepsRowUnused(s: State, step: Step, id: string)
    requires Inv(s) && Enabled(s, step) && (step.Write? || step.Report?) && TaskUnused(s, step.task)
    requires id in s.rows && RowUnused(s, id)
    ensures RowUnused(Next(s, step), id)
  {
    assert TaskOk(s, step.task);
  }

  lemma WriteKeepsUnused(s: State, step: Step)
    requires Inv(s) && Unused(s) && Enabled(s, step) && (step.Write? || step.Report?)
    ensures Unused(Next(s, step))
  {
    var n := Next(s, step);
    forall t | t in n.tasks ensures TaskUnused(n, t) {
      WriteKeepsTaskUnused(s, step, t);
    }
    forall id | id in n.rows ensures RowUnused(n, id) {
      WriteKeepsRowUnused(s, step, id);
    }
  }

  lemma MoveKeepsUnused(s: State, step: Step)
    requires Inv(s) && Unused(s) && Enabled(s, step) && (step.Tick? || step.Start? || step.Lock? || step.Cancel?)
    ensures Unused(Next(s, step))
  {
    var n := Next(s, step);
    if step.Cancel? { assert TaskOk(s, step.task); }
    forall t | t in n.tasks ensures TaskUnused(n, t) {
      if t in s.tasks { assert TaskUnused(s, t); }
    }
    forall id | id in n.rows ensures RowUnused(n, id) {
      assert RowUnused(s, id);
    }
  }

  lemma OperatorKeepsTaskUnused(s: State, step: Step, t: nat)
    requires OfOperator(step) && Enabled(s, step) && t in s.tasks && TaskUnused(s, t)
    ensures TaskUnused(Next(s, step), t)
  {
  }

  lemma OperatorKeepsRowUnused(s: State, step: Step, id: string)
    requires OfOperator(step) && Enabled(s, step) && id in s.rows && RowUnused(s, id)
    requires id != step.id || step.Touch?
    ensures id in Next(s, step).rows && RowUnused(Next(s, step), id)
  {
  }

  lemma BringingIff(s: State, step: Step)
    requires (step.Replace? || step.Add?) && Enabled(s, step)
    requires forall token :: token in s.used ==> token in s.issuedTo
    ensures RowUnused(Next(s, step), step.id) <==> BringsUnused(s, step)
  {
  }

  lemma OperatorKeepsUnusedIff(s: State, step: Step)
    requires Inv(s) && Unused(s) && Enabled(s, step) && OfOperator(step)
    ensures Unused(Next(s, step)) <==> BringsUnused(s, step)
  {
    var n := Next(s, step);
    forall t | t in n.tasks ensures TaskUnused(n, t) {
      OperatorKeepsTaskUnused(s, step, t);
    }
    forall id | id in n.rows && (id != step.id || step.Touch?) ensures RowUnused(n, id) {
      OperatorKeepsRowUnused(s, step, id);
    }
    if step.Replace? || step.Add? {
      BringingIff(s, step);
    }
  }

  /** Exactly what the operators must not do: bring back a used token, or another provider's. */
  lemma StepKeepsUnusedIff(s: State, step: Step)
    requires Inv(s) && Unused(s) && Enabled(s, step)
    ensures Unused(Next(s, step)) <==> BringsUnused(s, step)
  {
    match step
    case Read(task) => ReadKeepsUnused(s, task);
    case Exchange(task, response) => ExchangeKeepsUnused(s, task, response);
    case Write(_) => WriteKeepsUnused(s, step);
    case Report(_) => WriteKeepsUnused(s, step);
    case Replace(_, _) => OperatorKeepsUnusedIff(s, step);
    case Touch(_, _) => OperatorKeepsUnusedIff(s, step);
    case Add(_, _) => OperatorKeepsUnusedIff(s, step);
    case Remove(_) => OperatorKeepsUnusedIff(s, step);
    case _ => MoveKeepsUnused(s, step);
  }

  // ----- Runs

  ghost predicate IsRun(s: State, steps: seq<Step>)
    decreases |steps|
  {
    steps != [] ==> Enabled(s, steps[0]) && IsRun(Next(s, steps[0]), steps[1..])
  }

  ghost function After(s: State, steps: seq<Step>): State
    requires IsRun(s, steps)
    decreases |steps|
  {
    if steps == [] then s else After(Next(s, steps[0]), steps[1..])
  }

  lemma {:induction false} Joined(s: State, first: seq<Step>, second: seq<Step>)
    requires IsRun(s, first) && IsRun(After(s, first), second)
    ensures IsRun(s, first + second) && After(s, first + second) == After(After(s, first), second)
    decreases |first|
  {
    if first == [] {
      assert first + second == second;
    } else {
      assert (first + second)[1..] == first[1..] + second;
      Joined(Next(s, first[0]), first[1..], second);
    }
  }

  lemma Taken(s: State, step: Step, rest: seq<Step>)
    requires Enabled(s, step) && IsRun(Next(s, step), rest)
    ensures IsRun(s, [step] + rest) && After(s, [step] + rest) == After(Next(s, step), rest)
  {
    assert ([step] + rest)[1..] == rest;
  }

  /** Start-up: rows with distinct refresh tokens, no task, nothing exchanged yet. */
  ghost predicate Initial(s: State) {
    && s.tasks == map[] && s.locks == map[] && s.used == {}
    && forall id :: id in s.rows ==> RowOk(s, id) && Belongs(s, s.rows[id].refreshToken, id)
  }

  lemma {:induction false} RunKeeps(s: State, steps: seq<Step>)
    requires Inv(s) && IsRun(s, steps)
    ensures Inv(After(s, steps))
    decreases |steps|
  {
    if steps != [] {
      StepKeeps(s, steps[0]);
      RunKeeps(Next(s, steps[0]), steps[1..]);
    }
  }

  ghost predicate UnusedThroughout(s: State, steps: seq<Step>)
    requires IsRun(s, steps)
    decreases |steps|
  {
    Unused(s) && (steps != [] ==> UnusedThroughout(Next(s, steps[0]), steps[1..]))
  }

  ghost predicate BringsUnusedThroughout(s: State, steps: seq<Step>)
    requires IsRun(s, steps)
    decreases |steps|
  {
    steps != [] ==> BringsUnused(s, steps[0]) && BringsUnusedThroughout(Next(s, steps[0]), steps[1..])
  }

  /** Stored tokens stay unused throughout a run if and only if operators bring none that is used or another's. */
  lemma {:induction false} TokensStayUnusedIff(s: State, steps: seq<Step>)
    requires Inv(s) && Unused(s) && IsRun(s, steps)
    ensures UnusedThroughout(s, steps) <==> BringsUnusedThroughout(s, steps)
    decreases |steps|
  {
    if steps != [] {
      StepKeeps(s, steps[0]);
      StepKeepsUnusedIff(s, steps[0]);
      if BringsUnused(s, steps[0]) {
        TokensStayUnusedIff(Next(s, steps[0]), steps[1..]);
      }
    }
  }

  /** How often a run exchanges `token` successfully. */
  ghost function Exchanges(s: State, steps: seq<Step>, token: string): nat
    requires IsRun(s, steps)
    decreases |steps|
  {
    if steps == [] then 0
    else
      var step := steps[0];
      (if step.Exchange? && step.response.Some? && s.tasks[step.task].stage.seen.refreshToken == token then 1 else 0)
      + Exchanges(Next(s, step), steps[1..], token)
  }

  lemma {:induction false} ExchangedOnceFrom(s: State, steps: seq<Step>, token: string)
    requires Inv(s) && Unused(s) && IsRun(s, steps) && BringsUnusedThroughout(s, steps)
    ensures Exchanges(s, steps, token) <= if token in s.used then 0 else 1
    decreases |steps|
  {
    if steps != [] {
      StepKeeps(s, steps[0]);
      StepKeepsUnusedIff(s, steps[0]);
      ExchangedOnceFrom(Next(s, steps[0]), steps[1..], token);
      if steps[0].Exchange? { assert TaskUnused(s, steps[0].task); }
    }
  }

  /**
   Single flight: no refresh token value is exchanged successfully twice, whatever tasks do, and operators
   too, as long as they bring back no token that was used.
   */
  lemma NoTokenIsExchangedTwice(s: State, steps: seq<Step>, token: string)
    requires Initial(s) && IsRun(s, steps) && BringsUnusedThroughout(s, steps)
    ensures Exchanges(s, steps, token) <= 1
  {
    ExchangedOnceFrom(s, steps, token);
  }

  /** Access token, refresh token, account and expiry of a finished lease were stored together, in one row version. */
  lemma LeasesComeFromOneVersion(s: State, steps: seq<Step>, task: nat)
    requires Initial(s) && IsRun(s, steps)
    requires task in After(s, steps).tasks && After(s, steps).tasks[task].stage.Ready?
    ensures var n := After(s, steps);
            n.tasks[task].id in n.versions && n.tasks[task].lease in n.versions[n.tasks[task].id]
  {
    RunKeeps(s, steps);
    assert TaskOk(After(s, steps), task);
  }

  // ----- What a refresh leaves

  /** What a token response yields at `at`: its tokens, good for as long as it says, and its account if it names one. */
  ghost predicate Yields(response: TokenResponse, at: int, account: string, c: Credentials) {
    && c.accessToken == response.accessToken && c.refreshToken == response.refreshToken
    && (forall now :: GoodUntilMargin(c.expiresAt, now) <==> now + 60 < at + response.expiresIn)
    && c.accountId == response.accountId.GetOr(account)
  }

  /**
   A successful exchange yields the response's credentials; the time is that of the read, or of the console's
   reply.
   */
  lemma ExchangeYieldsTheResponse(s: State, task: nat, response: TokenResponse)
    requires Enabled(s, Exchange(task, Some(response)))
    ensures var t, n := s.tasks[task], Next(s, Exchange(task, Some(response))).tasks[task];
            && n.stage.MustWrite? && n.id == t.id && n.kind == t.kind && n.stage.seen == t.stage.seen
            && n.stage.at == (if t.kind.Proxy? then t.stage.at else s.clock)
            && Yields(response, n.stage.at, if t.kind.Proxy? then t.lease.accountId else t.stage.seen.accountId,
                      n.stage.issued)
  {
  }

  /**
   Where the row still holds the token that was read, what was issued puts the provider into service, and into
   the lease.
   */
  lemma WritePutsIntoService(s: State, task: nat)
    requires Enabled(s, Write(task)) && Unchanged(s, s.tasks[task])
    ensures var t, n := s.tasks[task], Next(s, Write(task));
            && n.rows.Keys == s.rows.Keys && (forall id :: id in s.rows && id != t.id ==> n.rows[id] == s.rows[id])
            && PutInService(s.rows[t.id], n.rows[t.id], t.stage.issued, t.stage.at)
            && (t.kind.Proxy? ==> n.rows[t.id].cooldownUntil == s.rows[t.id].cooldownUntil)
            && (t.kind.Console? ==> n.rows[t.id].cooldownUntil == None)
            && n.tasks[task].stage.Ready? && n.tasks[task].lease == t.stage.issued
  {
  }

  /** A refused refresh takes the provider out of service if the row is still the one that was read. */
  lemma ReportTakesOutOfService(s: State, task: nat)
    requires Enabled(s, Report(task))
    ensures var t, n := s.tasks[task], Next(s, Report(task));
            && n.rows.Keys == s.rows.Keys && (forall id :: id in s.rows && id != t.id ==> n.rows[id] == s.rows[id])
            && (Unchanged(s, t) ==> TakenOutOfService(s.rows[t.id], n.rows[t.id], t.stage.at))
            && (!Unchanged(s, t) ==> n.rows == s.rows)
            && n.tasks[task].stage.Failed? && n.tasks[task].lease == t.lease
  {
  }

  /** So do the tokens an operator brings. */
  lemma ReplacementPutsIntoService(s: State, id: string, c: Credentials)
    requires Enabled(s, Replace(id, c))
    ensures var n := Next(s, Replace(id, c));
            && n.rows.Keys == s.rows.Keys && (forall p :: p in s.rows && p != id ==> n.rows[p] == s.rows[p])
            && PutInService(s.rows[id], n.rows[id], c, s.clock) && n.rows[id].cooldownUntil == None
  {
  }

  /** Any other write of an operator concerns one row too. */
  lemma OperatorsChangeOneRow(s: State, step: Step)
    requires Enabled(s, step) && OfOperator(step)
    ensures var rows := Next(s, step).rows;
            && (forall id :: id != step.id ==>
                (id in rows <==> id in s.rows) && (id in rows ==> rows[id] == s.rows[id]))
            && (step.id in rows <==> !step.Remove?)
            && (step.Touch? || step.Add? ==> rows[step.id] == step.row)
  {
  }

  // ----- A token that is brought back

  /** A console task that nothing disturbs: up to its exchange, and from there. */
  function Beginning(t: nat, id: string, lease: Credentials): seq<Step> {
    [Start(t, Console, id, lease)] + ([Lock(t)] + ([Read(t)] + []))
  }

  function Settling(t: nat, response: TokenResponse): seq<Step> {
    [Exchange(t, Some(response))] + ([Write(t)] + [])
  }

  function Refresh(t: nat, id: string, lease: Credentials, response: TokenResponse): seq<Step> {
    Beginning(t, id, lease) + Settling(t, response)
  }

  /** The exchange and the write of a console task that has read the row. */
  lemma ExchangeRuns(s: State, t: nat, response: TokenResponse)
    requires At(s, t) && s.tasks[t].stage.MustExchange? && s.tasks[t].kind.Console?
        && response.refreshToken !in s.issuedTo
    requires s.tasks[t].id in s.rows && s.rows[s.tasks[t].id] == s.tasks[t].stage.seen && s.tasks[t].id in s.versions
    ensures IsRun(s, Settling(t, response))
    ensures Exchanges(s, Settling(t, response), s.tasks[t].stage.seen.refreshToken) >= 1
    ensures var n, id := After(s, Settling(t, response)), s.tasks[t].id;
            && n.tasks.Keys == s.tasks.Keys && n.locks == s.locks - {id} && n.rows.Keys == s.rows.Keys
            && id in n.versions && s.versions[id] <= n.versions[id]
            && n.issuedTo == s.issuedTo[response.refreshToken := id]
  {
    var exchange := Exchange(t, Some(response));
    Taken(Next(s, exchange), Write(t), []);
    Taken(s, exchange, [Write(t)] + []);
  }

  lemma LockAndReadRun(s: State, t: nat, id: string, lease: Credentials)
    requires t !in s.tasks && id in s.versions && lease in s.versions[id] && id in s.rows && id !in s.locks
    ensures IsRun(s, Beginning(t, id, lease))
    ensures After(s, Beginning(t, id, lease))
            == s.(tasks := s.tasks[t := Task(Console, id, lease, MustExchange(s.rows[id], s.clock))],
                  locks := s.locks[id := t])
  {
    var queued := Next(s, Start(t, Console, id, lease));
    var holding := Next(queued, Lock(t));
    Taken(holding, Read(t), []);
    Taken(queued, Lock(t), [Read(t)] + []);
    Taken(s, Start(t, Console, id, lease), [Lock(t)] + ([Read(t)] + []));
  }

  predicate Refreshed(s: State, n: State, t: nat, id: string, response: TokenResponse) {
    && n.tasks.Keys == s.tasks.Keys + {t} && n.locks == s.locks && n.rows.Keys == s.rows.Keys
    && id in s.versions && id in n.versions && s.versions[id] <= n.versions[id]
    && n.issuedTo == s.issuedTo[response.refreshToken := id]
  }

  predicate CanRefresh(s: State, t: nat, id: string, lease: Credentials, response: TokenResponse) {
    && t !in s.tasks && id in s.versions && lease in s.versions[id] && id in s.rows && id !in s.locks
    && response.refreshToken !in s.issuedTo
  }

  lemma RefreshIsDone(s: State, t: nat, id: string, lease: Credentials, response: TokenResponse)
    requires CanRefresh(s, t, id, lease, response)
    ensures var read := s.(tasks := s.tasks[t := Task(Console, id, lease, MustExchange(s.rows[id], s.clock))],
                           locks := s.locks[id := t]);
            && IsRun(read, Settling(t, response)) && Refreshed(s, After(read, Settling(t, response)), t, id, response)
            && Exchanges(read, Settling(t, response), s.rows[id].refreshToken) >= 1
  {
    var read := s.(tasks := s.tasks[t := Task(Console, id, lease, MustExchange(s.rows[id], s.clock))],
                   locks := s.locks[id := t]);
    ExchangeRuns(read, t, response);
    assert s.locks[id := t] - {id} == s.locks;
  }

  lemma RefreshRuns(s: State, t: nat, id: string, lease: Credentials, response: TokenResponse)
    requires CanRefresh(s, t, id, lease, response)
    ensures IsRun(s, Refresh(t, id, lease, response))
    ensures Refreshed(s, After(s, Refresh(t, id, lease, response)), t, id, response)
    ensures Exchanges(s, Refresh(t, id, lease, response), s.rows[id].refreshToken) >= 1
  {
    LockAndReadRun(s, t, id, lease);
    RefreshIsDone(s, t, id, lease, response);
    ExchangesAdd(s, Beginning(t, id, lease), Settling(t, response), s.rows[id].refreshToken);
  }

  lemma {:induction false} ExchangesAdd(s: State, first: seq<Step>, second: seq<Step>, token: string)
    requires IsRun(s, first) && IsRun(After(s, first), second)
    ensures IsRun(s, first + second)
    ensures After(s, first + second) == After(After(s, first), second)
    ensures Exchanges(s, first + second, token)
        == Exchanges(s, first, token) + Exchanges(After(s, first), second, token)
    decreases |first|
  {
    Joined(s, first, second);
    if first == [] {
      assert first + second == second;
    } else {
      assert (first + second)[1..] == first[1..] + second;
      ExchangesAdd(Next(s, first[0]), first[1..], second, token);
    }
  }

  /** A refresh of a row; then the console saves the refresh token it had loaded before; then another refresh. */
  function BroughtBack(id: string, row: Provider, saved: Credentials, first: TokenResponse, second: TokenResponse)
    : seq<Step>
  {
    Refresh(0, id, CredentialsOf(row), first) + ([Replace(id, saved)] + Refresh(1, id, saved, second))
  }

  /** The second refresh exchanges the token that the first has used. */
  lemma BroughtBackTokenIsExchangedAgain(
    s: State, id: string, saved: Credentials, first: TokenResponse, second: TokenResponse)
    requires Initial(s) && id in s.rows && saved.refreshToken == s.rows[id].refreshToken
    requires first.refreshToken !in s.issuedTo && second.refreshToken !in s.issuedTo
    requires first.refreshToken != second.refreshToken
    ensures IsRun(s, BroughtBack(id, s.rows[id], saved, first, second))
    ensures Exchanges(s, BroughtBack(id, s.rows[id], saved, first, second), saved.refreshToken) >= 2
  {
    assert RowOk(s, id) && Belongs(s, saved.refreshToken, id);
    var a := Refresh(0, id, CredentialsOf(s.rows[id]), first);
    RefreshRuns(s, 0, id, CredentialsOf(s.rows[id]), first);
    var after := After(s, a);
    var back := Next(after, Replace(id, saved));
    var b := Refresh(1, id, saved, second);
    RefreshRuns(back, 1, id, saved, second);
    Taken(after, Replace(id, saved), b);
    assert ([Replace(id, saved)] + b)[1..] == b;
    ExchangesAdd(s, a, [Replace(id, saved)] + b, saved.refreshToken);
  }

  // ----- Operators win

  /** The row a refresh read has since been given another refresh token, or removed. */
  predicate Superseded(s: State, task: nat) {
    task in s.tasks && Seen(s.tasks[task].stage) && !Unchanged(s, s.tasks[task])
  }

  /** No operator brings `token`. */
  predicate NeverBrings(steps: seq<Step>, token: string) {
    forall i :: 0 <= i < |steps| ==> !Brings(steps[i], token)
  }

  predicate Brings(step: Step, token: string) {
    (step.Replace? && step.credentials.refreshToken == token) || (step.Add? && step.row.refreshToken == token)
  }

  /**
   Once an operator has replaced the token a refresh read, and as long as no operator brings it back, the
   refresh changes no row, by its write of tokens or of a failure, whatever else happens before.
   */
  lemma {:induction false} OperatorsWin(s: State, steps: seq<Step>, task: nat, last: Step)
    requires Inv(s) && Superseded(s, task) && IsRun(s, steps) && Enabled(After(s, steps), last)
    requires NeverBrings(steps, s.tasks[task].stage.seen.refreshToken)
    requires last == Write(task) || last == Report(task)
    ensures Next(After(s, steps), last).rows == After(s, steps).rows
    decreases |steps|
  {
    if steps != [] {
      var n := Next(s, steps[0]);
      assert TaskOk(s, task);
      StepKeeps(s, steps[0]);
      SupersededUntilDone(s, steps[0], task);
      if Done(n, task) {
        DoneStaysDone(n, steps[1..], task);
      } else {
        OperatorsWin(n, steps[1..], task, last);
      }
    }
  }

  predicate Done(s: State, task: nat) {
    task in s.tasks && (s.tasks[task].stage.Ready? || s.tasks[task].stage.Failed?)
  }

  lemma OwnStepEnds(s: State, step: Step, task: nat)
    requires Superseded(s, task) && Enabled(s, step) && (step.Write? || step.Report? || step.Cancel?)
        && step.task == task
    ensures Done(Next(s, step), task)
  {
  }

  lemma OwnExchangeGoesOn(s: State, step: Step, task: nat)
    requires Superseded(s, task) && Enabled(s, step) && step.Exchange? && step.task == task
    ensures Done(Next(s, step), task)
            || (Superseded(Next(s, step), task) && Next(s, step).tasks[task].stage.seen == s.tasks[task].stage.seen)
  {
  }

  lemma OthersLeaveSuperseded(s: State, step: Step, task: nat)
    requires Superseded(s, task) && Enabled(s, step) && OfTask(step) && step.task != task
    requires s.tasks[step.task].id != s.tasks[task].id || !(step.Write? || step.Report?)
    ensures Superseded(Next(s, step), task) && Next(s, step).tasks[task] == s.tasks[task]
  {
  }

  lemma OperatorsLeaveSuperseded(s: State, step: Step, task: nat)
    requires Superseded(s, task) && Enabled(s, step) && (OfOperator(step) || step.Tick? || step.Start?)
    requires !Brings(step, s.tasks[task].stage.seen.refreshToken)
    ensures Superseded(Next(s, step), task) && Next(s, step).tasks[task] == s.tasks[task]
  {
  }

  lemma SupersededUntilDone(s: State, step: Step, task: nat)
    requires Inv(s) && Superseded(s, task) && Enabled(s, step)
    requires !Brings(step, s.tasks[task].stage.seen.refreshToken)
    ensures Done(Next(s, step), task)
            || (Superseded(Next(s, step), task) && Next(s, step).tasks[task].stage.seen == s.tasks[task].stage.seen)
  {
    assert TaskOk(s, task);
    if !OfTask(step) {
      OperatorsLeaveSuperseded(s, step, task);
    } else if step.task != task {
      assert TaskOk(s, step.task);
      OthersLeaveSuperseded(s, step, task);
    } else if step.Exchange? {
      OwnExchangeGoesOn(s, step, task);
    } else {
      OwnStepEnds(s, step, task);
    }
  }

  predicate OfTask(step: Step) {
    step.Lock? || step.Read? || step.Exchange? || step.Write? || step.Report? || step.Cancel?
  }

  // ----- Waiting tasks adopt

  /** Steps of tasks that do not hold a read row. */
  predicate Early(step: Step) {
    step.Start? || step.Lock? || step.Read?
  }

  /**
   Provider `id` holds `c`, good beyond the margin, and only request tasks that have not read the row are at
   work on it.
   */
  ghost predicate FreshlyHeld(s: State, id: string, c: Credentials) {
    && id in s.rows && CredentialsOf(s.rows[id]) == c && GoodUntilMargin(c.expiresAt, s.clock)
    && forall t :: t in s.tasks && s.tasks[t].id == id ==> s.tasks[t].kind.Proxy? && !Seen(s.tasks[t].stage)
  }

  /** Not another writer of `id`, and not a clock beyond the margin. */
  predicate Undisturbing(step: Step, id: string, c: Credentials) {
    && (step.Tick? ==> GoodUntilMargin(c.expiresAt, step.now))
    && (step.Start? && step.id == id ==> step.kind.Proxy?)
    && !(step.Replace? && step.id == id) && !(step.Remove? && step.id == id)
  }

  ghost predicate Undisturbed(s: State, steps: seq<Step>, id: string, c: Credentials)
    decreases |steps|
  {
    steps != [] ==>
      var step := steps[0];
      && Enabled(s, step) && Undisturbing(step, id, c)
      && Undisturbed(Next(s, step), steps[1..], id, c)
  }

  /** A successful write by a request task that yields a late enough expiry leaves the provider freshly held. */
  lemma WriteLeavesFreshlyHeld(s: State, task: nat)
    requires Inv(s) && Enabled(s, Write(task)) && Unchanged(s, s.tasks[task])
    requires GoodUntilMargin(s.tasks[task].stage.issued.expiresAt, s.clock)
    requires forall t :: t in s.tasks && s.tasks[t].id == s.tasks[task].id ==> s.tasks[t].kind.Proxy?
    ensures FreshlyHeld(Next(s, Write(task)), s.tasks[task].id, s.tasks[task].stage.issued)
  {
    assert TaskOk(s, task);
    forall t | t in s.tasks && s.tasks[t].id == s.tasks[task].id && t != task ensures !Seen(s.tasks[t].stage) {
      assert TaskOk(s, t);
    }
  }

  /** How often a run tries to exchange a token of provider `id`. */
  ghost function Attempts(s: State, steps: seq<Step>, id: string): nat
    requires IsRun(s, steps)
    decreases |steps|
  {
    if steps == [] then 0
    else
      (if steps[0].Exchange? && s.tasks[steps[0].task].id == id then 1 else 0)
          + Attempts(Next(s, steps[0]), steps[1..], id)
  }

  /** A task of `id` that has yet to read the row, or has adopted `c`, or gave up. */
  predicate Adopting(s: State, task: nat, id: string, c: Credentials) {
    && task in s.tasks && s.tasks[task].id == id && !Seen(s.tasks[task].stage)
    && (s.tasks[task].stage.Ready? ==> s.tasks[task].lease == c)
  }

  /**
   From then on, while nobody else writes and the expiry stays beyond the margin, no refresh of that
   provider attempts an exchange, and every task that was waiting and becomes ready has adopted the new credentials.
   */
  lemma {:induction false} WaitingTasksAdopt(s: State, steps: seq<Step>, id: string, c: Credentials, task: nat)
    requires Inv(s) && FreshlyHeld(s, id, c) && Undisturbed(s, steps, id, c) && Adopting(s, task, id, c)
    ensures IsRun(s, steps) && Attempts(s, steps, id) == 0
    ensures FreshlyHeld(After(s, steps), id, c) && Adopting(After(s, steps), task, id, c)
    decreases |steps|
  {
    if steps != [] {
      StepKeeps(s, steps[0]);
      assert RowOk(s, id);
      FreshlyHeldStays(s, steps[0], id, c);
      AdoptingStays(s, steps[0], id, c, task);
      WaitingTasksAdopt(Next(s, steps[0]), steps[1..], id, c, task);
    }
  }

  lemma EarlyAdoptingStays(s: State, step: Step, id: string, c: Credentials, task: nat)
    requires Early(step) && FreshlyHeld(s, id, c) && Enabled(s, step) && Adopting(s, task, id, c)
    ensures Adopting(Next(s, step), task, id, c)
  {
  }

  lemma OtherAdoptingStays(s: State, step: Step, id: string, c: Credentials, task: nat)
    requires !Early(step) && Enabled(s, step) && Adopting(s, task, id, c)
    ensures Adopting(Next(s, step), task, id, c)
  {
  }

  lemma AdoptingStays(s: State, step: Step, id: string, c: Credentials, task: nat)
    requires FreshlyHeld(s, id, c) && Enabled(s, step) && Adopting(s, task, id, c)
    ensures Adopting(Next(s, step), task, id, c)
  {
    if Early(step) {
      EarlyAdoptingStays(s, step, id, c, task);
    } else {
      OtherAdoptingStays(s, step, id, c, task);
    }
  }

  lemma HeldRowStays(s: State, step: Step, id: string, c: Credentials)
    requires id in s.versions && FreshlyHeld(s, id, c) && Enabled(s, step) && Undisturbing(step, id, c)
    ensures id in Next(s, step).rows && CredentialsOf(Next(s, step).rows[id]) == c
    ensures GoodUntilMargin(c.expiresAt, Next(s, step).clock)
  {
  }

  lemma EarlyTasksSeeNothing(s: State, step: Step, id: string, c: Credentials, t: nat)
    requires Early(step) && FreshlyHeld(s, id, c) && Enabled(s, step) && Undisturbing(step, id, c)
    requires t in Next(s, step).tasks && Next(s, step).tasks[t].id == id
    ensures Next(s, step).tasks[t].kind.Proxy? && !Seen(Next(s, step).tasks[t].stage)
  {
  }

  lemma OtherTasksSeeNothing(s: State, step: Step, id: string, c: Credentials, t: nat)
    requires OfTask(step) && !Early(step) && FreshlyHeld(s, id, c) && Enabled(s, step)
    requires t in Next(s, step).tasks && Next(s, step).tasks[t].id == id
    ensures Next(s, step).tasks[t].kind.Proxy? && !Seen(Next(s, step).tasks[t].stage)
  {
  }

  lemma FreshlyHeldStays(s: State, step: Step, id: string, c: Credentials)
    requires id in s.versions && FreshlyHeld(s, id, c) && Enabled(s, step) && Undisturbing(step, id, c)
    ensures FreshlyHeld(Next(s, step), id, c)
  {
    HeldRowStays(s, step, id, c);
    forall t | t in Next(s, step).tasks && Next(s, step).tasks[t].id == id
      ensures Next(s, step).tasks[t].kind.Proxy? && !Seen(Next(s, step).tasks[t].stage)
    {
      if Early(step) {
        EarlyTasksSeeNothing(s, step, id, c, t);
      } else if OfTask(step) {
        OtherTasksSeeNothing(s, step, id, c, t);
      }
    }
  }

  lemma EarlyStepsLeaveDone(s: State, step: Step, t: nat)
    requires Early(step) && Enabled(s, step) && Done(s, t)
    ensures t in Next(s, step).tasks && Next(s, step).tasks[t] == s.tasks[t]
  {
  }

  lemma OtherStepsLeaveDone(s: State, step: Step, t: nat)
    requires !Early(step) && Enabled(s, step) && Done(s, t)
    ensures t in Next(s, step).tasks && Next(s, step).tasks[t] == s.tasks[t]
  {
  }

  lemma {:induction false} DoneStaysDone(s: State, steps: seq<Step>, t: nat)
    requires IsRun(s, steps) && Done(s, t)
    ensures t in After(s, steps).tasks && After(s, steps).tasks[t] == s.tasks[t]
    decreases |steps|
  {
    if steps != [] {
      if Early(steps[0]) {
        EarlyStepsLeaveDone(s, steps[0], t);
      } else {
        OtherStepsLeaveDone(s, steps[0], t);
      }
      DoneStaysDone(Next(s, steps[0]), steps[1..], t);
    }
  }
}
