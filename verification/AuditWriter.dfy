/**
 The audit writer: messages leave the queue in batches, each batch is one transaction that is
 retried until it commits. The result is that of applying the messages one at a time.
 */
module AuditWriter {
  import opened Options
  import opened Previews
  import opened AuditCall

  const BATCH_CAPACITY := 128

  datatype CallRow = CallRow(
    consumerId: string, providerId: Option<string>, model: Option<string>, status: int,
    input: int, output: int, cached: int, cost: Option<int>, error: Option<string>,
    requestBytes: int, responseBytes: int, transportBytes: int, contentEncoding: Option<string>)

  datatype ArchiveRow = ArchiveRow(
    requestBody: seq<Byte>, requestTruncated: bool, responseBody: Option<seq<Byte>>, responseTruncated: bool,
    downstreamHeaders: Option<string>)

  datatype Tables = Tables(
    calls: map<string, CallRow>, archives: map<string, ArchiveRow>, consumers: set<string>, providers: set<string>)

  // ----- One message

  function RowOf(event: Event, providers: set<string>): CallRow {
    CallRow(event.consumerId,
            if event.providerId.Some? && event.providerId.value in providers then event.providerId else None,
            event.model, event.status, event.usage.input, event.usage.output, event.usage.cached, event.cost,
                event.error,
            event.requestBytes, event.responseBytes, event.transportBytes, None)
  }

  function ArchiveOf(event: Event): ArchiveRow {
    ArchiveRow(event.requestBody, event.requestTruncated, event.responseBody, event.responseTruncated, None)
  }

  /** The statements for one message; `None` where a key or foreign-key violation fails the transaction. */
  function Apply(t: Tables, m: Message): Option<Tables> {
    match m
    case Call(event, _) =>
      if event.id in t.calls || event.consumerId !in t.consumers || (event.archive && event.id in t.archives) then None
      else Some(t.(calls := t.calls[event.id := RowOf(event, t.providers)],
                   archives := if event.archive then t.archives[event.id := ArchiveOf(event)] else t.archives))
    case Transport(id, bytes, encoding, headers) =>
      Some(t.(calls := if id in t.calls
          then t.calls[id := t.calls[id].(transportBytes := bytes, contentEncoding := encoding)] else t.calls,
              archives := if headers.Some? && id in t.archives
                          then t.archives[id := t.archives[id].(downstreamHeaders := headers)] else t.archives))
  }

  function ApplyAll(t: Tables, ms: seq<Message>): Option<Tables> {
    if ms == [] then Some(t)
    else
      var before := ApplyAll(t, ms[..|ms| - 1]);
      if before.None? then None else Apply(before.value, ms[|ms| - 1])
  }

  lemma {:induction false} ApplyInParts(t: Tables, a: seq<Message>, b: seq<Message>)
    ensures ApplyAll(t, a + b) == if ApplyAll(t, a).Some? then ApplyAll(ApplyAll(t, a).value, b) else None
    decreases |b|
  {
    if b == [] {
      assert a + b == a;
    } else {
      var init := b[..|b| - 1];
      ApplyInParts(t, a, init);
      assert (a + b)[..|a + b| - 1] == a + init;
    }
  }

  // ----- The writer task

  /** The transaction of `persist`: every message of the batch, or nothing. */
  method Persist(t: Tables, batch: seq<Message>) returns (r: Option<Tables>)
    ensures r == ApplyAll(t, batch)
  {
    var work := t;
    for i := 0 to |batch|
      invariant ApplyAll(t, batch[..i]) == Some(work)
    {
      assert batch[..i + 1][..i] == batch[..i];
      var applied := Apply(work, batch[i]);
      if applied.None? {
        ApplyInParts(t, batch[..i + 1], batch[i + 1..]);
        assert batch == batch[..i + 1] + batch[i + 1..];
        return None;
      }
      work := applied.value;
    }
    assert batch[..|batch|] == batch;
    r := Some(work);
  }

  /** The inner loop of `run`: at most 128 messages, and no more than the queue holds just then. */
  method FillBatch(queue: seq<Message>, from: nat, available: nat) returns (batch: seq<Message>)
    requires from < |queue|
    ensures 0 < |batch| <= 128 && from + |batch| <= |queue| && batch == queue[from..from + |batch|]
  {
    batch := [queue[from]];
    while |batch| < BATCH_CAPACITY && from + |batch| < |queue| && |batch| < available
      invariant 0 < |batch| <= BATCH_CAPACITY && from + |batch| <= |queue| && batch == queue[from..from + |batch|]
      decreases |queue| - from - |batch|
    {
      batch := batch + [queue[from + |batch|]];
    }
  }

  /** The retry loop of `run`: failed attempts leave the tables alone. */
  method PersistWithRetries(tables: Tables, batch: seq<Message>, outages: nat) returns (written: Tables)
    requires ApplyAll(tables, batch).Some?
    ensures Some(written) == ApplyAll(tables, batch)
  {
    written := tables;
    var attempt, committed := 0, false;
    while !committed
      invariant attempt <= outages
      invariant if committed then Some(written) == ApplyAll(tables, batch) else written == tables
      decreases !committed, outages - attempt
    {
      if attempt < outages {
        attempt := attempt + 1;
      } else {
        var result := Persist(written, batch);
        written, committed := result.value, true;
      }
    }
  }

  lemma NextBatchApplies(tables: Tables, queue: seq<Message>, from: nat, to: nat)
    requires from <= to <= |queue| && ApplyAll(tables, queue).Some?
    ensures ApplyAll(tables, queue[..from]).Some?
    ensures ApplyAll(tables, queue[..to]) == ApplyAll(ApplyAll(tables, queue[..from]).value, queue[from..to]) != None
  {
    assert queue == queue[..to] + queue[to..] && queue[..to] == queue[..from] + queue[from..to];
    ApplyInParts(tables, queue[..to], queue[to..]);
    ApplyInParts(tables, queue[..from], queue[from..to]);
  }

  /**
   `run`: `arrived(k)` tells how many messages the `k`-th batch finds in the queue, `outages(k)` how
   often the database is unavailable before its transaction commits. Whatever the cuts and outages,
   messages that can be written one at a time are written, in order and once each.
   */
  method Run(tables: Tables, queue: seq<Message>, arrived: nat -> nat, outages: nat -> nat) returns (written: Tables)
    requires ApplyAll(tables, queue).Some?
    ensures Some(written) == ApplyAll(tables, queue)
  {
    written := tables;
    var received, round := 0, 0;
    while received < |queue|
      invariant received <= |queue| && ApplyAll(tables, queue[..received]) == Some(written)
    {
      var batch := FillBatch(queue, received, arrived(round));
      NextBatchApplies(tables, queue, received, received + |batch|);
      written := PersistWithRetries(written, batch, outages(round));
      received, round := received + |batch|, round + 1;
    }
    assert queue[..received] == queue;
  }

  // ----- Deletions while messages wait

  /** A provider is deleted: past calls forget it. */
  function DropProvider(t: Tables, id: string): Tables {
    t.(providers := t.providers - {id},
       calls := map c | c in t.calls ::
           if t.calls[c].providerId == Some(id) then t.calls[c].(providerId := None) else t.calls[c])
  }

  /** A consumer is deleted: its calls and their archives go with it. */
  function DropConsumer(t: Tables, id: string): Tables {
    t.(consumers := t.consumers - {id},
       calls := map c | c in t.calls && t.calls[c].consumerId != id :: t.calls[c],
       archives := map c | c in t.archives && !(c in t.calls && t.calls[c].consumerId == id) :: t.archives[c])
  }

  /** Which calls and archives are left. */
  lemma ConsumersTakeTheirCallsAlong(t: Tables, consumer: string, id: string)
    ensures var r := DropConsumer(t, consumer);
            && consumer !in r.consumers && r.providers == t.providers
            && (id in t.calls && t.calls[id].consumerId == consumer ==> id !in r.calls && id !in r.archives)
            && (id in t.calls && t.calls[id].consumerId != consumer ==> id in r.calls && r.calls[id] == t.calls[id])
            && (id in r.calls ==> id in t.calls) && (id in r.archives ==> id in t.archives)
            && (id in t.archives && (id in t.calls ==> t.calls[id].consumerId != consumer) ==>
                  id in r.archives && r.archives[id] == t.archives[id])
  {
  }

  lemma DropProviderCommutesWithCall(t: Tables, m: Message, id: string)
    requires m.Call?
    ensures Apply(t, m).Some? <==> Apply(DropProvider(t, id), m).Some?
    ensures Apply(t, m).Some? ==> Apply(DropProvider(t, id), m).value == DropProvider(Apply(t, m).value, id)
  {
    if Apply(t, m).Some? {
      assert Apply(DropProvider(t, id), m).value.calls == DropProvider(Apply(t, m).value, id).calls;
    }
  }

  lemma DropProviderCommutesWithTransport(t: Tables, m: Message, id: string)
    requires m.Transport?
    ensures Apply(DropProvider(t, id), m).value == DropProvider(Apply(t, m).value, id)
  {
    assert Apply(DropProvider(t, id), m).value.calls == DropProvider(Apply(t, m).value, id).calls;
  }

  lemma {:induction false} DropProviderCommutesWithAll(t: Tables, ms: seq<Message>, id: string)
    requires ApplyAll(t, ms).Some?
    ensures ApplyAll(DropProvider(t, id), ms) == Some(DropProvider(ApplyAll(t, ms).value, id))
  {
    if ms != [] {
      DropProviderCommutesWithAll(t, ms[..|ms| - 1], id);
      var before, last := ApplyAll(t, ms[..|ms| - 1]).value, ms[|ms| - 1];
      if last.Call? {
        DropProviderCommutesWithCall(before, last, id);
      } else {
        DropProviderCommutesWithTransport(before, last, id);
      }
    }
  }

  datatype Action = Enqueue(message: Message) | Write(count: nat) | Delete(providerId: string)

  /** The tables as written so far and the messages still waiting, after a sequence of actions. */
  function Lazily(t: Tables, actions: seq<Action>): Option<(Tables, seq<Message>)> {
    if actions == [] then Some((t, []))
    else
      var before := Lazily(t, actions[..|actions| - 1]);
      if before.None? then None
      else
        var (tables, waiting) := before.value;
        match actions[|actions| - 1]
        case Enqueue(m) => Some((tables, waiting + [m]))
        case Write(count) =>
          var n := if count < |waiting| then count else |waiting|;
          var written := ApplyAll(tables, waiting[..n]);
          if written.None? then None else Some((written.value, waiting[n..]))
        case Delete(id) => Some((DropProvider(tables, id), waiting))
  }

  /** The tables if every message were written the moment it is enqueued. */
  function Eagerly(t: Tables, actions: seq<Action>): Option<Tables> {
    if actions == [] then Some(t)
    else
      var before := Eagerly(t, actions[..|actions| - 1]);
      if before.None? then None
      else
        match actions[|actions| - 1]
        case Enqueue(m) => Apply(before.value, m)
        case Write(_) => before
        case Delete(id) => Some(DropProvider(before.value, id))
  }

  /**
   However writing lags behind, and whichever providers are deleted meanwhile, the waiting messages lead to the
   eager tables.
   */
  lemma {:induction false} LaggingIsInvisible(t: Tables, actions: seq<Action>)
    requires Eagerly(t, actions).Some?
    ensures Lazily(t, actions).Some?
    ensures ApplyAll(Lazily(t, actions).value.0, Lazily(t, actions).value.1) == Eagerly(t, actions)
  {
    if actions != [] {
      var init, last := actions[..|actions| - 1], actions[|actions| - 1];
      LaggingIsInvisible(t, init);
      var (tables, waiting) := Lazily(t, init).value;
      match last
      case Enqueue(m) =>
        assert (waiting + [m])[..|waiting|] == waiting;
      case Write(count) =>
        var n := if count < |waiting| then count else |waiting|;
        ApplyInParts(tables, waiting[..n], waiting[n..]);
        assert waiting == waiting[..n] + waiting[n..];
      case Delete(id) => DropProviderCommutesWithAll(tables, waiting, id);
    }
  }

  // ----- When a batch can be written at all

  /** A call whose id is new and whose consumer exists. */
  predicate Acceptable(t: Tables, m: Message) {
    m.Call? ==>
      m.event.consumerId in t.consumers && m.event.id !in t.calls
      && (m.event.archive ==> m.event.id !in t.archives)
  }

  predicate Writable(t: Tables, ms: seq<Message>) {
    (forall i :: 0 <= i < |ms| ==> Acceptable(t, ms[i])) && DistinctCalls(ms)
  }

  predicate DistinctCalls(ms: seq<Message>) {
    forall i, j :: 0 <= i < j < |ms| && ms[i].Call? && ms[j].Call? ==> ms[i].event.id != ms[j].event.id
  }

  predicate Reports(ms: seq<Message>, id: string) {
    exists i :: 0 <= i < |ms| && ms[i].Call? && ms[i].event.id == id
  }

  lemma {:induction false} RowsWritten(t: Tables, ms: seq<Message>)
    requires ApplyAll(t, ms).Some?
    ensures var r := ApplyAll(t, ms).value;
            && r.consumers == t.consumers
            && (forall id :: id in r.calls <==> id in t.calls || Reports(ms, id))
            && (forall id :: id in t.archives ==> id in r.archives)
            && (forall id :: id in r.archives ==> id in t.archives || Reports(ms, id))
  {
    if ms != [] {
      var init, last := ms[..|ms| - 1], ms[|ms| - 1];
      RowsWritten(t, init);
      forall id ensures Reports(ms, id) <==> Reports(init, id) || (last.Call? && last.event.id == id) {
        assert forall i :: 0 <= i < |init| ==> init[i] == ms[i];
      }
    }
  }

  lemma WritableAppended(t: Tables, ms: seq<Message>, m: Message)
    ensures Writable(t, ms + [m]) <==> Writable(t, ms) && Acceptable(t, m) && !(m.Call? && Reports(ms, m.event.id))
  {
    var all := ms + [m];
    assert all[|ms|] == m && forall i :: 0 <= i < |ms| ==> all[i] == ms[i];
    if m.Call? && Reports(ms, m.event.id) {
      var i :| 0 <= i < |ms| && ms[i].Call? && ms[i].event.id == m.event.id;
      assert all[i] == ms[i];
    }
  }

  /**
   A batch commits exactly when its calls are new and their consumers still exist. A consumer deleted
   while one of its calls waits makes every retry of that batch fail.
   */
  lemma {:induction false} BatchCommitsIffWritable(t: Tables, ms: seq<Message>)
    ensures ApplyAll(t, ms).Some? <==> Writable(t, ms)
  {
    if ms != [] {
      var init, last := ms[..|ms| - 1], ms[|ms| - 1];
      assert ms == init + [last];
      BatchCommitsIffWritable(t, init);
      WritableAppended(t, init, last);
      if ApplyAll(t, init).Some? {
        RowsWritten(t, init);
      }
    }
  }

  lemma DeletedConsumerBlocksTheWriter(t: Tables, batch: seq<Message>, i: nat)
    requires i < |batch| && batch[i].Call?
    ensures ApplyAll(DropConsumer(t, batch[i].event.consumerId), batch) == None
  {
    BatchCommitsIffWritable(DropConsumer(t, batch[i].event.consumerId), batch);
  }

  // ----- What is written

  /** The last transport report about a call. */
  function LastReport(ms: seq<Message>, id: string): Option<Message> {
    if ms == [] then None
    else if ms[|ms| - 1].Transport? && ms[|ms| - 1].id == id then Some(ms[|ms| - 1])
    else LastReport(ms[..|ms| - 1], id)
  }

  /** The last response headers reported. */
  function LastHeaders(ms: seq<Message>, id: string): Option<string> {
    if ms == [] then None
    else if ms[|ms| - 1].Transport? && ms[|ms| - 1].id == id && ms[|ms| - 1].headers.Some?
    then ms[|ms| - 1].headers
    else LastHeaders(ms[..|ms| - 1], id)
  }

  predicate IsReport(m: Message, id: string) {
    m.Transport? && m.id == id
  }

  lemma {:induction false} NoLaterReport(ms: seq<Message>, id: string)
    ensures LastReport(ms, id).None? ==> forall i :: 0 <= i < |ms| ==> !IsReport(ms[i], id)
    ensures LastReport(ms, id).Some? ==>
              exists i :: 0 <= i < |ms| && LastReport(ms, id) == Some(ms[i]) && IsReport(ms[i], id)
                          && forall j :: i < j < |ms| ==> !IsReport(ms[j], id)
  {
    if ms != [] {
      var n := |ms| - 1;
      NoLaterReport(ms[..n], id);
      if LastReport(ms, id).Some? && !IsReport(ms[n], id) {
        var i :| 0 <= i < n && LastReport(ms, id) == Some(ms[..n][i]) && IsReport(ms[..n][i], id)
            && forall j :: i < j < n ==> !IsReport(ms[..n][j], id);
        assert forall j :: i < j < |ms| ==> j == n || ms[j] == ms[..n][j];
        assert LastReport(ms, id) == Some(ms[i]);
      }
    }
  }

  /** The same call, with other transport bytes and encoding. */
  predicate SameCall(a: CallRow, b: CallRow) {
    && a.consumerId == b.consumerId && a.providerId == b.providerId && a.model == b.model && a.status == b.status
    && a.input == b.input && a.output == b.output && a.cached == b.cached && a.cost == b.cost && a.error == b.error
    && a.requestBytes == b.requestBytes && a.responseBytes == b.responseBytes
  }

  predicate SameBodies(a: ArchiveRow, b: ArchiveRow) {
    && a.requestBody == b.requestBody && a.requestTruncated == b.requestTruncated
    && a.responseBody == b.responseBody && a.responseTruncated == b.responseTruncated
  }

  predicate Carries(row: CallRow, report: Option<Message>, bytes: int, encoding: Option<string>)
    requires report.Some? ==> report.value.Transport?
  {
    && row.transportBytes == (if report.Some? then report.value.bytes else bytes)
    && row.contentEncoding == (if report.Some? then report.value.encoding else encoding)
  }

  /** A row that is there keeps what it says of the call; only the last report about it counts. */
  lemma {:induction false} ReportsUpdateRows(t: Tables, ms: seq<Message>, id: string)
    requires ApplyAll(t, ms).Some?
    ensures var r, last := ApplyAll(t, ms).value, LastReport(ms, id);
            && (last.Some? ==> last.value.Transport?)
            && (id in t.calls ==>
                  && id in r.calls && SameCall(t.calls[id], r.calls[id])
                  && Carries(r.calls[id], last, t.calls[id].transportBytes, t.calls[id].contentEncoding))
  {
    if ms != [] {
      ReportsUpdateRows(t, ms[..|ms| - 1], id);
    }
  }

  /** So with the archived bodies and the response headers. */
  lemma {:induction false} ReportsUpdateArchives(t: Tables, ms: seq<Message>, id: string)
    requires ApplyAll(t, ms).Some?
    ensures var r := ApplyAll(t, ms).value;
            && (id in t.archives ==>
                  && id in r.archives && SameBodies(t.archives[id], r.archives[id])
                  && r.archives[id].downstreamHeaders
                     == LastHeaders(ms, id).Or(t.archives[id].downstreamHeaders))
            && (id !in t.archives && !Archives(ms, id) ==> id !in r.archives)
  {
    if ms != [] {
      var init, last := ms[..|ms| - 1], ms[|ms| - 1];
      ReportsUpdateArchives(t, init, id);
      assert forall i :: 0 <= i < |init| ==> init[i] == ms[i];
      assert last.Call? && last.event.archive && last.event.id == id ==> Archives(ms, id);
      if Archives(init, id) {
        var i :| 0 <= i < |init| && IsArchived(init[i], id);
        assert IsArchived(ms[i], id);
      }
    }
  }

  predicate IsArchived(m: Message, id: string) {
    m.Call? && m.event.archive && m.event.id == id
  }

  predicate Archives(ms: seq<Message>, id: string) {
    exists i :: 0 <= i < |ms| && IsArchived(ms[i], id)
  }

  /** The row of an event: what it says, and its provider as long as there is one. */
  predicate Records(row: CallRow, event: Event, providers: set<string>) {
    && row.consumerId == event.consumerId && row.model == event.model && row.status == event.status
    && row.input == event.usage.input && row.output == event.usage.output && row.cached == event.usage.cached
    && row.cost == event.cost && row.error == event.error
    && row.requestBytes == event.requestBytes && row.responseBytes == event.responseBytes
    && row.providerId == match event.providerId
                         case Some(p) => if p in providers then Some(p) else None
                         case None => None
  }

  predicate Archived(row: ArchiveRow, event: Event) {
    && row.requestBody == event.requestBody && row.requestTruncated == event.requestTruncated
    && row.responseBody == event.responseBody && row.responseTruncated == event.responseTruncated
  }

  lemma {:induction false} ProvidersStay(t: Tables, ms: seq<Message>)
    requires ApplyAll(t, ms).Some?
    ensures ApplyAll(t, ms).value.providers == t.providers
  {
    if ms != [] {
      ProvidersStay(t, ms[..|ms| - 1]);
    }
  }

  /**
   Once a queue is written, the row of each call says what its event said, with the transport bytes and
   encoding of the last report after it, or the event's own bytes and no encoding; an archiving call has its
   bodies in the archive, with the last headers reported, and any other call has nothing there.
   */
  lemma EventsAreWritten(t: Tables, ms: seq<Message>, i: nat)
    requires ApplyAll(t, ms).Some? && i < |ms| && ms[i].Call?
    ensures var r, event, after := ApplyAll(t, ms).value, ms[i].event, ms[i + 1..];
            && event.id in r.calls && Records(r.calls[event.id], event, t.providers)
            && (LastReport(after, event.id).Some? ==> LastReport(after, event.id).value.Transport?)
            && Carries(r.calls[event.id], LastReport(after, event.id), event.transportBytes, None)
            && (event.archive ==>
                  && event.id in r.archives && Archived(r.archives[event.id], event)
                  && r.archives[event.id].downstreamHeaders == LastHeaders(after, event.id))
            && (!event.archive && event.id !in t.archives ==> event.id !in r.archives)
  {
    var event, before, after := ms[i].event, ms[..i], ms[i + 1..];
    assert ms == ms[..i + 1] + after && ms[..i + 1][..i] == before;
    ApplyInParts(t, ms[..i + 1], after);
    ProvidersStay(t, before);
    var here := ApplyAll(t, ms[..i + 1]).value;
    ReportsUpdateRows(here, after, event.id);
    ReportsUpdateArchives(here, after, event.id);
    if !event.archive && event.id !in t.archives {
      BatchCommitsIffWritable(t, ms);
      assert forall j :: 0 <= j < |ms| && IsArchived(ms[j], event.id) ==> j == i;
      ReportsUpdateArchives(t, ms, event.id);
    }
  }

  predicate Mentions(m: Message, id: string) {
    if m.Call? then m.event.id == id else m.id == id
  }

  lemma {:induction false} NothingReported(ms: seq<Message>, id: string)
    requires forall i :: 0 <= i < |ms| ==> !Mentions(ms[i], id)
    ensures LastReport(ms, id) == None && LastHeaders(ms, id) == None && !Reports(ms, id) && !Archives(ms, id)
  {
    if ms != [] {
      NothingReported(ms[..|ms| - 1], id);
    }
  }

  /** A call that no message is about is left alone. */
  lemma OtherRowsStay(t: Tables, ms: seq<Message>, id: string)
    requires ApplyAll(t, ms).Some? && forall i :: 0 <= i < |ms| ==> !Mentions(ms[i], id)
    ensures var r := ApplyAll(t, ms).value;
            && (id in r.calls <==> id in t.calls) && (id in t.calls ==> r.calls[id] == t.calls[id])
            && (id in r.archives <==> id in t.archives) && (id in t.archives ==> r.archives[id] == t.archives[id])
  {
    NothingReported(ms, id);
    RowsWritten(t, ms);
    ReportsUpdateRows(t, ms, id);
    ReportsUpdateArchives(t, ms, id);
  }

  // ----- Transport updates find their row

  /** Every transport message comes after the call it is about. */
  predicate Ordered(ms: seq<Message>) {
    forall j :: 0 <= j < |ms| && ms[j].Transport? ==> Reports(ms[..j], ms[j].id)
  }

  lemma TransportFindsItsRow(t: Tables, ms: seq<Message>, j: nat)
    requires ApplyAll(t, ms).Some? && Ordered(ms) && j < |ms| && ms[j].Transport?
    ensures ApplyAll(t, ms[..j]).Some? && ms[j].id in ApplyAll(t, ms[..j]).value.calls
  {
    ApplyInParts(t, ms[..j], ms[j..]);
    assert ms == ms[..j] + ms[j..];
    RowsWritten(t, ms[..j]);
  }
}
