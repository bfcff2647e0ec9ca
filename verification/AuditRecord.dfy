/**
 What the event of a call says: a response that was streamed, one that was buffered, and a call nobody
 answered. Each is a run of `AuditCall` from its start, and the event sent is told from what was done.
 */
module AuditRecord {
  import opened Numbers
  import opened Options
  import opened Previews
  import opened SseUsage
  import opened AuditCall
  import Pricing

  // ----- Runs in parts

  lemma {:induction false} Joined(parse: Parser, s: State, first: seq<Op>, second: seq<Op>)
    requires IsRun(parse, s, first) && IsRun(parse, After(parse, s, first), second)
    ensures IsRun(parse, s, first + second)
    ensures After(parse, s, first + second) == After(parse, After(parse, s, first), second)
    decreases |first|
  {
    if first == [] {
      assert first + second == second;
    } else {
      assert (first + second)[1..] == first[1..] + second;
      Joined(parse, Next(parse, s, first[0]), first[1..], second);
    }
  }

  lemma Extended(parse: Parser, s: State, ops: seq<Op>, op: Op)
    requires IsRun(parse, s, ops) && Enabled(After(parse, s, ops), op)
    ensures IsRun(parse, s, ops + [op]) && After(parse, s, ops + [op]) == Next(parse, After(parse, s, ops), op)
  {
    assert [op][1..] == [];
    Joined(parse, s, ops, [op]);
  }

  // ----- What was set before the answer

  datatype Field = OfProvider | OfRequest | OfRequestSize | OfResponseSize | OfResponse

  function FieldOf(setter: Setter): Field {
    match setter
    case Provider(_) => OfProvider
    case Request(_, _) => OfRequest
    case RequestSize(_) => OfRequestSize
    case ResponseSize(_) => OfResponseSize
    case ResponseBody(_, _) => OfResponse
  }

  /** The last setter of a field. */
  function LastOf(setters: seq<Setter>, field: Field): (last: Option<Setter>)
    ensures last.Some? ==> FieldOf(last.value) == field
  {
    if setters == [] then None
    else Later(LastOf(setters[..|setters| - 1], field), setters[|setters| - 1], field)
  }

  function Later(last: Option<Setter>, setter: Setter, field: Field): Option<Setter> {
    if FieldOf(setter) == field then Some(setter) else last
  }

  predicate IsLast(setters: seq<Setter>, i: int, field: Field) {
    0 <= i < |setters| && FieldOf(setters[i]) == field && forall j :: i < j < |setters| ==> FieldOf(setters[j]) != field
  }

  lemma {:induction false} NoLaterSetter(setters: seq<Setter>, field: Field)
    ensures match LastOf(setters, field)
            case None => forall i :: 0 <= i < |setters| ==> FieldOf(setters[i]) != field
            case Some(last) => exists i :: IsLast(setters, i, field) && setters[i] == last
  {
    if setters != [] {
      var n := |setters| - 1;
      NoLaterSetter(setters[..n], field);
      if FieldOf(setters[n]) == field {
        assert IsLast(setters, n, field);
      } else if LastOf(setters, field).Some? {
        var i :| IsLast(setters[..n], i, field) && setters[i] == LastOf(setters, field).value;
        assert IsLast(setters, i, field);
      }
    }
  }

  /** The event as the call's setters leave it, each field by the last one that sets it. */
  predicate SetBy(event: Event, id: string, consumerId: string, archive: bool, setters: seq<Setter>) {
    && event.id == id && event.consumerId == consumerId && event.archive == archive
    && SizesAre(event, LastOf(setters, OfProvider), LastOf(setters, OfRequestSize), LastOf(setters, OfResponseSize))
    && BodiesAre(event, LastOf(setters, OfRequest), LastOf(setters, OfResponse))
  }

  predicate Is(last: Option<Setter>, field: Field) {
    last.Some? ==> FieldOf(last.value) == field
  }

  predicate SizesAre(event: Event, provider: Option<Setter>, request: Option<Setter>, response: Option<Setter>)
    requires Is(provider, OfProvider) && Is(request, OfRequestSize) && Is(response, OfResponseSize)
  {
    && event.providerId == (if provider.Some? then Some(provider.value.id) else None)
    && event.requestBytes == (if request.Some? then request.value.bytes else 0)
    && event.responseBytes == event.transportBytes == (if response.Some? then response.value.bytes else 0)
  }

  predicate BodiesAre(event: Event, request: Option<Setter>, response: Option<Setter>)
    requires Is(request, OfRequest) && Is(response, OfResponse)
  {
    && (if event.archive && request.Some?
        then Keeps(event.requestBody, event.requestTruncated, request.value.body, request.value.truncated)
        else event.requestBody == [] && !event.requestTruncated)
    && (if event.archive && response.Some?
        then event.responseBody.Some?
             && Keeps(event.responseBody.value, event.responseTruncated, response.value.body, response.value.truncated)
        else event.responseBody == None && !event.responseTruncated)
  }

  /** A body is archived up to the limit, and marked if that, or its sender, cut it. */
  predicate Keeps(kept: seq<Byte>, truncated: bool, body: seq<Byte>, already: bool) {
    kept == body[..Min(|body|, 0x10_0000)] && (truncated <==> already || |body| > 0x10_0000)
  }

  function Sets(setters: seq<Setter>): seq<Op> {
    if setters == [] then [] else Sets(setters[..|setters| - 1]) + [Set(setters[|setters| - 1])]
  }

  lemma OneMoreSize(event: Event, x: Setter, provider: Option<Setter>, request: Option<Setter>,
      response: Option<Setter>)
    requires Is(provider, OfProvider) && Is(request, OfRequestSize) && Is(response, OfResponseSize)
    requires SizesAre(event, provider, request, response)
    ensures SizesAre(SetEvent(event, x), Later(provider, x, OfProvider), Later(request, x, OfRequestSize),
                     Later(response, x, OfResponseSize))
  {
  }

  lemma OneMoreBody(event: Event, x: Setter, request: Option<Setter>, response: Option<Setter>)
    requires Is(request, OfRequest) && Is(response, OfResponse) && BodiesAre(event, request, response)
    ensures BodiesAre(SetEvent(event, x), Later(request, x, OfRequest), Later(response, x, OfResponse))
  {
  }

  lemma LastSizes(event: Event, setters: seq<Setter>)
    requires setters != []
    requires var init := setters[..|setters| - 1];
             SizesAre(event, LastOf(init, OfProvider), LastOf(init, OfRequestSize), LastOf(init, OfResponseSize))
    ensures SizesAre(SetEvent(event, setters[|setters| - 1]),
                     LastOf(setters, OfProvider), LastOf(setters, OfRequestSize), LastOf(setters, OfResponseSize))
  {
    var init, x := setters[..|setters| - 1], setters[|setters| - 1];
    OneMoreSize(event, x, LastOf(init, OfProvider), LastOf(init, OfRequestSize), LastOf(init, OfResponseSize));
  }

  lemma LastBodies(event: Event, setters: seq<Setter>)
    requires setters != []
    requires BodiesAre(event, LastOf(setters[..|setters| - 1], OfRequest), LastOf(setters[..|setters| - 1], OfResponse))
    ensures BodiesAre(SetEvent(event, setters[|setters| - 1]),
                      LastOf(setters, OfRequest), LastOf(setters, OfResponse))
  {
    var init, x := setters[..|setters| - 1], setters[|setters| - 1];
    OneMoreBody(event, x, LastOf(init, OfRequest), LastOf(init, OfResponse));
  }

  lemma OneMoreSetter(event: Event, id: string, consumerId: string, archive: bool, setters: seq<Setter>)
    requires setters != [] && SetBy(event, id, consumerId, archive, setters[..|setters| - 1])
    ensures SetBy(SetEvent(event, setters[|setters| - 1]), id, consumerId, archive, setters)
  {
    LastSizes(event, setters);
    LastBodies(event, setters);
  }

  lemma {:induction false} SettersAreRecorded(
    parse: Parser, id: string, consumerId: string, archive: bool, setters: seq<Setter>)
    ensures var s := Started(id, consumerId, true, archive);
            && IsRun(parse, s, Sets(setters))
            && var n := After(parse, s, Sets(setters));
               && n == s.(tracker := n.tracker) && n.tracker.Some?
               && n.tracker.value == Tracker(true, archive, n.tracker.value.event) && n.tracker.value.event.Some?
               && SetBy(n.tracker.value.event.value, id, consumerId, archive, setters)
  {
    if setters != [] {
      var init, last := setters[..|setters| - 1], setters[|setters| - 1];
      SettersAreRecorded(parse, id, consumerId, archive, init);
      var s := Started(id, consumerId, true, archive);
      var event := After(parse, s, Sets(init)).tracker.value.event.value;
      OneMoreSetter(event, id, consumerId, archive, setters);
      Extended(parse, s, Sets(init), Set(last));
    }
  }

  // ----- Answers

  /** What was measured of the response. */
  predicate Measured(event: Event, status: int, model: Option<string>, usage: Usage, error: Option<string>) {
    && event.status == status && event.model == model && event.usage == usage && event.error == error
    && (model.None? ==> event.cost == None)
    && (model.Some? ==> match Pricing.CostUsdNanos(model.value, usage)
                        case Priced(nanos) => event.cost == Some(nanos)
                        case _ => event.cost == None)
  }

  /** What the setters said that no answer overwrites. */
  predicate SameCall(before: Event, after: Event) {
    && after.id == before.id && after.consumerId == before.consumerId && after.archive == before.archive
    && after.providerId == before.providerId && after.requestBytes == before.requestBytes
    && after.transportBytes == before.transportBytes
    && after.requestBody == before.requestBody && after.requestTruncated == before.requestTruncated
  }

  predicate SameResponse(before: Event, after: Event) {
    && after.responseBytes == before.responseBytes && after.responseBody == before.responseBody
    && after.responseTruncated == before.responseTruncated
  }

  /** One more message was sent, of an event that `before` became. */
  predicate SendsOne(s: State, n: State, before: Event, after: Event) {
    |n.sent| == |s.sent| + 1 && n.sent == s.sent + [Call(after, before.archive)] && SameCall(before, after)
  }

  predicate Answering(s: State) {
    && s.tracker.Some? && s.tracker.value.event.Some? && !s.panicked
    && Owns(s.tracker.value.permit, s.tracker.value.budget, s.tracker.value.event)
  }

  /** A buffered response: one that can be priced is recorded as it was set and measured. */
  lemma BufferedResponseIsRecorded(
    parse: Parser, s: State, status: int, model: Option<string>, usage: Usage, error: Option<string>)
    returns (event: Event)
    requires Answering(s) && IsStatus(status) && !Unpriceable(model, usage)
    ensures var before, n := s.tracker.value.event.value, Next(parse, s, Finish(status, model, usage, error));
            && SendsOne(s, n, before, event) && SameResponse(before, event)
            && Measured(event, status, model, usage, error)
  {
    SettlesUnlessUnpriceable(s.tracker.value.event.value, status, model, usage, error);
    event := Settled(s.tracker.value.event.value, status, model, usage, error).value;
  }

  /** A call nobody answered: cancelled, without model, usage or price, and what it had marked as cut. */
  lemma UnansweredCallIsRecorded(parse: Parser, s: State) returns (event: Event)
    requires Answering(s)
    ensures var before, n := s.tracker.value.event.value, Next(parse, s, DropTracker);
            && SendsOne(s, n, before, event)
            && event.responseBytes == before.responseBytes && event.responseBody == before.responseBody
            && event.responseTruncated && Measured(event, 499, None, ZERO, Some("client_cancelled"))
  {
    var before := s.tracker.value.event.value.(responseTruncated := true);
    SettlesUnlessUnpriceable(before, CANCELLED, None, ZERO, Some("client_cancelled"));
    event := Settled(before, CANCELLED, None, ZERO, Some("client_cancelled")).value;
  }

  // ----- Streams

  function Captures(chunks: seq<seq<Byte>>): seq<Op> {
    if chunks == [] then [] else Captures(chunks[..|chunks| - 1]) + [Capture(chunks[|chunks| - 1])]
  }

  /** What a stream has captured of its chunks. */
  function CapturedFrom(parse: Parser, c: Completion, chunks: seq<seq<Byte>>): Completion
    requires c.event.Some?
  {
    c.(reader := FeedAll(parse, chunks), responseBytes := |Concat(chunks)|,
       preview := if c.event.value.archive then CapturedAll(chunks, ARCHIVE_BODY_LIMIT) else EMPTY)
  }

  lemma {:induction false} ChunksAreCaptured(parse: Parser, s: State, chunks: seq<seq<Byte>>)
    requires s.stream.Live? && s.stream.completion.event.Some?
    requires s.stream.completion.(permit := true, budget := true) ==
             Completion(true, true, s.stream.completion.event, Reader([], ZERO), EMPTY, 0)
    ensures IsRun(parse, s, Captures(chunks))
    ensures After(parse, s, Captures(chunks))
            == s.(stream := Live(CapturedFrom(parse, s.stream.completion, chunks)))
  {
    if chunks != [] {
      var init, last := chunks[..|chunks| - 1], chunks[|chunks| - 1];
      ChunksAreCaptured(parse, s, init);
      Extended(parse, s, Captures(init), Capture(last));
    }
  }

  /** How a stream ends: read to its end, failed, or dropped before. */
  datatype End = Complete | Broken | Abandoned

  function EndOp(end: End): Op {
    match end
    case Complete => FinishStream(false)
    case Broken => FinishStream(true)
    case Abandoned => DropStream
  }

  function StreamOps(status: int, model: Option<string>, chunks: seq<seq<Byte>>, end: End): seq<Op> {
    [TakeStream(status, model)] + Captures(chunks) + [EndOp(end)]
  }

  /** The stream's own part of its event, `body` being all bytes that passed. */
  predicate Streamed(event: Event, body: seq<Byte>, end: End) {
    && event.responseBytes == |body|
    && event.responseBody == Some(if event.archive then body[..Min(|body|, 0x10_0000)] else [])
    && (event.responseTruncated <==> !end.Complete? || (event.archive && |body| > 0x10_0000))
  }

  function EndStatus(status: int, end: End): int {
    match end
    case Complete => status
    case Broken => 502
    case Abandoned => 499
  }

  function EndError(end: End): Option<string> {
    match end
    case Complete => None
    case Broken => Some("upstream_stream_error")
    case Abandoned => Some("client_cancelled")
  }

  lemma StreamEventSays(
    parse: Parser, c: Completion, chunks: seq<seq<Byte>>, status: int, truncated: bool, error: Option<string>)
    returns (event: Event)
    requires c.event.Some? && c == CapturedFrom(parse, c, chunks)
    ensures StreamEvent(c, status, truncated, error) == Some(event) && SameCall(c.event.value, event)
    ensures event.responseBytes == |Concat(chunks)| && event.responseTruncated == truncated
    ensures event.responseBody == Some(if event.archive then BodyPreview(Concat(chunks)).0 else [])
    ensures c.preview.truncated <==> event.archive && |Concat(chunks)| > ARCHIVE_BODY_LIMIT
    ensures Measured(event, status, c.event.value.model, FeedAll(parse, chunks).usage, error)
  {
    StreamedPreviewIsBodyPreview(chunks);
    FedUsageIsPriceable(parse, chunks);
    StreamEventsSettle(c, status, truncated, error);
    event := StreamEvent(c, status, truncated, error).value;
  }

  lemma EndedStreamIsRecorded(parse: Parser, s: State, chunks: seq<seq<Byte>>, end: End) returns (event: Event)
    requires s.stream.Live? && s.stream.completion.event.Some?
    requires Owns(s.stream.completion.permit, s.stream.completion.budget, s.stream.completion.event)
    requires s.stream.completion == CapturedFrom(parse, s.stream.completion, chunks)
    ensures var c, n := s.stream.completion, Next(parse, s, EndOp(end));
            && SendsOne(s, n, c.event.value, event) && Streamed(event, Concat(chunks), end)
            && Measured(event, EndStatus(c.event.value.status, end), c.event.value.model,
                        FeedAll(parse, chunks).usage, EndError(end))
  {
    var c := s.stream.completion;
    var truncated := !end.Complete? || c.preview.truncated;
    event := StreamEventSays(parse, c, chunks, EndStatus(c.event.value.status, end), truncated, EndError(end));
  }

  lemma {:induction false} FedUsageIsPriceable(parse: Parser, chunks: seq<seq<Byte>>)
    ensures FeedAll(parse, chunks).usage.input >= 0
  {
    if chunks != [] {
      var before, last := FeedAll(parse, chunks[..|chunks| - 1]), chunks[|chunks| - 1];
      FedUsageIsPriceable(parse, chunks[..|chunks| - 1]);
      UsageOnlyGrows(parse, before.usage, Lines(before.pending + last));
    }
  }

  /**
   A streamed response: whatever its chunks and however it ends, its one event has the usage read from all
   chunks, which for bounded lines is that of the whole stream; all bytes that passed, counted, and if archiving
   their preview; and the price of that usage under the model taken.
   */
  lemma StreamedResponseIsRecorded(
    parse: Parser, s: State, status: int, model: Option<string>, chunks: seq<seq<Byte>>, end: End)
    returns (event: Event)
    requires Answering(s) && s.stream.Absent? && IsStatus(status)
    ensures IsRun(parse, s, StreamOps(status, model, chunks, end))
    ensures var before, n := s.tracker.value.event.value, After(parse, s, StreamOps(status, model, chunks, end));
            && SendsOne(s, n, before, event) && Streamed(event, Concat(chunks), end)
            && Measured(event, EndStatus(status, end), model, event.usage, EndError(end))
            && event.usage == FeedAll(parse, chunks).usage
            && (Bounded(Concat(chunks)) ==> event.usage == MergeLines(parse, ZERO, Lines(Concat(chunks))))
  {
    var take := TakeStream(status, model);
    Extended(parse, s, [], take);
    assert [] + [take] == [take];
    var taken := Next(parse, s, take);
    ChunksAreCaptured(parse, taken, chunks);
    Joined(parse, s, [take], Captures(chunks));
    var captured := After(parse, taken, Captures(chunks));
    event := EndedStreamIsRecorded(parse, captured, chunks, end);
    Extended(parse, s, [take] + Captures(chunks), EndOp(end));
    if Bounded(Concat(chunks)) {
      ReaderIgnoresChunking(parse, chunks);
    }
  }

  // ----- From the start of a call to its event

  /** The whole record of a streamed call: what was set, and what passed. */
  lemma StreamedCallIsRecorded(
    parse: Parser, id: string, consumerId: string, archive: bool, setters: seq<Setter>, status: int,
    model: Option<string>, chunks: seq<seq<Byte>>, end: End) returns (event: Event)
    requires IsStatus(status)
    ensures var s, ops := Started(id, consumerId, true, archive), Sets(setters) + StreamOps(status, model, chunks, end);
            && IsRun(parse, s, ops) && After(parse, s, ops).sent == [Call(event, archive)]
            && (exists given: Event :: SetBy(given, id, consumerId, archive, setters) && SameCall(given, event))
            && Streamed(event, Concat(chunks), end)
            && Measured(event, EndStatus(status, end), model, FeedAll(parse, chunks).usage, EndError(end))
            && (Bounded(Concat(chunks)) ==> event.usage == MergeLines(parse, ZERO, Lines(Concat(chunks))))
  {
    var s := Started(id, consumerId, true, archive);
    SettersAreRecorded(parse, id, consumerId, archive, setters);
    var ready := After(parse, s, Sets(setters));
    event := StreamedResponseIsRecorded(parse, ready, status, model, chunks, end);
    Joined(parse, s, Sets(setters), StreamOps(status, model, chunks, end));
    assert SetBy(ready.tracker.value.event.value, id, consumerId, archive, setters);
  }

  /** The whole record of a buffered call. */
  lemma BufferedCallIsRecorded(
    parse: Parser, id: string, consumerId: string, archive: bool, setters: seq<Setter>, status: int,
    model: Option<string>, usage: Usage, error: Option<string>) returns (event: Event)
    requires IsStatus(status) && !Unpriceable(model, usage)
    ensures var s, ops := Started(id, consumerId, true, archive), Sets(setters) + [Finish(status, model, usage, error)];
            && IsRun(parse, s, ops) && After(parse, s, ops).sent == [Call(event, archive)]
            && SetBy(event, id, consumerId, archive, setters) && Measured(event, status, model, usage, error)
  {
    var s := Started(id, consumerId, true, archive);
    SettersAreRecorded(parse, id, consumerId, archive, setters);
    event := BufferedResponseIsRecorded(parse, After(parse, s, Sets(setters)), status, model, usage, error);
    Extended(parse, s, Sets(setters), Finish(status, model, usage, error));
  }
}
