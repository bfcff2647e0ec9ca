/**
 One audited call. A queue slot, an optional archive budget and the event move from the tracker to
 the stream completion to the queue; destructors settle what nobody settled.
 */
module AuditCall {
  import opened Options
  import opened Previews
  import opened SseUsage
  import Pricing

  datatype Event = Event(
    id: string,
    consumerId: string,
    archive: bool,
    providerId: Option<string>,
    model: Option<string>,
    status: int,
    usage: Usage,
    cost: Option<int>,
    error: Option<string>,
    requestBytes: int,
    responseBytes: int,
    transportBytes: int,
    requestBody: seq<Byte>,
    requestTruncated: bool,
    responseBody: Option<seq<Byte>>,
    responseTruncated: bool)

  datatype Message =
    | Call(event: Event, budget: bool)
    | Transport(id: string, bytes: int, encoding: Option<string>, headers: Option<string>)

  /** `settle`; `None` when pricing panics, which loses the event. */
  function Settled(event: Event, status: int, model: Option<string>, usage: Usage,
      error: Option<string>): Option<Event> {
    var cost := if model.Some? then Pricing.CostUsdNanos(model.value, usage) else Pricing.Unpriced;
    if cost.Panics? then None
    else Some(event.(status := status, model := model, usage := usage, error := error,
                     cost := if cost.Priced? then Some(cost.nanos) else None))
  }

  /** The usage that cannot be priced: a negative input count under a model that charges for writing the cache. */
  predicate Unpriceable(model: Option<string>, usage: Usage) {
    && usage.input < 0 && model.Some?
    && var found := Pricing.Lookup(Pricing.TABLE, model.value); found.Some? && found.value.short.cacheWrite != 0
  }

  lemma SettlesUnlessUnpriceable(
    event: Event, status: int, model: Option<string>, usage: Usage, error: Option<string>)
    ensures Settled(event, status, model, usage, error).None? <==> Unpriceable(model, usage)
  {
    if model.Some? {
      Pricing.PanicsIffNegativeInput(model.value, usage);
    }
  }

  // ----- The tracker

  datatype Tracker = Tracker(permit: bool, budget: bool, event: Option<Event>)

  datatype Setter =
    | Provider(id: string)
    | Request(body: seq<Byte>, truncated: bool)
    | RequestSize(bytes: int)
    | ResponseSize(bytes: int)
    | ResponseBody(body: seq<Byte>, truncated: bool)

  function SetEvent(event: Event, setter: Setter): Event {
    match setter
    case Provider(id) => event.(providerId := Some(id))
    case Request(body, truncated) =>
      if !event.archive then event
      else event.(requestBody := BodyPreview(body).0, requestTruncated := truncated || BodyPreview(body).1)
    case RequestSize(bytes) => event.(requestBytes := bytes)
    case ResponseSize(bytes) => event.(responseBytes := bytes, transportBytes := bytes)
    case ResponseBody(body, truncated) =>
      if !event.archive then event
      else event.(responseBody := Some(BodyPreview(body).0), responseTruncated := truncated || BodyPreview(body).1)
  }

  function SetTracker(t: Tracker, setter: Setter): Tracker {
    if t.event.None? then t else t.(event := Some(SetEvent(t.event.value, setter)))
  }

  /** `AuditTracker::begin`: no slot, no event; no archive budget without a slot. */
  function Begun(id: string, consumerId: string, slot: bool, archive: bool): Tracker {
    var budget := slot && archive;
    Tracker(slot, budget,
            if slot
            then Some(Event(id, consumerId, budget, None, None, 0, ZERO, None, None, 0, 0, 0, [], false, None, false))
            else None)
  }

  /** Hands a settled event to the queue with the slot and the budget. */
  function Sent(event: Option<Event>, budget: bool): seq<Message> {
    if event.Some? then [Call(event.value, budget)] else []
  }

  // ----- The stream completion

  datatype Completion = Completion(permit: bool, budget: bool, event: Option<Event>, reader: Reader, preview: Preview,
      responseBytes: int)

  /** `take_stream`. */
  function Taken(t: Tracker, status: int, model: Option<string>): Completion {
    Completion(t.permit, t.budget,
               if t.event.Some? then Some(t.event.value.(status := status, model := model)) else None,
               Reader([], ZERO), EMPTY, 0)
  }

  /** `capture_sse`. */
  function Capturing(parse: Parser, c: Completion, bytes: seq<Byte>): Completion {
    if c.event.None? then c
    else c.(responseBytes := c.responseBytes + |bytes|, reader := Feed(parse, c.reader, bytes),
            preview := if c.event.value.archive then Captured(c.preview, bytes, ARCHIVE_BODY_LIMIT) else c.preview)
  }

  /** The event a completion settles, at the end of the stream or when it is dropped. */
  function StreamEvent(c: Completion, status: int, truncated: bool, error: Option<string>): Option<Event>
    requires c.event.Some?
  {
    var event := c.event.value.(responseBody := Some(c.preview.body), responseTruncated := truncated,
        responseBytes := c.responseBytes);
    Settled(event, status, event.model, c.reader.usage, error)
  }

  // ----- A call as a state machine

  datatype Stream = Absent | Live(completion: Completion) | Gone

  /** `answer` is the id attached to the response; `drained` says that its body can be read to the end. */
  datatype State = State(tracker: Option<Tracker>, stream: Stream, sent: seq<Message>, answer: Option<string>,
      drained: bool, panicked: bool)

  datatype Op =
    | Set(setter: Setter)
    | Finish(status: int, model: Option<string>, usage: Usage, error: Option<string>)
    | TakeStream(status: int, model: Option<string>)
    | DropTracker
    | Capture(bytes: seq<Byte>)
    | FinishStream(failed: bool)
    | DropStream

  function Started(id: string, consumerId: string, slot: bool, archive: bool): State {
    State(Some(Begun(id, consumerId, slot, archive)), Absent, [], None, false, false)
  }

  predicate IsStatus(status: int) {
    100 <= status <= 999
  }

  /** Ownership: an operation needs its owner; a stream is taken at most once; after a panic only destructors run. */
  predicate Enabled(s: State, op: Op) {
    match op
    case Set(_) => s.tracker.Some? && !s.panicked
    case Finish(status, _, _, _) => s.tracker.Some? && !s.panicked && IsStatus(status)
    case TakeStream(status, _) => s.tracker.Some? && !s.panicked && IsStatus(status) && s.stream.Absent?
    case DropTracker => s.tracker.Some?
    case Capture(_) => s.stream.Live?
    case FinishStream(_) => s.stream.Live?
    case DropStream => s.stream.Live?
  }

  const CANCELLED := 499

  function Next(parse: Parser, s: State, op: Op): State
    requires Enabled(s, op)
  {
    match op
    case Set(setter) => s.(tracker := Some(SetTracker(s.tracker.value, setter)))
    case Finish(status, model, usage, error) =>
      var t := s.tracker.value;
      if t.event.None? then s
      else
        var event := Settled(t.event.value, status, model, usage, error);
        if event.None? then s.(tracker := Some(t.(event := None)), panicked := true)
        else s.(tracker := Some(Tracker(false, false, None)), sent := s.sent + [Call(event.value, t.budget)],
                answer := Some(event.value.id), drained := true)
    case TakeStream(status, model) =>
      var t := s.tracker.value;
      s.(tracker := Some(Tracker(false, false, None)), stream := Live(Taken(t, status, model)),
         answer := if t.event.Some? then Some(t.event.value.id) else s.answer)
    case DropTracker =>
      var t := s.tracker.value;
      if t.event.None? then s.(tracker := None)
      else
        var event := Settled(t.event.value.(responseTruncated := true), CANCELLED, None, ZERO,
            Some("client_cancelled"));
        s.(tracker := None, sent := s.sent + Sent(event, t.budget))
    case Capture(bytes) => s.(stream := Live(Capturing(parse, s.stream.completion, bytes)))
    case FinishStream(failed) =>
      var c := s.stream.completion;
      if c.event.None? then s.(drained := true)
      else
        var event := StreamEvent(c, if failed then 502 else c.event.value.status, c.preview.truncated || failed,
                                 if failed then Some("upstream_stream_error") else None);
        s.(stream := Live(c.(permit := false, budget := false, event := None, preview := c.preview.(body := []))),
           sent := s.sent + Sent(event, c.budget), drained := true, panicked := s.panicked || event.None?)
    case DropStream =>
      var c := s.stream.completion;
      if c.event.None? then s.(stream := Gone)
      else
        var event := StreamEvent(c, CANCELLED, true, Some("client_cancelled"));
        s.(stream := Gone, sent := s.sent + Sent(event, c.budget), panicked := s.panicked || event.None?)
  }

  // ----- Exactly once

  function Held(event: Option<Event>): nat {
    if event.Some? then 1 else 0
  }

  function InTracker(s: State): nat {
    if s.tracker.Some? then Held(s.tracker.value.event) else 0
  }

  function InStream(s: State): nat {
    if s.stream.Live? then Held(s.stream.completion.event) else 0
  }

  /** Whoever holds the event holds its slot, and the archive budget exactly when the event archives. */
  predicate Owns(permit: bool, budget: bool, event: Option<Event>) {
    event.Some? ==> permit && budget == event.value.archive
  }

  /** A message the call may send: its own event, settled with a real status, the budget travelling along. */
  predicate Proper(m: Message, id: string) {
    m.Call? && m.event.id == id && IsStatus(m.event.status) && m.budget == m.event.archive
  }

  /** The event of a reserved call is in exactly one place: tracker, stream, queue, or lost to a panic. */
  ghost predicate Inv(s: State, id: string, reserved: bool) {
    && InTracker(s) + InStream(s) + |s.sent| + (if s.panicked then 1 else 0) == (if reserved then 1 else 0)
    && (s.tracker.Some? ==>
          && Owns(s.tracker.value.permit, s.tracker.value.budget, s.tracker.value.event)
          && (s.tracker.value.event.Some? ==> s.tracker.value.event.value.id == id))
    && (s.stream.Live? ==>
          var c := s.stream.completion;
          && Owns(c.permit, c.budget, c.event) && c.reader.usage.input >= 0
          && (c.event.Some? ==> c.event.value.id == id && IsStatus(c.event.value.status) && s.answer == Some(id)))
    && (forall i :: 0 <= i < |s.sent| ==> Proper(s.sent[i], id))
    && (s.answer.Some? ==> s.answer.value == id && reserved && InTracker(s) == 0)
    && (!s.stream.Absent? ==> InTracker(s) == 0)
    && (s.drained ==> InTracker(s) == 0 && InStream(s) == 0)
  }

  lemma {:induction false} UsageOnlyGrows(parse: Parser, usage: Usage, lines: seq<seq<Byte>>)
    ensures Below(usage, MergeLines(parse, usage, lines))
    decreases |lines|
  {
    if lines != [] {
      UsageOnlyGrows(parse, MergeLine(parse, usage, lines[0]), lines[1..]);
    }
  }

  /** A settlement by the tracker that cannot price its usage. */
  predicate Fatal(op: Op) {
    op.Finish? && Unpriceable(op.model, op.usage)
  }

  lemma TrackerStepKeeps(parse: Parser, s: State, op: Op, id: string, reserved: bool)
    requires Inv(s, id, reserved) && Enabled(s, op) && (op.Set? || op.Finish? || op.TakeStream? || op.DropTracker?)
    ensures Inv(Next(parse, s, op), id, reserved)
    ensures Next(parse, s, op).panicked <==> s.panicked || (InTracker(s) == 1 && Fatal(op))
  {
    var t := s.tracker.value;
    if t.event.Some? {
      if op.Finish? {
        SettlesUnlessUnpriceable(t.event.value, op.status, op.model, op.usage, op.error);
      }
      SettlesUnlessUnpriceable(t.event.value.(responseTruncated := true), CANCELLED, None, ZERO,
          Some("client_cancelled"));
    }
  }

  lemma StreamEventsSettle(c: Completion, status: int, truncated: bool, error: Option<string>)
    requires c.event.Some? && c.reader.usage.input >= 0
    ensures StreamEvent(c, status, truncated, error).Some?
  {
    SettlesUnlessUnpriceable(
      c.event.value.(responseBody := Some(c.preview.body), responseTruncated := truncated,
          responseBytes := c.responseBytes),
      status, c.event.value.model, c.reader.usage, error);
  }

  /** The stream's own usage starts at zero and only grows, so a stream never panics. */
  lemma StreamStepKeeps(parse: Parser, s: State, op: Op, id: string, reserved: bool)
    requires Inv(s, id, reserved) && Enabled(s, op) && (op.Capture? || op.FinishStream? || op.DropStream?)
    ensures Inv(Next(parse, s, op), id, reserved)
    ensures Next(parse, s, op).panicked == s.panicked
  {
    var c := s.stream.completion;
    match op
    case Capture(bytes) => UsageOnlyGrows(parse, c.reader.usage, Lines(c.reader.pending + bytes));
    case FinishStream(failed) =>
      if c.event.Some? {
        StreamEventsSettle(c, if failed then 502 else c.event.value.status, c.preview.truncated || failed,
                           if failed then Some("upstream_stream_error") else None);
      }
    case DropStream =>
      if c.event.Some? {
        StreamEventsSettle(c, CANCELLED, true, Some("client_cancelled"));
      }
  }

  lemma StepKeeps(parse: Parser, s: State, op: Op, id: string, reserved: bool)
    requires Inv(s, id, reserved) && Enabled(s, op)
    ensures Inv(Next(parse, s, op), id, reserved)
    ensures Next(parse, s, op).panicked <==> s.panicked || (InTracker(s) == 1 && Fatal(op))
  {
    if op.Capture? || op.FinishStream? || op.DropStream? {
      StreamStepKeeps(parse, s, op, id, reserved);
    } else {
      TrackerStepKeeps(parse, s, op, id, reserved);
    }
  }

  /** A destructor that finds the event unsettled records a cancelled call. */
  lemma DropsRecordCancellation(parse: Parser, s: State, op: Op, id: string, reserved: bool)
    requires Inv(s, id, reserved) && Enabled(s, op)
    requires (op.DropTracker? && InTracker(s) == 1) || (op.DropStream? && InStream(s) == 1)
    ensures s.sent == [] && |Next(parse, s, op).sent| == 1
    ensures var event := Next(parse, s, op).sent[0].event;
            event.status == CANCELLED && event.error == Some("client_cancelled")
  {
    StepKeeps(parse, s, op, id, reserved);
    if op.DropTracker? {
      SettlesUnlessUnpriceable(s.tracker.value.event.value.(responseTruncated := true), CANCELLED, None, ZERO,
          Some("client_cancelled"));
    }
  }

  ghost predicate IsRun(parse: Parser, s: State, ops: seq<Op>)
    decreases |ops|
  {
    ops != [] ==> Enabled(s, ops[0]) && IsRun(parse, Next(parse, s, ops[0]), ops[1..])
  }

  ghost function After(parse: Parser, s: State, ops: seq<Op>): State
    requires IsRun(parse, s, ops)
    decreases |ops|
  {
    if ops == [] then s else After(parse, Next(parse, s, ops[0]), ops[1..])
  }

  /** The first operation to settle or hand on the event is a fatal one. */
  predicate Loses(ops: seq<Op>)
    decreases |ops|
  {
    ops != [] &&
    if ops[0].Finish? then Fatal(ops[0])
    else !ops[0].TakeStream? && !ops[0].DropTracker? && Loses(ops[1..])
  }

  lemma {:induction false} RunKeeps(parse: Parser, s: State, ops: seq<Op>, id: string, reserved: bool)
    requires Inv(s, id, reserved) && IsRun(parse, s, ops)
    ensures Inv(After(parse, s, ops), id, reserved)
    ensures After(parse, s, ops).panicked <==> s.panicked || (InTracker(s) == 1 && Loses(ops))
    decreases |ops|
  {
    if ops != [] {
      StepKeeps(parse, s, ops[0], id, reserved);
      RunKeeps(parse, Next(parse, s, ops[0]), ops[1..], id, reserved);
    }
  }

  /**
   Whatever is done to a call, once tracker and stream are gone exactly one event was enqueued if a
   slot had been reserved, none otherwise, and never with status zero. The one exception is a call
   whose event is first settled, by the tracker, with a usage that cannot be priced.
   */
  lemma ExactlyOneEventPerSlot(
    parse: Parser, id: string, consumerId: string, slot: bool, archive: bool, ops: seq<Op>)
    requires IsRun(parse, Started(id, consumerId, slot, archive), ops)
    requires var end := After(parse, Started(id, consumerId, slot, archive), ops);
             end.tracker.None? && !end.stream.Live?
    ensures var end := After(parse, Started(id, consumerId, slot, archive), ops);
            && |end.sent| == (if slot && !Loses(ops) then 1 else 0)
            && (end.sent == [] <==> !slot || Loses(ops))
            && (end.sent != [] ==> Proper(end.sent[0], id))
  {
    RunKeeps(parse, Started(id, consumerId, slot, archive), ops, id, slot);
  }

  lemma MinusOneTokenIsUnpriceable()
    ensures Unpriceable(Some("gpt-5.6-sol"), Usage(-1, 0, 0, 0))
  {
    Pricing.NegativeInputPanics();
    Pricing.PanicsIffNegativeInput("gpt-5.6-sol", Usage(-1, 0, 0, 0));
  }

  /** A buffered response that reports minus one input tokens costs its call the event. */
  lemma NegativeInputLosesTheEvent(parse: Parser, id: string, consumerId: string, archive: bool)
    ensures var start := Started(id, consumerId, true, archive);
            var ops := [Finish(200, Some("gpt-5.6-sol"), Usage(-1, 0, 0, 0), None), DropTracker];
            && IsRun(parse, start, ops) && Loses(ops)
            && After(parse, start, ops).tracker.None? && After(parse, start, ops).sent == []
  {
    var start := Started(id, consumerId, true, archive);
    var finish := Finish(200, Some("gpt-5.6-sol"), Usage(-1, 0, 0, 0), None);
    var ops := [finish, DropTracker];
    MinusOneTokenIsUnpriceable();
    TrackerStepKeeps(parse, start, finish, id, true);
    assert ops[1..] == [DropTracker] && [DropTracker][1..] == [];
    assert IsRun(parse, Next(parse, start, finish), [DropTracker]);
    ExactlyOneEventPerSlot(parse, id, consumerId, true, archive, ops);
  }
}
