/**
 The objects a call is audited with: the bounded queue and its memory budget, the tracker and the
 stream completion. Each method is proved to do the step of `AuditCall` and `AuditPipeline` it stands
 for, and that the slot a settled event needs is still there to be taken.
 */
module AuditObjects {
  import opened Options
  import opened Previews
  import opened SseUsage
  import Pricing
  import A = AuditCall
  import P = AuditPipeline

  class AuditQueue {
    var freeSlots: int
    var freeBytes: int
    var messages: seq<A.Message>

    /** The queue on its own, as a state of the pipeline. */
    function Value(): P.State
      reads this
    {
      P.State(freeSlots, freeBytes, [], [], [], messages, [], [])
    }

    constructor ()
      ensures Value() == P.IDLE
      ensures freeSlots == P.QUEUE_CAPACITY && freeBytes == P.QUEUE_BYTE_CAPACITY && messages == []
    {
      freeSlots, freeBytes, messages := P.QUEUE_CAPACITY, P.QUEUE_BYTE_CAPACITY, [];
    }

    method TryReserve() returns (reserved: bool)
      modifies `freeSlots
      ensures reserved <==> old(freeSlots) > 0
      ensures freeSlots == old(freeSlots) - P.Count(reserved)
    {
      reserved := freeSlots > 0;
      if reserved {
        freeSlots := freeSlots - 1;
      }
    }

    method TryReserveArchive() returns (reserved: bool)
      modifies `freeBytes
      ensures reserved <==> old(freeBytes) >= P.ARCHIVE_RESERVATION
      ensures freeBytes == old(freeBytes) - P.ARCHIVE_RESERVATION * P.Count(reserved)
    {
      reserved := freeBytes >= P.ARCHIVE_RESERVATION;
      if reserved {
        freeBytes := freeBytes - P.ARCHIVE_RESERVATION;
      }
    }

    /** `AuditReservation::send`: the reserved slot becomes a message. */
    method Send(event: A.Event, budget: bool)
      modifies `messages
      ensures messages == old(messages) + [A.Call(event, budget)]
    {
      messages := messages + [A.Call(event, budget)];
    }

    /** Dropping permits that were not spent on a message. */
    method Return(permit: bool, budget: bool)
      modifies `freeSlots, `freeBytes
      ensures freeSlots == old(freeSlots) + P.Count(permit)
      ensures freeBytes == old(freeBytes) + P.ARCHIVE_RESERVATION * P.Count(budget)
    {
      freeSlots := freeSlots + (if permit then 1 else 0);
      freeBytes := freeBytes + (if budget then P.ARCHIVE_RESERVATION else 0);
    }

    method RecordResponseTransport(id: string, bytes: int, encoding: Option<string>, headers: Option<string>)
      modifies `freeSlots, `messages
      ensures if old(freeSlots) > 0
              then freeSlots == old(freeSlots) - 1
                  && messages == old(messages) + [A.Transport(id, bytes, encoding, headers)]
              else freeSlots == old(freeSlots) && messages == old(messages)
      ensures var before := old(Value()).(calls := [Answered(id)]);
              forall parse: Parser ::
                P.Next(parse, before, P.Report(0, bytes, encoding, headers)) == Value().(calls := before.calls)
    {
      var reserved := TryReserve();
      if reserved {
        messages := messages + [A.Transport(id, bytes, encoding, headers)];
      }
    }

    /**
     The body wrapper of `record_response_transport`: chunks pass through, the bytes of those that
     arrived are counted, and the report is sent when the body is over, never before.
     */
    method RelayAndReport(body: seq<Option<seq<Byte>>>, id: string, encoding: Option<string>, headers: Option<string>)
      returns (relayed: seq<Option<seq<Byte>>>)
      modifies `freeSlots, `messages
      ensures relayed == body
      ensures messages == old(messages)
          + (if old(freeSlots) > 0 then [A.Transport(id, Arrived(body), encoding, headers)] else [])
    {
      var bytes := 0;
      relayed := [];
      for i := 0 to |body|
        invariant relayed == body[..i] && bytes == Arrived(body[..i])
        invariant freeSlots == old(freeSlots) && messages == old(messages)
      {
        assert body[..i + 1][..i] == body[..i];
        if body[i].Some? {
          bytes := bytes + |body[i].value|;
        }
        relayed := relayed + [body[i]];
      }
      assert body[..|body|] == body;
      RecordResponseTransport(id, bytes, encoding, headers);
    }
  }

  /** The bytes of the chunks that arrived. */
  function Arrived(body: seq<Option<seq<Byte>>>): int {
    if body == [] then 0
    else
      var n := |body| - 1;
      Arrived(body[..n]) + if body[n].Some? then |body[n].value| else 0
  }

  /** Every chunk that arrived counts with all its bytes, one that failed with none. */
  lemma {:induction false} ArrivedAddsUp(a: seq<Option<seq<Byte>>>, b: seq<Option<seq<Byte>>>)
    ensures Arrived(a + b) == Arrived(a) + Arrived(b)
    ensures |a| == 1 ==> Arrived(a) == if a[0].Some? then |a[0].value| else 0
    decreases |b|
  {
    if |a| == 1 {
      assert a[..0] == [];
    }
    if b == [] {
      assert a + b == a;
    } else {
      ArrivedAddsUp(a, b[..|b| - 1]);
      assert (a + b)[..|a + b| - 1] == a + b[..|b| - 1];
    }
  }

  /** A call whose response has been read to its end. */
  function Answered(id: string): A.State {
    A.State(None, A.Gone, [], Some(id), true, false)
  }

  /** A tracker, or a stream, on its own, as a state of the call. */
  function Tracking(t: A.Tracker): A.State {
    A.State(Some(t), A.Absent, [], None, false, false)
  }

  function Streaming(c: A.Completion): A.State {
    A.State(None, A.Live(c), [], None, false, false)
  }

  /** `settle`. A panic in pricing is reported instead of unwinding. */
  method Settle(event: A.Event, status: int, model: Option<string>, usage: Usage, error: Option<string>)
    returns (settled: Option<A.Event>)
    ensures settled == A.Settled(event, status, model, usage, error)
  {
    var e := event.(status := status, model := model, usage := usage, cost := None);
    if model.Some? {
      var cost := Pricing.CostUsdNanos(model.value, usage);
      if cost.Panics? {
        return None;
      }
      if cost.Priced? {
        e := e.(cost := Some(cost.nanos));
      }
    }
    settled := Some(e.(error := error));
  }

  class AuditTracker {
    const parse: Parser
    const queue: AuditQueue
    var permit: bool
    var budget: bool
    var event: Option<A.Event>

    function Value(): A.Tracker
      reads this
    {
      A.Tracker(permit, budget, event)
    }

    predicate Owns()
      reads this
    {
      A.Owns(permit, budget, event)
    }

    constructor Begin(queue: AuditQueue, parse: Parser, id: string, consumerId: string, wantsArchive: bool)
      modifies queue
      ensures this.queue == queue && this.parse == parse && Owns()
      ensures var slot := old(queue.freeSlots) > 0;
              var archive := slot && wantsArchive && old(queue.freeBytes) >= P.ARCHIVE_RESERVATION;
              && Value() == A.Begun(id, consumerId, slot, archive)
              && queue.freeSlots == old(queue.freeSlots) - P.Count(slot)
              && queue.freeBytes == old(queue.freeBytes) - P.ARCHIVE_RESERVATION * P.Count(archive)
      ensures var after := P.Next(parse, old(queue.Value()), P.Arrive(id, consumerId, wantsArchive));
              queue.Value() == after.(calls := [], ids := [], reserved := []) && after.calls == [Tracking(Value())]
      ensures queue.messages == old(queue.messages)
    {
      this.queue, this.parse := queue, parse;
      var slot := queue.TryReserve();
      var archive := false;
      if slot && wantsArchive {
        archive := queue.TryReserveArchive();
      }
      permit, budget := slot, archive;
      event := None;
      if slot {
        event := Some(
          A.Event(id, consumerId, archive, None, None, 0, ZERO, None, None, 0, 0, 0, [], false, None, false));
      }
    }

    method SetProvider(id: string)
      modifies `event
      ensures Value() == A.SetTracker(old(Value()), A.Provider(id))
    {
      if event.Some? {
        event := Some(event.value.(providerId := Some(id)));
      }
    }

    method SetRequest(body: seq<Byte>, truncated: bool)
      modifies `event
      ensures Value() == A.SetTracker(old(Value()), A.Request(body, truncated))
    {
      if event.Some? && event.value.archive {
        var (preview, limitTruncated) := BodyPreview(body);
        event := Some(event.value.(requestBody := preview, requestTruncated := truncated || limitTruncated));
      }
    }

    method SetRequestSize(bytes: int)
      modifies `event
      ensures Value() == A.SetTracker(old(Value()), A.RequestSize(bytes))
    {
      if event.Some? {
        event := Some(event.value.(requestBytes := bytes));
      }
    }

    method SetResponseSize(bytes: int)
      modifies `event
      ensures Value() == A.SetTracker(old(Value()), A.ResponseSize(bytes))
    {
      if event.Some? {
        event := Some(event.value.(responseBytes := bytes, transportBytes := bytes));
      }
    }

    method SetResponseBody(body: seq<Byte>, truncated: bool)
      modifies `event
      ensures Value() == A.SetTracker(old(Value()), A.ResponseBody(body, truncated))
    {
      if event.Some? && event.value.archive {
        var (preview, limitTruncated) := BodyPreview(body);
        event := Some(event.value.(responseBody := Some(preview), responseTruncated := truncated || limitTruncated));
      }
    }

    /** `take` of the slot: `expect` would fail if it had been spent before. */
    method SendWithReservation(e: A.Event)
      requires permit
      modifies `permit, `budget, queue`messages
      ensures !permit && !budget && queue.messages == old(queue.messages) + [A.Call(e, old(budget))]
    {
      var archiveBudget := budget;
      permit, budget := false, false;
      queue.Send(e, archiveBudget);
    }

    method Finish(status: int, model: Option<string>, usage: Usage, error: Option<string>)
      returns (answer: Option<string>, panicked: bool)
      requires Owns() && A.IsStatus(status)
      modifies `permit, `budget, `event, queue`messages
      ensures Owns()
      ensures var after := A.Next(parse, Tracking(old(Value())), A.Finish(status, model, usage, error));
              && after.tracker == Some(Value()) && queue.messages == old(queue.messages) + after.sent
              && answer == after.answer && panicked == after.panicked
    {
      if event.None? {
        return None, false;
      }
      var taken := event.value;
      event := None;
      var settled := Settle(taken, status, model, usage, error);
      if settled.None? {
        return None, true;
      }
      SendWithReservation(settled.value);
      answer, panicked := Some(settled.value.id), false;
    }

    method TakeStream(status: int, model: Option<string>) returns (completion: StreamCompletion)
      requires Owns() && A.IsStatus(status)
      modifies `permit, `budget, `event
      ensures Owns() && completion.Owns() && completion.queue == queue && fresh(completion) && fresh(completion.preview)
      ensures completion.parse == parse
      ensures var after := A.Next(parse, Tracking(old(Value())), A.TakeStream(status, model));
              after.tracker == Some(Value()) && after.stream == A.Live(completion.Value())
    {
      if event.Some? {
        event := Some(event.value.(status := status, model := model));
      }
      completion := new StreamCompletion(queue, parse, permit, budget, event);
      permit, budget, event := false, false, None;
    }

    /** The destructor: settles what nobody settled, returns what was not spent. */
    method Drop()
      requires Owns()
      modifies this, queue
      ensures var op, before := A.DropTracker, Tracking(old(Value()));
              && queue.messages == old(queue.messages) + A.Next(parse, before, op).sent
              && queue.freeSlots == old(queue.freeSlots) + P.FreedSlots(before, op)
              && queue.freeBytes == old(queue.freeBytes) + P.FreedBudget(before, op)
    {
      if event.Some? {
        var taken := event.value.(responseTruncated := true);
        event := None;
        A.SettlesUnlessUnpriceable(taken, A.CANCELLED, None, ZERO, Some("client_cancelled"));
        var settled := Settle(taken, A.CANCELLED, None, ZERO, Some("client_cancelled"));
        SendWithReservation(settled.value);
      }
      queue.Return(permit, budget);
    }
  }

  class StreamCompletion {
    const parse: Parser
    const queue: AuditQueue
    const preview: StreamingPreview
    var permit: bool
    var budget: bool
    var event: Option<A.Event>
    var pending: seq<Byte>
    var usage: Usage
    var responseBytes: int

    function Value(): A.Completion
      reads this, preview
    {
      A.Completion(permit, budget, event, Reader(pending, usage), preview.Value(), responseBytes)
    }

    /** Usage starts at zero and only grows, so a stream settles without a panic. */
    predicate Owns()
      reads this
    {
      A.Owns(permit, budget, event) && usage.input >= 0
    }

    constructor (queue: AuditQueue, parse: Parser, permit: bool, budget: bool, event: Option<A.Event>)
      requires A.Owns(permit, budget, event)
      ensures this.queue == queue && this.parse == parse && fresh(preview) && Owns()
      ensures Value() == A.Completion(permit, budget, event, Reader([], ZERO), EMPTY, 0)
    {
      this.queue, this.parse, this.permit, this.budget, this.event := queue, parse, permit, budget, event;
      pending, usage, responseBytes := [], ZERO, 0;
      preview := new StreamingPreview();
    }

    method CaptureSse(bytes: seq<Byte>)
      requires Owns()
      modifies `pending, `usage, `responseBytes, preview
      ensures Owns()
      ensures A.Next(parse, Streaming(old(Value())), A.Capture(bytes)).stream == A.Live(Value())
    {
      if event.None? {
        return;
      }
      responseBytes := responseBytes + |bytes|;
      A.UsageOnlyGrows(parse, usage, Lines(pending + bytes));
      pending, usage := UpdateSseUsage(parse, pending, bytes, usage);
      if event.value.archive {
        preview.Capture(bytes);
      }
    }

    method SettleAndSend(taken: A.Event, status: int, truncated: bool, error: Option<string>)
      requires permit && usage.input >= 0
      modifies `permit, `budget, preview, queue`messages
      ensures !permit && !budget && preview.Value() == old(preview.Value()).(body := [])
      ensures queue.messages == old(queue.messages)
              + A.Sent(A.StreamEvent(old(Value()).(event := Some(taken)), status, truncated, error), old(budget))
    {
      var e := taken.(responseBody := Some(preview.body), responseTruncated := truncated,
          responseBytes := responseBytes);
      preview.body := [];
      A.SettlesUnlessUnpriceable(e, status, taken.model, usage, error);
      var settled := Settle(e, status, taken.model, usage, error);
      var archiveBudget := budget;
      permit, budget := false, false;
      queue.Send(settled.value, archiveBudget);
    }

    method Finish(failed: bool)
      requires Owns()
      modifies this, preview, queue`messages
      ensures Owns()
      ensures var after := A.Next(parse, Streaming(old(Value())), A.FinishStream(failed));
              && after.stream == A.Live(Value()) && queue.messages == old(queue.messages) + after.sent
                  && !after.panicked
    {
      if event.None? {
        return;
      }
      var taken := event.value;
      event := None;
      SettleAndSend(taken, if failed then 502 else taken.status, preview.truncated || failed,
                    if failed then Some("upstream_stream_error") else None);
    }

    method Drop()
      requires Owns()
      modifies this, preview, queue
      ensures var op, before := A.DropStream, Streaming(old(Value()));
              && queue.messages == old(queue.messages) + A.Next(parse, before, op).sent
              && queue.freeSlots == old(queue.freeSlots) + P.FreedSlots(before, op)
              && queue.freeBytes == old(queue.freeBytes) + P.FreedBudget(before, op)
    {
      if event.Some? {
        var taken := event.value;
        event := None;
        SettleAndSend(taken, A.CANCELLED, true, Some("client_cancelled"));
      }
      queue.Return(permit, budget);
    }
  }
}
