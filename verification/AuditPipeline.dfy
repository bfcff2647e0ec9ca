/**
 The audit pipeline as a whole: any number of calls, the bounded queue, the archive memory budget and
 the writer's batch, moving in arbitrary interleaving.
 */
module AuditPipeline {
  import opened Numbers
  import opened Options
  import opened Previews
  import opened SseUsage
  import opened AuditWriter
  import A = AuditCall

  const QUEUE_CAPACITY := 4096
  const QUEUE_BYTE_CAPACITY := 64 * 1024 * 1024
  const ARCHIVE_RESERVATION := ARCHIVE_BODY_LIMIT * 2 + 16 * 1024

  // ----- What a call and a message hold

  function Count(b: bool): nat {
    if b then 1 else 0
  }

  function TrackerSlots(t: Option<A.Tracker>): nat {
    if t.Some? then Count(t.value.permit) else 0
  }

  function StreamSlots(s: A.Stream): nat {
    if s.Live? then Count(s.completion.permit) else 0
  }

  function Slots(c: A.State): int {
    TrackerSlots(c.tracker) + StreamSlots(c.stream)
  }

  function TrackerBudget(t: Option<A.Tracker>): int {
    if t.Some? then ARCHIVE_RESERVATION * Count(t.value.budget) else 0
  }

  function StreamBudget(s: A.Stream): int {
    if s.Live? then ARCHIVE_RESERVATION * Count(s.completion.budget) else 0
  }

  function Budget(c: A.State): int {
    TrackerBudget(c.tracker) + StreamBudget(c.stream)
  }

  function EventBytes(e: A.Event): int {
    |e.requestBody| + if e.responseBody.Some? then |e.responseBody.value| else 0
  }

  function OptionBytes(e: Option<A.Event>): int {
    if e.Some? then EventBytes(e.value) else 0
  }

  /** Request and response body bytes held on behalf of a call. */
  function Bytes(c: A.State): int {
    (if c.tracker.Some? then OptionBytes(c.tracker.value.event) else 0)
    + (if c.stream.Live? then OptionBytes(c.stream.completion.event) + |c.stream.completion.preview.body| else 0)
  }

  function MessageBudget(m: A.Message): int {
    if m.Call? then ARCHIVE_RESERVATION * Count(m.budget) else 0
  }

  function MessageBytes(m: A.Message): int {
    if m.Call? then EventBytes(m.event) else 0
  }

  /** What a destructor returns to queue and budget: the slot and reservation that did not leave with an event. */
  function FreedSlots(c: A.State, op: A.Op): int
    requires A.Enabled(c, op)
  {
    match op
    case DropTracker => if c.tracker.value.event.None? then TrackerSlots(c.tracker) else 0
    case DropStream => if c.stream.completion.event.None? then StreamSlots(c.stream) else 0
    case _ => 0
  }

  function FreedBudget(c: A.State, op: A.Op): int
    requires A.Enabled(c, op)
  {
    match op
    case DropTracker => if c.tracker.value.event.None? then TrackerBudget(c.tracker) else 0
    case DropStream => if c.stream.completion.event.None? then StreamBudget(c.stream) else 0
    case _ => 0
  }

  // ----- The pipeline

  /** `history` is what was written so far; `ids` the id drawn for each call and `reserved` whether it got a slot. */
  datatype State = State(
    freeSlots: int, freeBytes: int, calls: seq<A.State>, ids: seq<string>, reserved: seq<bool>,
    queue: seq<A.Message>, batch: seq<A.Message>, history: seq<A.Message>)

  datatype Step =
    | Arrive(id: string, consumerId: string, wantsArchive: bool)
    | Act(call: nat, op: A.Op)
    | Report(call: nat, bytes: int, encoding: Option<string>, headers: Option<string>)
    | Receive
    | Commit

  /** A response streams only before its body was recorded (`relay_response`); ids are fresh. */
  predicate Enabled(s: State, step: Step) {
    match step
    case Arrive(id, _, _) => id !in s.ids
    case Act(i, op) =>
      i < |s.calls| && A.Enabled(s.calls[i], op)
      && (op.TakeStream? && s.calls[i].tracker.value.event.Some? ==>
          s.calls[i].tracker.value.event.value.responseBody.None?)
    case Report(i, _, _, _) => i < |s.calls| && Reportable(s.calls[i])
    case Receive => s.queue != [] && |s.batch| < BATCH_CAPACITY
    case Commit => true
  }

  /** The response carries the audit id and its body has been read to the end. */
  predicate Reportable(c: A.State) {
    c.answer.Some? && c.drained && !c.panicked
  }

  function Next(parse: Parser, s: State, step: Step): State
    requires Enabled(s, step)
  {
    match step
    case Arrive(id, consumerId, wantsArchive) =>
      var slot := s.freeSlots > 0;
      var archive := slot && wantsArchive && s.freeBytes >= ARCHIVE_RESERVATION;
      s.(freeSlots := s.freeSlots - Count(slot), freeBytes := s.freeBytes - ARCHIVE_RESERVATION * Count(archive),
         calls := s.calls + [A.Started(id, consumerId, slot, archive)],
         ids := s.ids + [id], reserved := s.reserved + [slot])
    case Act(i, op) =>
      var c := s.calls[i];
      var n := A.Next(parse, c, op);
      s.(calls := s.calls[i := n], queue := s.queue + NewMessages(c, n),
         freeSlots := s.freeSlots + FreedSlots(c, op), freeBytes := s.freeBytes + FreedBudget(c, op))
    case Report(i, bytes, encoding, headers) =>
      if s.freeSlots > 0
      then s.(freeSlots := s.freeSlots - 1,
              queue := s.queue + [A.Transport(s.calls[i].answer.value, bytes, encoding, headers)])
      else s
    case Receive => s.(freeSlots := s.freeSlots + 1, queue := s.queue[1..], batch := s.batch + [s.queue[0]])
    case Commit =>
      s.(freeBytes := s.freeBytes + Sum(MessageBudget, s.batch), batch := [], history := s.history + s.batch)
  }

  function NewMessages(before: A.State, after: A.State): seq<A.Message> {
    if |after.sent| >= |before.sent| then after.sent[|before.sent|..] else []
  }

  /** Everything ever enqueued, oldest first. */
  function Enqueued(s: State): seq<A.Message> {
    s.history + s.batch + s.queue
  }

  // ----- One call: what it holds is conserved and bounded

  predicate EventFits(e: A.Event) {
    && |e.requestBody| <= (if e.archive then ARCHIVE_BODY_LIMIT else 0)
    && (e.responseBody.Some? ==> |e.responseBody.value| <= if e.archive then ARCHIVE_BODY_LIMIT else 0)
  }

  ghost predicate CallFits(c: A.State) {
    && (c.tracker.Some? && c.tracker.value.event.Some? ==> EventFits(c.tracker.value.event.value))
    && (c.stream.Live? ==>
          var p := c.stream.completion;
          && |p.preview.body| <= ARCHIVE_BODY_LIMIT
          && (p.event.Some? ==> EventFits(p.event.value) && p.event.value.responseBody.None?
                                && (!p.event.value.archive ==> p.preview.body == []))
          && (p.event.None? ==> p.preview.body == []))
    && (forall i :: 0 <= i < |c.sent| ==>
        c.sent[i].Call? && EventFits(c.sent[i].event) && c.sent[i].budget == c.sent[i].event.archive)
  }

  predicate OfTracker(op: A.Op) {
    op.Set? || op.Finish? || op.TakeStream? || op.DropTracker?
  }

  /** An operation moves slots and reservations from the call to its message, or a destructor returns them. */
  ghost predicate Conserves(parse: Parser, c: A.State, op: A.Op)
    requires A.Enabled(c, op)
  {
    var n := A.Next(parse, c, op);
    && c.sent <= n.sent && |n.sent| <= |c.sent| + 1
    && Slots(c) == Slots(n) + (|n.sent| - |c.sent|) + FreedSlots(c, op)
    && Budget(c) == Budget(n) + (if |n.sent| > |c.sent| then MessageBudget(n.sent[|c.sent|]) else 0)
        + FreedBudget(c, op)
  }

  lemma TrackerOpConserves(parse: Parser, c: A.State, op: A.Op, id: string, reserved: bool)
    requires A.Inv(c, id, reserved) && A.Enabled(c, op) && OfTracker(op)
    ensures Conserves(parse, c, op)
  {
    A.TrackerStepKeeps(parse, c, op, id, reserved);
    if op.DropTracker? && c.tracker.value.event.Some? {
      A.SettlesUnlessUnpriceable(c.tracker.value.event.value.(responseTruncated := true), A.CANCELLED, None, ZERO,
          Some("client_cancelled"));
    }
  }

  lemma StreamOpConserves(parse: Parser, c: A.State, op: A.Op, id: string, reserved: bool)
    requires A.Inv(c, id, reserved) && A.Enabled(c, op) && !OfTracker(op)
    ensures Conserves(parse, c, op)
  {
    A.StreamStepKeeps(parse, c, op, id, reserved);
  }

  lemma OpConserves(parse: Parser, c: A.State, op: A.Op, id: string, reserved: bool)
    requires A.Inv(c, id, reserved) && A.Enabled(c, op)
    ensures var n := A.Next(parse, c, op);
            && c.sent <= n.sent && |n.sent| <= |c.sent| + 1 && n.sent == c.sent + NewMessages(c, n)
            && Slots(c) == Slots(n) + |NewMessages(c, n)| + FreedSlots(c, op)
            && Budget(c) == Budget(n) + Sum(MessageBudget, NewMessages(c, n)) + FreedBudget(c, op)
  {
    var n := A.Next(parse, c, op);
    if OfTracker(op) {
      TrackerOpConserves(parse, c, op, id, reserved);
    } else {
      StreamOpConserves(parse, c, op, id, reserved);
    }
    if |n.sent| == |c.sent| + 1 {
      assert NewMessages(c, n) == [n.sent[|c.sent|]];
      SumOfOne(MessageBudget, n.sent[|c.sent|]);
    } else {
      assert NewMessages(c, n) == [];
    }
  }

  lemma TrackerOpFits(parse: Parser, c: A.State, op: A.Op, id: string, reserved: bool)
    requires A.Inv(c, id, reserved) && CallFits(c) && A.Enabled(c, op) && OfTracker(op)
    requires op.TakeStream? && c.tracker.value.event.Some? ==> c.tracker.value.event.value.responseBody.None?
    ensures CallFits(A.Next(parse, c, op))
  {
  }

  lemma StreamOpFits(parse: Parser, c: A.State, op: A.Op, id: string, reserved: bool)
    requires A.Inv(c, id, reserved) && CallFits(c) && A.Enabled(c, op) && !OfTracker(op)
    ensures CallFits(A.Next(parse, c, op))
  {
  }

  /** A call holds no more body bytes than it has reserved. */
  lemma CallWithinBudget(c: A.State, id: string, reserved: bool)
    requires A.Inv(c, id, reserved) && CallFits(c)
    ensures 0 <= Bytes(c) <= Budget(c)
  {
  }

  // ----- The invariant: capacity, memory

  predicate MessageFits(m: A.Message) {
    m.Call? ==> EventFits(m.event) && m.budget == m.event.archive
  }

  ghost predicate CallOk(c: A.State, id: string, reserved: bool) {
    A.Inv(c, id, reserved) && CallFits(c)
  }

  ghost predicate CallsOk(s: State) {
    && |s.calls| == |s.ids| == |s.reserved|
    && forall i :: 0 <= i < |s.calls| ==> CallOk(s.calls[i], s.ids[i], s.reserved[i])
  }

  /** Slots and reservations are somewhere, and every waiting event fits its reservation. */
  ghost predicate Balanced(s: State) {
    && s.freeSlots >= 0 && s.freeSlots + Sum(Slots, s.calls) + |s.queue| == QUEUE_CAPACITY
    && s.freeBytes >= 0 && s.freeBytes + Sum(Budget, s.calls) + Sum(MessageBudget, s.queue)
        + Sum(MessageBudget, s.batch) == QUEUE_BYTE_CAPACITY
    && (forall i :: 0 <= i < |s.queue| ==> MessageFits(s.queue[i]))
    && (forall i :: 0 <= i < |s.batch| ==> MessageFits(s.batch[i]))
  }

  ghost predicate Inv(s: State) {
    CallsOk(s) && Balanced(s)
  }

  /** A call that becomes `n` sends what is new in it and returns the rest of what it held. */
  ghost predicate Moves(c: A.State, n: A.State, slots: int, bytes: int) {
    var sent := NewMessages(c, n);
    && n.sent == c.sent + sent && slots >= 0 && bytes >= 0
    && Slots(c) == Slots(n) + |sent| + slots
    && Budget(c) == Budget(n) + Sum(MessageBudget, sent) + bytes
    && forall j :: 0 <= j < |sent| ==> MessageFits(sent[j])
  }

  lemma SentMessagesFit(before: A.State, after: A.State)
    requires CallFits(after) && after.sent == before.sent + NewMessages(before, after)
    ensures forall j :: 0 <= j < |NewMessages(before, after)| ==> MessageFits(NewMessages(before, after)[j])
  {
    var sent := NewMessages(before, after);
    forall j | 0 <= j < |sent| ensures MessageFits(sent[j]) {
      assert sent[j] == after.sent[|before.sent| + j];
    }
  }

  lemma OpKeepsCallOk(parse: Parser, c: A.State, op: A.Op, id: string, reserved: bool)
    requires CallOk(c, id, reserved) && A.Enabled(c, op)
    requires op.TakeStream? && c.tracker.value.event.Some? ==> c.tracker.value.event.value.responseBody.None?
    ensures CallOk(A.Next(parse, c, op), id, reserved)
  {
    A.StepKeeps(parse, c, op, id, reserved);
    if OfTracker(op) {
      TrackerOpFits(parse, c, op, id, reserved);
    } else {
      StreamOpFits(parse, c, op, id, reserved);
    }
  }

  lemma OpMoves(parse: Parser, c: A.State, op: A.Op, id: string, reserved: bool)
    requires CallOk(c, id, reserved) && A.Enabled(c, op) && CallFits(A.Next(parse, c, op))
    ensures Moves(c, A.Next(parse, c, op), FreedSlots(c, op), FreedBudget(c, op))
  {
    OpConserves(parse, c, op, id, reserved);
    SentMessagesFit(c, A.Next(parse, c, op));
  }

  function Moved(s: State, i: nat, n: A.State, slots: int, bytes: int): State
    requires i < |s.calls|
  {
    s.(calls := s.calls[i := n], queue := s.queue + NewMessages(s.calls[i], n), freeSlots := s.freeSlots + slots,
        freeBytes := s.freeBytes + bytes)
  }

  lemma MovingKeepsBalance(s: State, i: nat, n: A.State, slots: int, bytes: int)
    requires Balanced(s) && i < |s.calls| && Moves(s.calls[i], n, slots, bytes)
    ensures Balanced(Moved(s, i, n, slots, bytes))
  {
    SumOfUpdate(Slots, s.calls, i, n);
    SumOfUpdate(Budget, s.calls, i, n);
    SumOfConcat(MessageBudget, s.queue, NewMessages(s.calls[i], n));
  }

  lemma MovingKeeps(s: State, i: nat, n: A.State, slots: int, bytes: int)
    requires Inv(s) && i < |s.calls| && Moves(s.calls[i], n, slots, bytes) && CallOk(n, s.ids[i], s.reserved[i])
    ensures Inv(Moved(s, i, n, slots, bytes))
  {
    MovingKeepsBalance(s, i, n, slots, bytes);
  }

  lemma ActKeeps(parse: Parser, s: State, i: nat, op: A.Op)
    requires Inv(s) && Enabled(s, Act(i, op))
    ensures Inv(Next(parse, s, Act(i, op)))
  {
    var c := s.calls[i];
    assert CallOk(c, s.ids[i], s.reserved[i]);
    OpKeepsCallOk(parse, c, op, s.ids[i], s.reserved[i]);
    OpMoves(parse, c, op, s.ids[i], s.reserved[i]);
    MovingKeeps(s, i, A.Next(parse, c, op), FreedSlots(c, op), FreedBudget(c, op));
  }

  lemma StartedOk(id: string, consumerId: string, slot: bool, archive: bool)
    requires archive ==> slot
    ensures var c := A.Started(id, consumerId, slot, archive);
            CallOk(c, id, slot) && Slots(c) == Count(slot) && Budget(c) == ARCHIVE_RESERVATION * Count(archive)
                && c.sent == []
  {
  }

  lemma ArriveKeeps(parse: Parser, s: State, id: string, consumerId: string, wantsArchive: bool)
    requires Inv(s) && Enabled(s, Arrive(id, consumerId, wantsArchive))
    ensures Inv(Next(parse, s, Arrive(id, consumerId, wantsArchive)))
  {
    var slot := s.freeSlots > 0;
    var archive := slot && wantsArchive && s.freeBytes >= ARCHIVE_RESERVATION;
    var started := A.Started(id, consumerId, slot, archive);
    StartedOk(id, consumerId, slot, archive);
    SumOfConcat(Slots, s.calls, [started]);
    SumOfConcat(Budget, s.calls, [started]);
    SumOfOne(Slots, started);
    SumOfOne(Budget, started);
  }

  lemma ReportKeeps(parse: Parser, s: State, step: Step)
    requires Inv(s) && step.Report? && Enabled(s, step)
    ensures Inv(Next(parse, s, step))
  {
    if s.freeSlots > 0 {
      var m := A.Transport(s.calls[step.call].answer.value, step.bytes, step.encoding, step.headers);
      SumOfConcat(MessageBudget, s.queue, [m]);
      SumOfOne(MessageBudget, m);
    }
  }

  lemma ReceiveKeeps(parse: Parser, s: State)
    requires Inv(s) && Enabled(s, Receive)
    ensures Inv(Next(parse, s, Receive))
  {
    assert s.queue == [s.queue[0]] + s.queue[1..];
    SumOfConcat(MessageBudget, [s.queue[0]], s.queue[1..]);
    SumOfConcat(MessageBudget, s.batch, [s.queue[0]]);
    SumOfOne(MessageBudget, s.queue[0]);
  }

  lemma CommitKeeps(parse: Parser, s: State)
    requires Inv(s)
    ensures Inv(Next(parse, s, Commit))
  {
    SumIsNonNegative(MessageBudget, s.batch);
  }

  lemma StepKeeps(parse: Parser, s: State, step: Step)
    requires Inv(s) && Enabled(s, step)
    ensures Inv(Next(parse, s, step))
  {
    match step
    case Arrive(id, consumerId, wantsArchive) => ArriveKeeps(parse, s, id, consumerId, wantsArchive);
    case Act(i, op) => ActKeeps(parse, s, i, op);
    case Report(_, _, _, _) => ReportKeeps(parse, s, step);
    case Receive => ReceiveKeeps(parse, s);
    case Commit => CommitKeeps(parse, s);
  }

  /** Body bytes held anywhere: by calls, in the queue, in the batch being written. */
  function HeldBytes(s: State): int {
    Sum(Bytes, s.calls) + Sum(MessageBytes, s.queue) + Sum(MessageBytes, s.batch)
  }

  /** In every such state slots and messages fit the queue, and the bodies held fit the budget. */
  lemma WithinBounds(s: State)
    requires Inv(s)
    ensures Sum(Slots, s.calls) + |s.queue| <= QUEUE_CAPACITY
    ensures HeldBytes(s) <= Sum(Budget, s.calls) + Sum(MessageBudget, s.queue)
        + Sum(MessageBudget, s.batch) <= QUEUE_BYTE_CAPACITY
  {
    forall i | 0 <= i < |s.calls| ensures Bytes(s.calls[i]) <= Budget(s.calls[i]) {
      CallWithinBudget(s.calls[i], s.ids[i], s.reserved[i]);
    }
    SumIsMonotone(Bytes, Budget, s.calls);
    SumIsMonotone(MessageBytes, MessageBudget, s.queue);
    SumIsMonotone(MessageBytes, MessageBudget, s.batch);
  }

  // ----- The invariant: order and uniqueness

  /** What was enqueued for a call is what the call sent. */
  ghost predicate Accounted(s: State) {
    && |s.calls| == |s.ids|
    && (forall m :: m in Enqueued(s) && m.Call? ==> m.event.id in s.ids)
    && (forall i, m :: 0 <= i < |s.calls| && m in Enqueued(s) && m.Call? && m.event.id == s.ids[i] ==>
        m in s.calls[i].sent)
    && (forall i, m :: 0 <= i < |s.calls| && m in s.calls[i].sent ==> m in Enqueued(s))
  }

  /** Events are enqueued once each, under distinct ids, and every transport report after its event. */
  ghost predicate InOrder(s: State) {
    && (forall i, j :: 0 <= i < j < |s.ids| ==> s.ids[i] != s.ids[j])
    && Accounted(s) && Ordered(Enqueued(s)) && DistinctCalls(Enqueued(s))
  }

  lemma OrderedAppended(ms: seq<A.Message>, m: A.Message)
    requires Ordered(ms) && (m.Transport? ==> Reports(ms, m.id))
    ensures Ordered(ms + [m])
  {
    forall j | 0 <= j < |ms| + 1 && (ms + [m])[j].Transport? ensures Reports((ms + [m])[..j], (ms + [m])[j].id) {
      assert (ms + [m])[..j] == ms[..j];
      assert ms[..|ms|] == ms;
    }
  }

  lemma DistinctAppended(ms: seq<A.Message>, m: A.Message)
    requires DistinctCalls(ms) && (m.Call? ==> !Reports(ms, m.event.id))
    ensures DistinctCalls(ms + [m])
  {
  }

  lemma ReportsIfSent(ms: seq<A.Message>, m: A.Message)
    requires m in ms && m.Call?
    ensures Reports(ms, m.event.id)
  {
  }

  /** An answered call whose body was read has enqueued its event. */
  lemma AnsweredCallsAreEnqueued(s: State, i: nat)
    requires CallsOk(s) && Accounted(s) && i < |s.calls| && Reportable(s.calls[i])
    ensures s.calls[i].answer == Some(s.ids[i]) && Reports(Enqueued(s), s.ids[i])
  {
    var c := s.calls[i];
    assert CallOk(c, s.ids[i], s.reserved[i]);
    assert |c.sent| == 1 && A.Proper(c.sent[0], s.ids[i]);
    ReportsIfSent(Enqueued(s), c.sent[0]);
  }

  lemma ReportStaysInOrder(parse: Parser, s: State, step: Step)
    requires CallsOk(s) && InOrder(s) && step.Report? && Enabled(s, step)
    ensures InOrder(Next(parse, s, step))
  {
    if s.freeSlots > 0 {
      AnsweredCallsAreEnqueued(s, step.call);
      var m := A.Transport(s.calls[step.call].answer.value, step.bytes, step.encoding, step.headers);
      assert Enqueued(Next(parse, s, step)) == Enqueued(s) + [m];
      OrderedAppended(Enqueued(s), m);
      DistinctAppended(Enqueued(s), m);
    }
  }

  /** The first and only message of a call is its own event. */
  predicate SendsNothingOrItsEvent(c: A.State, n: A.State, id: string) {
    n.sent == c.sent || (c.sent == [] && |n.sent| == 1 && A.Proper(n.sent[0], id))
  }

  lemma SendsAtMostOnce(c: A.State, n: A.State, id: string, reserved: bool)
    requires n.sent == c.sent + NewMessages(c, n) && A.Inv(n, id, reserved)
    ensures SendsNothingOrItsEvent(c, n, id)
  {
  }

  lemma SendingStaysInOrder(s: State, i: nat, n: A.State, slots: int, bytes: int)
    requires InOrder(s) && i < |s.calls| && s.calls[i].sent == [] && |n.sent| == 1 && A.Proper(n.sent[0], s.ids[i])
    ensures InOrder(Moved(s, i, n, slots, bytes))
  {
    var after, m := Moved(s, i, n, slots, bytes), n.sent[0];
    assert Enqueued(after) == Enqueued(s) + [m];
    OrderedAppended(Enqueued(s), m);
    DistinctAppended(Enqueued(s), m);
  }

  lemma MovingStaysInOrder(s: State, i: nat, n: A.State, slots: int, bytes: int)
    requires InOrder(s) && i < |s.calls| && SendsNothingOrItsEvent(s.calls[i], n, s.ids[i])
    ensures InOrder(Moved(s, i, n, slots, bytes))
  {
    if n.sent == s.calls[i].sent {
      assert Enqueued(Moved(s, i, n, slots, bytes)) == Enqueued(s);
    } else {
      SendingStaysInOrder(s, i, n, slots, bytes);
    }
  }

  lemma ActStaysInOrder(parse: Parser, s: State, i: nat, op: A.Op)
    requires CallsOk(s) && InOrder(s) && Enabled(s, Act(i, op))
    ensures InOrder(Next(parse, s, Act(i, op)))
  {
    var c := s.calls[i];
    assert CallOk(c, s.ids[i], s.reserved[i]);
    OpConserves(parse, c, op, s.ids[i], s.reserved[i]);
    A.StepKeeps(parse, c, op, s.ids[i], s.reserved[i]);
    SendsAtMostOnce(c, A.Next(parse, c, op), s.ids[i], s.reserved[i]);
    MovingStaysInOrder(s, i, A.Next(parse, c, op), FreedSlots(c, op), FreedBudget(c, op));
  }

  lemma ArriveStaysInOrder(parse: Parser, s: State, id: string, consumerId: string, wantsArchive: bool)
    requires InOrder(s) && Enabled(s, Arrive(id, consumerId, wantsArchive))
    ensures InOrder(Next(parse, s, Arrive(id, consumerId, wantsArchive)))
  {
    var n := Next(parse, s, Arrive(id, consumerId, wantsArchive));
    assert Enqueued(n) == Enqueued(s) && n.calls[|s.calls|].sent == [];
    assert forall i :: 0 <= i < |s.calls| ==> n.calls[i] == s.calls[i] && n.ids[i] == s.ids[i];
  }

  lemma WriterStaysInOrder(parse: Parser, s: State, step: Step)
    requires InOrder(s) && Enabled(s, step) && (step.Receive? || step.Commit?)
    ensures InOrder(Next(parse, s, step))
  {
    assert Enqueued(Next(parse, s, step)) == Enqueued(s);
  }

  lemma StepStaysInOrder(parse: Parser, s: State, step: Step)
    requires Inv(s) && InOrder(s) && Enabled(s, step)
    ensures InOrder(Next(parse, s, step))
  {
    match step
    case Arrive(id, consumerId, wantsArchive) => ArriveStaysInOrder(parse, s, id, consumerId, wantsArchive);
    case Act(i, op) => ActStaysInOrder(parse, s, i, op);
    case Report(_, _, _, _) => ReportStaysInOrder(parse, s, step);
    case Receive => WriterStaysInOrder(parse, s, step);
    case Commit => WriterStaysInOrder(parse, s, step);
  }

  // ----- Runs

  const IDLE := State(QUEUE_CAPACITY, QUEUE_BYTE_CAPACITY, [], [], [], [], [], [])

  ghost predicate IsRun(parse: Parser, s: State, steps: seq<Step>)
    decreases |steps|
  {
    steps != [] ==> Enabled(s, steps[0]) && IsRun(parse, Next(parse, s, steps[0]), steps[1..])
  }

  ghost function After(parse: Parser, s: State, steps: seq<Step>): State
    requires IsRun(parse, s, steps)
    decreases |steps|
  {
    if steps == [] then s else After(parse, Next(parse, s, steps[0]), steps[1..])
  }

  lemma {:induction false} RunKeeps(parse: Parser, s: State, steps: seq<Step>)
    requires Inv(s) && InOrder(s) && IsRun(parse, s, steps)
    ensures Inv(After(parse, s, steps)) && InOrder(After(parse, s, steps))
    decreases |steps|
  {
    if steps != [] {
      StepKeeps(parse, s, steps[0]);
      StepStaysInOrder(parse, s, steps[0]);
      RunKeeps(parse, Next(parse, s, steps[0]), steps[1..]);
    }
  }

  /**
   From an idle start, however calls, reports and the writer interleave: slots and reservations are
   conserved, the queue stays within its capacity, and the bodies held stay within what is reserved.
   */
  lemma EveryRunIsBounded(parse: Parser, steps: seq<Step>)
    requires IsRun(parse, IDLE, steps)
    ensures var s := After(parse, IDLE, steps);
            var reservations := Sum(Budget, s.calls) + Sum(MessageBudget, s.queue) + Sum(MessageBudget, s.batch);
            && s.freeSlots >= 0 && s.freeSlots + Sum(Slots, s.calls) + |s.queue| == 4096
            && s.freeBytes >= 0 && s.freeBytes + reservations == 0x400_0000
            && |s.queue| + Sum(Slots, s.calls) <= 4096
            && HeldBytes(s) <= reservations <= 0x400_0000
  {
    RunKeeps(parse, IDLE, steps);
    WithinBounds(After(parse, IDLE, steps));
  }

  /** What a run does to call `i`. */
  function OpsOf(steps: seq<Step>, i: nat): seq<A.Op>
    decreases |steps|
  {
    if steps == [] then []
    else if steps[0].Act? && steps[0].call == i then [steps[0].op] + OpsOf(steps[1..], i)
    else OpsOf(steps[1..], i)
  }

  /** A call only changes by its own operations. */
  lemma {:induction false} CallHistory(parse: Parser, s: State, steps: seq<Step>, i: nat)
    requires IsRun(parse, s, steps) && i < |s.calls| == |s.reserved|
    ensures var n := After(parse, s, steps);
            && |n.calls| == |n.reserved| >= |s.calls| && n.reserved[i] == s.reserved[i]
            && A.IsRun(parse, s.calls[i], OpsOf(steps, i))
            && n.calls[i] == A.After(parse, s.calls[i], OpsOf(steps, i))
    decreases |steps|
  {
    if steps != [] {
      CallHistory(parse, Next(parse, s, steps[0]), steps[1..], i);
      if steps[0].Act? && steps[0].call == i {
        assert OpsOf(steps, i)[1..] == OpsOf(steps[1..], i);
      }
    }
  }

  /** A call that arrives during a run loses its event exactly if it held a slot and its operations lose it. */
  lemma {:induction false} CallsPanicIffTheyLose(parse: Parser, s: State, steps: seq<Step>, i: nat)
    requires IsRun(parse, s, steps) && |s.reserved| == |s.calls| <= i < |After(parse, s, steps).calls|
    ensures var n := After(parse, s, steps);
            i < |n.reserved| && (n.calls[i].panicked <==> n.reserved[i] && A.Loses(OpsOf(steps, i)))
    decreases |steps|
  {
    var n := Next(parse, s, steps[0]);
    if |n.calls| <= i {
      CallsPanicIffTheyLose(parse, n, steps[1..], i);
    } else {
      var slot, started := n.reserved[i], n.calls[i];
      StartedOk(steps[0].id, steps[0].consumerId, slot, started.tracker.value.budget);
      CallHistory(parse, n, steps[1..], i);
      A.RunKeeps(parse, started, OpsOf(steps[1..], i), steps[0].id, slot);
    }
  }

  /** A call that is over has left an event, and only one, exactly when it held a slot and did not lose the event. */
  lemma FinishedCallsAreEnqueuedOnce(parse: Parser, steps: seq<Step>, i: nat)
    requires IsRun(parse, IDLE, steps)
    requires var s := After(parse, IDLE, steps);
             i < |s.calls| && s.calls[i].tracker.None? && !s.calls[i].stream.Live?
    ensures var s := After(parse, IDLE, steps);
            && |s.ids| == |s.reserved| == |s.calls|
            && (Reports(Enqueued(s), s.ids[i]) <==> s.reserved[i] && !A.Loses(OpsOf(steps, i)))
            && DistinctCalls(Enqueued(s))
  {
    RunKeeps(parse, IDLE, steps);
    CallsPanicIffTheyLose(parse, IDLE, steps, i);
    var s := After(parse, IDLE, steps);
    assert CallOk(s.calls[i], s.ids[i], s.reserved[i]);
    if s.calls[i].sent != [] {
      ReportsIfSent(Enqueued(s), s.calls[i].sent[0]);
    }
  }

  /**
   Everything a run enqueues can be written as long as its consumers exist and its ids are new, and each
   transport report then finds the row inserted by its event.
   */
  lemma EveryRunCanBeWritten(parse: Parser, steps: seq<Step>, t: Tables)
    requires IsRun(parse, IDLE, steps)
    requires forall m :: m in Enqueued(After(parse, IDLE, steps)) ==> Acceptable(t, m)
    ensures var ms := Enqueued(After(parse, IDLE, steps));
            && ApplyAll(t, ms).Some?
            && forall j :: 0 <= j < |ms| && ms[j].Transport? ==>
                 ApplyAll(t, ms[..j]).Some? && ms[j].id in ApplyAll(t, ms[..j]).value.calls
  {
    RunKeeps(parse, IDLE, steps);
    var ms := Enqueued(After(parse, IDLE, steps));
    assert forall i :: 0 <= i < |ms| ==> ms[i] in ms;
    BatchCommitsIffWritable(t, ms);
    forall j | 0 <= j < |ms| && ms[j].Transport?
      ensures ApplyAll(t, ms[..j]).Some? && ms[j].id in ApplyAll(t, ms[..j]).value.calls
    {
      TransportFindsItsRow(t, ms, j);
    }
  }
}
