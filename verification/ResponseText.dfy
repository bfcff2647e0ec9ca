/**
 The text of a response reconstructed from its stream events, which name an output and a content
 part and arrive interleaved. An event is what is left of a parsed value once the members that are
 read have been picked out; indices are the finite numbers JSON can carry.
 */
module ResponseText {
  import opened Options

  datatype Key = Key(output: real, content: real)

  datatype TextEvent = Delta(delta: Option<string>) | Done(text: Option<string>)

  /**
   `text` is present for output-text events with two numeric indices; `completed` are the texts of a finished
   output.
   */
  datatype Event = Event(text: Option<(Key, TextEvent)>, completed: seq<string>)

  datatype Part = Part(deltas: seq<string>, text: Option<string>)

  const EMPTY_PART := Part([], None)

  predicate Less(a: Key, b: Key) {
    a.output < b.output || (a.output == b.output && a.content < b.content)
  }

  function Join(pieces: seq<string>, separator: string): string {
    if pieces == [] then ""
    else if |pieces| == 1 then pieces[0]
    else Join(pieces[..|pieces| - 1], separator) + separator + pieces[|pieces| - 1]
  }

  // ----- One part

  /** A part after one more of its events. */
  function Extended(part: Part, event: TextEvent): Part {
    match event
    case Delta(Some(delta)) => part.(deltas := part.deltas + [delta])
    case Done(Some(text)) => part.(text := Some(text))
    case _ => part
  }

  /** The text of a part: the finished one if it was sent, else the deltas. */
  function TextOf(part: Part): string {
    part.text.GetOr(Join(part.deltas, ""))
  }

  // ----- The events of each part

  predicate IsFor(event: Event, key: Key) {
    event.text.Some? && event.text.value.0 == key
  }

  /** The events of one part, in order. */
  function Of(events: seq<Event>, key: Key): seq<TextEvent> {
    if events == [] then []
    else
      var before, last := Of(events[..|events| - 1], key), events[|events| - 1];
      if IsFor(last, key) then before + [last.text.value.1] else before
  }

  function PartFrom(events: seq<TextEvent>): Part {
    if events == [] then EMPTY_PART else Extended(PartFrom(events[..|events| - 1]), events[|events| - 1])
  }

  /** The parts in order of first appearance, as the keys of a JavaScript map. */
  function Keys(events: seq<Event>): seq<Key> {
    if events == [] then []
    else
      var before := Keys(events[..|events| - 1]);
      var last := events[|events| - 1];
      if last.text.Some? && last.text.value.0 !in before then before + [last.text.value.0] else before
  }

  // ----- Sorting

  function InsertKey(keys: seq<Key>, key: Key): seq<Key> {
    if keys == [] || Less(key, keys[0]) then [key] + keys else [keys[0]] + InsertKey(keys[1..], key)
  }

  function SortKeys(keys: seq<Key>): seq<Key> {
    if keys == [] then [] else InsertKey(SortKeys(keys[..|keys| - 1]), keys[|keys| - 1])
  }

  predicate Ascending(keys: seq<Key>) {
    forall i, j :: 0 <= i < j < |keys| ==> Less(keys[i], keys[j])
  }

  lemma {:induction false} InsertKeepsOrder(keys: seq<Key>, key: Key)
    requires Ascending(keys) && key !in keys
    ensures Ascending(InsertKey(keys, key))
    ensures forall k :: k in InsertKey(keys, key) <==> k == key || k in keys
    decreases |keys|
  {
    if keys != [] && !Less(key, keys[0]) {
      assert keys == [keys[0]] + keys[1..];
      InsertKeepsOrder(keys[1..], key);
      var rest := InsertKey(keys[1..], key);
      forall i | 0 <= i < |rest| ensures Less(keys[0], rest[i]) {
        assert rest[i] in rest;
        assert rest[i] == key || exists j :: 1 <= j < |keys| && keys[j] == rest[i];
      }
    }
  }

  lemma {:induction false} SortedKeys(events: seq<Event>)
    ensures Ascending(SortKeys(Keys(events)))
    ensures forall k :: k in SortKeys(Keys(events)) <==> k in Keys(events)
    ensures forall k :: k in Keys(events) <==> Of(events, k) != []
  {
    if events != [] {
      var init, last := events[..|events| - 1], events[|events| - 1];
      SortedKeys(init);
      if last.text.Some? && last.text.value.0 !in Keys(init) {
        assert Keys(events)[..|Keys(events)| - 1] == Keys(init);
        InsertKeepsOrder(SortKeys(Keys(init)), last.text.value.0);
      }
    }
  }

  /** An ascending sequence is determined by its elements. */
  lemma {:induction false} AscendingIsUnique(a: seq<Key>, b: seq<Key>)
    requires Ascending(a) && Ascending(b) && forall k :: k in a <==> k in b
    ensures a == b
    decreases |a|
  {
    assert |b| > 0 ==> b[0] in b;
    if a != [] {
      assert a[0] in b && b != [] && b[0] in a;
      assert a[0] == b[0];
      var x, y := a[1..], b[1..];
      forall k ensures k in x <==> k in y {
        if k in x { assert k in a && k != a[0]; assert k in b; }
        if k in y { assert k in b && k != b[0]; assert k in a; }
      }
      AscendingIsUnique(x, y);
    }
  }

  // ----- The reconstruction

  function PartText(events: seq<Event>, key: Key): string {
    TextOf(PartFrom(Of(events, key)))
  }

  /** The keys whose part has a text. */
  function Visible(events: seq<Event>, keys: seq<Key>): (visible: seq<Key>)
    ensures forall k :: k in visible <==> k in keys && PartText(events, k) != ""
    ensures Ascending(keys) ==> Ascending(visible)
  {
    if keys == [] then []
    else
      var n := |keys| - 1;
      assert keys == keys[..n] + [keys[n]];
      var before := Visible(events, keys[..n]);
      assert Ascending(keys) ==> forall i :: 0 <= i < |before| ==> before[i] in keys[..n] && Less(before[i], keys[n]);
      if PartText(events, keys[n]) != "" then before + [keys[n]] else before
  }

  function Texts(events: seq<Event>, keys: seq<Key>): (texts: seq<string>)
    ensures |texts| == |keys| && forall i :: 0 <= i < |keys| ==> texts[i] == PartText(events, keys[i])
  {
    seq(|keys|, i requires 0 <= i < |keys| => PartText(events, keys[i]))
  }

  /** The result of `streamTextParts`. */
  function StreamTexts(events: seq<Event>): seq<string> {
    Texts(events, Visible(events, SortKeys(Keys(events))))
  }

  lemma OfAppended(events: seq<Event>, event: Event, key: Key)
    ensures Of(events + [event], key) == if IsFor(event, key) then Of(events, key) + [event.text.value.1]
        else Of(events, key)
  {
    assert (events + [event])[..|events|] == events;
  }

  lemma PartAppended(events: seq<TextEvent>, event: TextEvent)
    ensures PartFrom(events + [event]) == Extended(PartFrom(events), event)
  {
    assert (events + [event])[..|events|] == events;
  }

  ghost predicate Collected(events: seq<Event>, order: seq<Key>, parts: map<Key, Part>) {
    && order == Keys(events)
    && (forall k :: k in parts <==> k in order)
    && (forall k :: k in parts ==> parts[k] == PartFrom(Of(events, k)))
  }

  function AddPart(parts: map<Key, Part>, key: Key, event: TextEvent): map<Key, Part> {
    parts[key := Extended(if key in parts then parts[key] else EMPTY_PART, event)]
  }

  lemma KeysAppended(events: seq<Event>, event: Event)
    ensures Keys(events + [event]) ==
            if event.text.Some? && event.text.value.0 !in Keys(events) then Keys(events) + [event.text.value.0]
                else Keys(events)
  {
    assert (events + [event])[..|events|] == events;
  }

  lemma CollectedAppended(events: seq<Event>, order: seq<Key>, parts: map<Key, Part>, event: Event)
    requires Collected(events, order, parts)
    ensures event.text.Some? ==>
              var (key, text) := event.text.value;
              Collected(events + [event], if key in parts then order else order + [key], AddPart(parts, key, text))
    ensures event.text.None? ==> Collected(events + [event], order, parts)
  {
    KeysAppended(events, event);
    var after := if event.text.Some? then AddPart(parts, event.text.value.0, event.text.value.1) else parts;
    forall k | k in after ensures after[k] == PartFrom(Of(events + [event], k)) {
      PartGrown(events, event, k);
    }
  }

  predicate PartGrows(events: seq<Event>, event: Event, key: Key) {
    PartFrom(Of(events + [event], key)) ==
    if !IsFor(event, key) then PartFrom(Of(events, key))
    else Extended(if key in Keys(events) then PartFrom(Of(events, key)) else EMPTY_PART, event.text.value.1)
  }

  lemma PartGrown(events: seq<Event>, event: Event, key: Key)
    ensures PartGrows(events, event, key)
  {
    SortedKeys(events);
    OfAppended(events, event, key);
    if IsFor(event, key) {
      PartAppended(Of(events, key), event.text.value.1);
    }
  }

  /** The loop over the events: parts by key, keys in order of first appearance. */
  method CollectParts(events: seq<Event>) returns (order: seq<Key>, parts: map<Key, Part>)
    ensures Collected(events, order, parts)
  {
    parts, order := map[], [];
    for i := 0 to |events|
      invariant Collected(events[..i], order, parts)
    {
      CollectedAppended(events[..i], order, parts, events[i]);
      assert events[..i + 1] == events[..i] + [events[i]];
      if events[i].text.Some? {
        var (key, event) := events[i].text.value;
        if key !in parts {
          order := order + [key];
        }
        parts := AddPart(parts, key, event);
      }
    }
    assert events[..|events|] == events;
  }

  lemma VisibleAppended(events: seq<Event>, keys: seq<Key>, key: Key)
    ensures var before := Texts(events, Visible(events, keys));
            Texts(events, Visible(events, keys + [key])) ==
            if PartText(events, key) != "" then before + [PartText(events, key)] else before
  {
    assert (keys + [key])[..|keys|] == keys;
  }

  method TextsOfParts(ghost events: seq<Event>, sorted: seq<Key>, parts: map<Key, Part>) returns (texts: seq<string>)
    requires forall k :: k in sorted ==> k in parts && parts[k] == PartFrom(Of(events, k))
    ensures texts == Texts(events, Visible(events, sorted))
  {
    texts := [];
    for i := 0 to |sorted|
      invariant texts == Texts(events, Visible(events, sorted[..i]))
    {
      assert sorted[i] in sorted;
      assert sorted[..i + 1] == sorted[..i] + [sorted[i]];
      VisibleAppended(events, sorted[..i], sorted[i]);
      var text := TextOf(parts[sorted[i]]);
      if |text| > 0 {
        texts := texts + [text];
      }
    }
    assert sorted[..|sorted|] == sorted;
  }

  /** `streamTextParts`: collect the parts, sort them, take their texts, drop the empty ones. */
  method StreamTextParts(events: seq<Event>) returns (texts: seq<string>)
    ensures texts == StreamTexts(events)
  {
    var order, parts := CollectParts(events);
    SortedKeys(events);
    texts := TextsOfParts(events, SortKeys(order), parts);
  }

  function CompletedTexts(events: seq<Event>): seq<string> {
    if events == [] then [] else CompletedTexts(events[..|events| - 1]) + events[|events| - 1].completed
  }

  /** `responseOutputText` over the parsed events. */
  function OutputText(events: seq<Event>): Option<string> {
    if StreamTexts(events) != [] then Some(Join(StreamTexts(events), "\n\n"))
    else if CompletedTexts(events) != [] then Some(Join(CompletedTexts(events), "\n\n"))
    else None
  }

  // ----- What the reconstruction depends on

  lemma NoEventsNoText(events: seq<Event>, key: Key)
    requires key !in Keys(events)
    ensures PartText(events, key) == ""
  {
    SortedKeys(events);
  }

  /** The reconstruction is a function of the text of each part: non-empty ones, ascending by index. */
  lemma TextsDependOnParts(a: seq<Event>, b: seq<Event>)
    requires forall k :: PartText(a, k) == PartText(b, k)
    ensures StreamTexts(a) == StreamTexts(b)
  {
    var x, y := Visible(a, SortKeys(Keys(a))), Visible(b, SortKeys(Keys(b)));
    SortedKeys(a);
    SortedKeys(b);
    forall k ensures k in x <==> k in y {
      if k !in Keys(a) { NoEventsNoText(a, k); }
      if k !in Keys(b) { NoEventsNoText(b, k); }
    }
    AscendingIsUnique(x, y);
  }

  /** Interleaving does not matter: only each part's own order does. */
  lemma InterleavingIsInvisible(a: seq<Event>, b: seq<Event>)
    requires forall k :: Of(a, k) == Of(b, k)
    ensures StreamTexts(a) == StreamTexts(b)
    ensures CompletedTexts(a) == CompletedTexts(b) ==> OutputText(a) == OutputText(b)
  {
    TextsDependOnParts(a, b);
  }

  // ----- How texts grow

  predicate HasDone(events: seq<TextEvent>) {
    exists i :: 0 <= i < |events| && events[i].Done? && events[i].text.Some?
  }

  lemma {:induction false} DoneIsKept(events: seq<TextEvent>)
    ensures PartFrom(events).text.Some? <==> HasDone(events)
  {
    if events != [] {
      var n := |events| - 1;
      DoneIsKept(events[..n]);
      if HasDone(events[..n]) {
        var i :| 0 <= i < n && events[..n][i].Done? && events[..n][i].text.Some?;
        assert events[i].Done? && events[i].text.Some?;
      }
      assert HasDone(events) && !HasDone(events[..n]) ==> events[n].Done? by {
        assert forall i :: 0 <= i < n ==> events[i] == events[..n][i];
      }
    }
  }

  lemma {:induction false} JoinedWithoutSeparator(pieces: seq<string>, piece: string)
    ensures Join(pieces + [piece], "") == Join(pieces, "") + piece
  {
    assert (pieces + [piece])[..|pieces|] == pieces;
    if pieces == [] {
      assert [] + [piece] == [piece];
    }
  }

  predicate Grows(before: string, after: string, event: TextEvent, done: bool) {
    match event
    case Delta(delta) => after == if delta.Some? && !done then before + delta.value else before
    case Done(text) => after == if text.Some? then text.value else before
  }

  /**
   What one more event does to the text of a part: a delta goes to its end, unless a finished text has been
   sent; a finished text replaces it; anything else leaves it. Before all events it is empty.
   */
  lemma EventsGrowTheirText(events: seq<Event>, event: Event, key: Key)
    ensures PartText([], key) == ""
    ensures var before, after := PartText(events, key), PartText(events + [event], key);
            if IsFor(event, key) then Grows(before, after, event.text.value.1, HasDone(Of(events, key)))
            else after == before
  {
    OfAppended(events, event, key);
    if IsFor(event, key) {
      PartAppended(Of(events, key), event.text.value.1);
      DoneIsKept(Of(events, key));
      if event.text.value.1.Delta? && event.text.value.1.delta.Some? {
        JoinedWithoutSeparator(PartFrom(Of(events, key)).deltas, event.text.value.1.delta.value);
      }
    }
  }

  /** The texts are those of the parts that have one, by output index and within an output by content index. */
  lemma TextsInIndexOrder(events: seq<Event>) returns (keys: seq<Key>)
    ensures |keys| == |StreamTexts(events)|
    ensures forall i :: 0 <= i < |keys| ==> StreamTexts(events)[i] == PartText(events, keys[i]) != ""
    ensures forall k :: PartText(events, k) != "" ==> k in keys
    ensures forall i, j :: 0 <= i < j < |keys| ==>
              keys[i].output < keys[j].output
              || (keys[i].output == keys[j].output && keys[i].content < keys[j].content)
  {
    keys := Visible(events, SortKeys(Keys(events)));
    SortedKeys(events);
    forall k | PartText(events, k) != "" ensures k in keys {
      if k !in Keys(events) { NoEventsNoText(events, k); }
    }
    forall i | 0 <= i < |keys| ensures PartText(events, keys[i]) != "" {
      assert keys[i] in keys;
    }
  }

  const BLANK_LINE := "\n\n"

  /** Where the `i`-th text starts when texts are written one after the other with a blank line between. */
  function Start(texts: seq<string>, i: nat): nat
    requires i < |texts|
  {
    if i == 0 then 0 else Start(texts, i - 1) + |texts[i - 1]| + 2
  }

  /** `whole` is the texts in order, each but the first after a blank line, and nothing else. */
  predicate WrittenOut(whole: string, texts: seq<string>) {
    && texts != []
    && |whole| == Start(texts, |texts| - 1) + |texts[|texts| - 1]|
    && forall i :: 0 <= i < |texts| ==> StandsAt(whole, texts, i)
  }

  predicate StandsAt(whole: string, texts: seq<string>, i: nat)
    requires i < |texts|
  {
    var start := Start(texts, i);
    && start + |texts[i]| <= |whole| && whole[start..start + |texts[i]|] == texts[i]
    && (i > 0 ==> start >= 2 && whole[start - 2..start] == BLANK_LINE)
  }

  lemma {:induction false} StartsAgree(texts: seq<string>, i: nat)
    requires i < |texts| - 1
    ensures Start(texts[..|texts| - 1], i) == Start(texts, i)
    decreases i
  {
    if i > 0 {
      StartsAgree(texts, i - 1);
    }
  }

  lemma {:induction false} JoinedTextsAreWrittenOut(texts: seq<string>)
    requires texts != []
    ensures WrittenOut(Join(texts, BLANK_LINE), texts)
  {
    var n := |texts| - 1;
    var whole := Join(texts, BLANK_LINE);
    if n > 0 {
      var init := texts[..n];
      var before := Join(init, BLANK_LINE);
      JoinedTextsAreWrittenOut(init);
      StartsAgree(texts, n - 1);
      forall i | 0 <= i < |texts| ensures StandsAt(whole, texts, i) {
        if i < n {
          StartsAgree(texts, i);
          assert StandsAt(before, init, i);
          assert whole[..|before|] == before;
          var start := Start(texts, i);
          assert whole[start..start + |texts[i]|] == before[start..start + |texts[i]|];
          assert i > 0 ==> whole[start - 2..start] == before[start - 2..start];
        } else {
          assert whole[|before|..|before| + 2] == BLANK_LINE;
        }
      }
    }
  }

  /** The texts of finished responses come in the order of their events. */
  lemma {:induction false} CompletedTextsInOrder(a: seq<Event>, b: seq<Event>)
    ensures CompletedTexts(a + b) == CompletedTexts(a) + CompletedTexts(b)
    ensures |a| == 1 ==> CompletedTexts(a) == a[0].completed
    decreases |b|
  {
    if |a| == 1 {
      assert a[..0] == [];
    }
    if b == [] {
      assert a + b == a;
    } else {
      CompletedTextsInOrder(a, b[..|b| - 1]);
      assert (a + b)[..|a + b| - 1] == a + b[..|b| - 1];
    }
  }

  /** The shown text: the texts of the parts written out, or else those of a finished response, or nothing. */
  lemma OutputIsWrittenOut(events: seq<Event>)
    ensures match OutputText(events)
            case Some(whole) =>
              WrittenOut(whole, if StreamTexts(events) != [] then StreamTexts(events) else CompletedTexts(events))
            case None => StreamTexts(events) == [] && CompletedTexts(events) == []
  {
    if StreamTexts(events) != [] {
      JoinedTextsAreWrittenOut(StreamTexts(events));
    } else if CompletedTexts(events) != [] {
      JoinedTextsAreWrittenOut(CompletedTexts(events));
    }
  }

  // ----- Finished texts

  function Deltas(events: seq<TextEvent>): seq<string> {
    if events == [] then []
    else
      var before, last := Deltas(events[..|events| - 1]), events[|events| - 1];
      if last.Delta? && last.delta.Some? then before + [last.delta.value] else before
  }

  lemma {:induction false} PartKeepsDeltas(events: seq<TextEvent>)
    ensures PartFrom(events).deltas == Deltas(events)
    ensures PartFrom(events).text.Some? ==> Done(PartFrom(events).text) in events
  {
    if events != [] {
      PartKeepsDeltas(events[..|events| - 1]);
    }
  }

  predicate IsDone(event: Event) {
    event.text.Some? && event.text.value.1.Done?
  }

  function WithoutDone(events: seq<Event>): seq<Event> {
    if events == [] then []
    else
      var before, last := WithoutDone(events[..|events| - 1]), events[|events| - 1];
      if IsDone(last) then before else before + [last]
  }

  lemma {:induction false} DroppingDoneKeepsDeltas(events: seq<Event>, key: Key)
    ensures Deltas(Of(WithoutDone(events), key)) == Deltas(Of(events, key))
    ensures forall text :: Done(text) !in Of(WithoutDone(events), key)
  {
    if events != [] {
      var init, last := events[..|events| - 1], events[|events| - 1];
      DroppingDoneKeepsDeltas(init, key);
      assert events == init + [last];
      OfAppended(init, last, key);
      OfAppended(WithoutDone(init), last, key);
      if IsFor(last, key) {
        DeltasAppended(Of(init, key), last.text.value.1);
        DeltasAppended(Of(WithoutDone(init), key), last.text.value.1);
      }
    }
  }

  lemma DeltasAppended(events: seq<TextEvent>, event: TextEvent)
    ensures Deltas(events + [event]) ==
            if event.Delta? && event.delta.Some? then Deltas(events) + [event.delta.value] else Deltas(events)
  {
    assert (events + [event])[..|events|] == events;
  }

  /** If every finished text is the concatenation of its part's deltas, removing the `done` events changes nothing. */
  lemma DoneEventsAreRedundant(events: seq<Event>)
    requires forall k, text :: Done(Some(text)) in Of(events, k) ==> text == Join(Deltas(Of(events, k)), "")
    ensures StreamTexts(WithoutDone(events)) == StreamTexts(events)
  {
    forall k ensures PartText(WithoutDone(events), k) == PartText(events, k) {
      PartKeepsDeltas(Of(events, k));
      PartKeepsDeltas(Of(WithoutDone(events), k));
      DroppingDoneKeepsDeltas(events, k);
    }
    TextsDependOnParts(WithoutDone(events), events);
  }
}
