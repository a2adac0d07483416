/**
 From the bytes of an upstream stream to what the client reads: the translating loop, over
 any cut of the text into chunks, yields the chunks of the events that the text carries, and
 so a reply that is streamed reads like the reply sent whole.
 */
module StreamedReplies {
  import opened Wrappers
  import opened Json
  import opened Translate
  import opened Sequences
  import opened Sse
  import opened SseChunking
  import opened StreamAgreement

  // ------------------------------------------------------------------ the events of a text

  function DataLines(lines: seq<string>): seq<string> {
    if lines == [] then []
    else
      var data := DataOf(lines[0]);
      (if data.Some? then [data.value] else []) + DataLines(lines[1..])
  }

  function Parsed(payloads: seq<string>, parse: Parser): seq<Value> {
    if payloads == [] then []
    else
      var value := parse(payloads[0]);
      (if value.Some? then [value.value] else []) + Parsed(payloads[1..], parse)
  }

  /** The JSON events that each complete event of a text carries in its data lines. */
  function GroupsIn(text: string, parse: Parser): seq<seq<Value>>
    decreases |text|
  {
    var end := EventEnd(text);
    if end == -1 then [] else [Parsed(DataLines(Lines(text[..end])), parse)] + GroupsIn(text[end + 2..], parse)
  }

  function Flattened(groups: seq<seq<Value>>): seq<Value> {
    if groups == [] then [] else groups[0] + Flattened(groups[1..])
  }

  /** The JSON events that a text carries. */
  function EventsIn(text: string, parse: Parser): seq<Value> {
    Flattened(GroupsIn(text, parse))
  }

  /** The chunks of one group, all of which is translated, and whether the stream ends in it. */
  function Told(group: seq<Value>, done: bool, event: EventTranslator): (seq<Value>, bool) {
    if group == [] then ([], done)
    else
      var t := event(group[0], done);
      var rest := Told(group[1..], t.done, event);
      ((if t.chunk.Some? then [t.chunk.value] else []) + rest.0, rest.1)
  }

  /** The chunks of all groups, up to the group in which the stream ends. */
  function AllTold(groups: seq<seq<Value>>, event: EventTranslator): seq<Value> {
    if groups == [] then []
    else
      var first := Told(groups[0], false, event);
      first.0 + if first.1 then [] else AllTold(groups[1..], event)
  }

  // ------------------------------------------------------------------ the loop

  /** A translator of payloads acts on what they parse to. */
  ghost predicate ActsOnEvents(parse: Parser, translate: Translator, event: EventTranslator) {
    forall data, done ::
      translate(data, done) == if parse(data).Some? then event(parse(data).value, done) else Translated(None, done)
  }

  lemma AnthropicActsOnEvents(parse: Parser)
    ensures ActsOnEvents(parse, AnthropicStreamEvent(parse), AnthropicEvent)
  {
  }

  /** The closing marker is no JSON document, so passing it over early changes nothing. */
  lemma ResponsesActsOnEvents(parse: Parser)
    requires parse("[DONE]").None?
    ensures ActsOnEvents(parse, ResponsesStreamEvent(parse), ResponsesEvent)
  {
  }

  lemma OnePayload(data: string, tally: Tally, parse: Parser, translate: Translator, event: EventTranslator)
    requires ActsOnEvents(parse, translate, event)
    ensures var h, told := Translating(parse, translate)(data, tally), Told(Parsed([data], parse), tally.done, event);
            h.out == told.0 && h.tally.done == told.1
  {
    assert Parsed([data], parse) == if parse(data).Some? then [parse(data).value] else [];
  }

  lemma {:induction false} ToldInBoth(a: seq<Value>, b: seq<Value>, done: bool, event: EventTranslator)
    ensures var x := Told(a, done, event);
            Told(a + b, done, event) == (x.0 + Told(b, x.1, event).0, Told(b, x.1, event).1)
  {
    if a == [] {
      assert a + b == b && [] + Told(b, done, event).0 == Told(b, done, event).0;
    } else {
      var t := event(a[0], done);
      ToldInBoth(a[1..], b, t.done, event);
      HeadAndTail(a, b);
      var x := Told(a[1..], t.done, event);
      Associative(if t.chunk.Some? then [t.chunk.value] else [], x.0, Told(b, x.1, event).0);
    }
  }

  /** What the lines of one event do to the loop is what their JSON events are translated to. */
  lemma {:induction false} LinesAreTold(lines: seq<string>, tally: Tally, parse: Parser, translate: Translator,
                                        event: EventTranslator)
    requires ActsOnEvents(parse, translate, event)
    ensures var h := HandleLines(lines, tally, Translating(parse, translate));
            var told := Told(Parsed(DataLines(lines), parse), tally.done, event);
            h.out == told.0 && h.tally.done == told.1
  {
    if lines != [] {
      var data := DataOf(lines[0]);
      if data.Some? {
        var first := Translating(parse, translate)(data.value, tally);
        OnePayload(data.value, tally, parse, translate, event);
        LinesAreTold(lines[1..], first.tally, parse, translate, event);
        ParsedFirst(data.value, DataLines(lines[1..]), parse);
        ToldInBoth(Parsed([data.value], parse), Parsed(DataLines(lines[1..]), parse), tally.done, event);
      } else {
        assert DataLines(lines) == DataLines(lines[1..]);
        LinesAreTold(lines[1..], tally, parse, translate, event);
      }
    }
  }

  lemma ParsedFirst(data: string, rest: seq<string>, parse: Parser)
    ensures Parsed([data] + rest, parse) == Parsed([data], parse) + Parsed(rest, parse)
  {
    assert ([data] + rest)[1..] == rest;
    assert Parsed([data], parse) == if parse(data).Some? then [parse(data).value] else [];
  }

  lemma {:induction false} DrainTells(text: string, tally: Tally, parse: Parser, translate: Translator,
                                      event: EventTranslator)
    requires ActsOnEvents(parse, translate, event) && !tally.done
    ensures Drain(text, tally, Translating(parse, translate)).out == AllTold(GroupsIn(text, parse), event)
    decreases |text|
  {
    var end := EventEnd(text);
    if end != -1 {
      var lines, rest := Lines(text[..end]), text[end + 2..];
      var h := HandleLines(lines, tally, Translating(parse, translate));
      LinesAreTold(lines, tally, parse, translate, event);
      assert GroupsIn(text, parse)[1..] == GroupsIn(rest, parse);
      if !h.tally.done {
        DrainTells(rest, h.tally, parse, translate, event);
      }
    }
  }

  /** The translating loop over any cut of a text yields the chunks of the events it carries,
      each group of data lines to its end, up to the group in which the stream ends. */
  lemma LoopGivesChunks(texts: seq<string>, parse: Parser, translate: Translator, event: EventTranslator)
    requires ActsOnEvents(parse, translate, event) && NoCrCrLf(Concat(texts))
    requires !FeedAll(AsPieces(texts), true, Translating(parse, translate)).failed
    ensures FeedAll(AsPieces(texts), true, Translating(parse, translate)).out ==
            AllTold(GroupsIn(Normalize(Concat(texts)), parse), event)
  {
    LoopDrainsTheWhole(texts, Translating(parse, translate));
    DrainTells(Normalize(Concat(texts)), START, parse, translate, event);
  }

  // ------------------------------------------------------------------ groups

  /** Only the last event of a group may end the stream. */
  predicate EndsInLast(group: seq<Value>, event: EventTranslator) {
    forall i :: 0 <= i < |group| - 1 ==> !event(group[i], false).done
  }

  predicate EndsGroups(groups: seq<seq<Value>>, event: EventTranslator) {
    forall i :: 0 <= i < |groups| ==> EndsInLast(groups[i], event)
  }

  lemma {:induction false} GroupAsChunks(group: seq<Value>, rest: seq<Value>, event: EventTranslator)
    requires EndsInLast(group, event)
    ensures var told := Told(group, false, event);
            Chunks(group + rest, event) == told.0 + if told.1 then [] else Chunks(rest, event)
  {
    if group == [] {
      assert group + rest == rest;
    } else {
      var t := event(group[0], false);
      HeadAndTail(group, rest);
      if !t.done {
        GroupAsChunks(group[1..], rest, event);
        var told := Told(group[1..], false, event);
        Associative(if t.chunk.Some? then [t.chunk.value] else [], told.0, if told.1 then [] else Chunks(rest, event));
      } else {
        assert group[1..] == [];
      }
    }
  }

  /** How the events are spread over groups does not matter then. */
  lemma {:induction false} GroupsAsChunks(groups: seq<seq<Value>>, event: EventTranslator)
    requires EndsGroups(groups, event)
    ensures AllTold(groups, event) == Chunks(Flattened(groups), event)
  {
    if groups != [] {
      GroupsAsChunks(groups[1..], event);
      GroupAsChunks(groups[0], Flattened(groups[1..]), event);
    }
  }

  // ------------------------------------------------------------------ whole replies

  /** A client whose Anthropic upstream streams a reply, cut anywhere and with any quiet events,
      reads the content and the finish reason that it would have been sent in one piece; the
      reasoning too, exactly when the reply has at most one thinking block. */
  lemma AnthropicReplyStreams(texts: seq<string>, body: Value, cuts: seq<seq<string>>, tokens: Value, parse: Parser)
    requires Cuts(AnthropicParts(AsArray(Field(body, "content"))), cuts)
    requires NoCrCrLf(Concat(texts)) && EndsGroups(GroupsIn(Normalize(Concat(texts)), parse), AnthropicEvent)
    requires Among(EventsIn(Normalize(Concat(texts)), parse), AnthropicEvents(body, cuts, tokens), AnthropicEvent)
    requires !FeedAll(AsPieces(texts), true, Translating(parse, AnthropicStreamEvent(parse))).failed
    ensures var sent := FeedAll(AsPieces(texts), true, Translating(parse, AnthropicStreamEvent(parse))).out;
            && Join(Contents(sent), "") == FromAnthropic(body).content
            && LastFinish(sent) == Some(FromAnthropic(body).finish)
            && (Join(Reasonings(sent), "") == FromAnthropic(body).reasoning
                <==> |Texts(AsArray(Field(body, "content")), Some("thinking"), "thinking")| <= 1)
  {
    AnthropicActsOnEvents(parse);
    LoopGivesChunks(texts, parse, AnthropicStreamEvent(parse), AnthropicEvent);
    GroupsAsChunks(GroupsIn(Normalize(Concat(texts)), parse), AnthropicEvent);
    AnthropicStreamAgrees(body, cuts, tokens, EventsIn(Normalize(Concat(texts)), parse));
  }

  /** The same for an upstream that speaks the Responses API. */
  lemma ResponsesReplyStreams(texts: seq<string>, body: Value, cuts: seq<seq<string>>, parse: Parser)
    requires parse("[DONE]").None? && Cuts(ResponsesParts(AsArray(Field(body, "output"))), cuts)
    requires NoCrCrLf(Concat(texts)) && EndsGroups(GroupsIn(Normalize(Concat(texts)), parse), ResponsesEvent)
    requires Among(EventsIn(Normalize(Concat(texts)), parse), ResponsesEvents(body, cuts), ResponsesEvent)
    requires !FeedAll(AsPieces(texts), true, Translating(parse, ResponsesStreamEvent(parse))).failed
    ensures var sent := FeedAll(AsPieces(texts), true, Translating(parse, ResponsesStreamEvent(parse))).out;
            && Join(Contents(sent), "") == FromResponses(body).content
            && LastFinish(sent) == Some(FromResponses(body).finish)
            && (Join(Reasonings(sent), "") == FromResponses(body).reasoning
                <==> |Texts(Parts(AsArray(Field(body, "output")), "reasoning", "summary"), None, "text")| <= 1)
  {
    ResponsesActsOnEvents(parse);
    LoopGivesChunks(texts, parse, ResponsesStreamEvent(parse), ResponsesEvent);
    GroupsAsChunks(GroupsIn(Normalize(Concat(texts)), parse), ResponsesEvent);
    ResponsesStreamAgrees(body, cuts, EventsIn(Normalize(Concat(texts)), parse));
  }
}
