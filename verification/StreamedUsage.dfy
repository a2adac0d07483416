/**
 The tokens that a streamed reply is logged with (src/api/v1.rs, `stream_usage`): the largest
 counts of all the events the translating loop reads, and so the reply's own.
 */
module StreamedUsage {
  import opened Wrappers
  import opened Json
  import opened Translate
  import opened Sequences
  import opened Sse
  import opened SseChunking
  import opened StreamAgreement
  import opened StreamedReplies

  type Count = Value -> int

  function PromptOf(event: Value): int {
    UsageFromPayload(event).0
  }

  function CompletionOf(event: Value): int {
    UsageFromPayload(event).1
  }

  /** A number is the largest count of some events, or zero when none is larger. */
  ghost predicate Largest(n: int, events: seq<Value>, count: Count) {
    && n >= 0
    && (forall e :: e in events ==> count(e) <= n)
    && (n > 0 ==> exists e :: e in events && count(e) == n)
  }

  function MaxOver(events: seq<Value>, start: int, count: Count): int {
    if events == [] then start else MaxOver(events[1..], Max(start, count(events[0])), count)
  }

  /** The larger of a start and the counts. */
  ghost predicate LargestFrom(n: int, events: seq<Value>, start: int, count: Count) {
    && n >= start
    && (forall e :: e in events ==> count(e) <= n)
    && (n > start ==> exists e :: e in events && count(e) == n)
  }

  lemma {:induction false} MaxIsLargest(events: seq<Value>, start: int, count: Count)
    ensures LargestFrom(MaxOver(events, start, count), events, start, count)
  {
    if events != [] {
      var next := Max(start, count(events[0]));
      MaxIsLargest(events[1..], next, count);
      var n := MaxOver(events, start, count);
      assert forall e :: e in events <==> e == events[0] || e in events[1..];
      if n > start && n == next {
        assert events[0] in events && count(events[0]) == n;
      }
    }
  }

  lemma {:induction false} MaxInBoth(a: seq<Value>, b: seq<Value>, start: int, count: Count)
    ensures MaxOver(a + b, start, count) == MaxOver(b, MaxOver(a, start, count), count)
  {
    if a == [] {
      assert a + b == b;
    } else {
      HeadAndTail(a, b);
      MaxInBoth(a[1..], b, Max(start, count(a[0])), count);
    }
  }

  // ------------------------------------------------------------------ the loop

  /** The events of all groups up to the one in which the stream ends. */
  function ReadIn(groups: seq<seq<Value>>, event: EventTranslator): seq<Value> {
    if groups == [] then []
    else groups[0] + if Told(groups[0], false, event).1 then [] else ReadIn(groups[1..], event)
  }

  lemma OnePayloadCounts(data: string, tally: Tally, parse: Parser, translate: Translator)
    requires tally.prompt >= 0 && tally.completion >= 0
    ensures var h, its := Translating(parse, translate)(data, tally).tally, Parsed([data], parse);
            h.prompt == MaxOver(its, tally.prompt, PromptOf) && h.completion == MaxOver(its, tally.completion, CompletionOf)
  {
    assert Parsed([data], parse) == if parse(data).Some? then [parse(data).value] else [];
    if parse(data).Some? {
      MaxOfOne(parse(data).value, tally.prompt, PromptOf);
      MaxOfOne(parse(data).value, tally.completion, CompletionOf);
      assert PromptOf(parse(data).value) == StreamUsage(parse, data).0;
      assert CompletionOf(parse(data).value) == StreamUsage(parse, data).1;
    } else {
      assert StreamUsage(parse, data) == (0, 0) && Parsed([data], parse) == [];
      assert Max(tally.prompt, 0) == tally.prompt && Max(tally.completion, 0) == tally.completion;
    }
  }

  lemma MaxOfOne(e: Value, start: int, count: Count)
    ensures MaxOver([e], start, count) == Max(start, count(e))
  {
    assert [e][1..] == [];
  }

  lemma MaxStaysUp(events: seq<Value>, start: int, count: Count)
    requires start >= 0
    ensures MaxOver(events, start, count) >= 0
  {
    MaxIsLargest(events, start, count);
  }

  lemma {:induction false} LinesCount(lines: seq<string>, tally: Tally, parse: Parser, translate: Translator)
    requires tally.prompt >= 0 && tally.completion >= 0
    ensures var h, its := HandleLines(lines, tally, Translating(parse, translate)).tally, Parsed(DataLines(lines), parse);
            h.prompt == MaxOver(its, tally.prompt, PromptOf) && h.completion == MaxOver(its, tally.completion, CompletionOf)
  {
    if lines != [] {
      var data, rest := DataOf(lines[0]), Parsed(DataLines(lines[1..]), parse);
      if data.Some? {
        var first := Translating(parse, translate)(data.value, tally).tally;
        var its := Parsed([data.value], parse);
        OnePayloadCounts(data.value, tally, parse, translate);
        MaxStaysUp(its, tally.prompt, PromptOf);
        MaxStaysUp(its, tally.completion, CompletionOf);
        LinesCount(lines[1..], first, parse, translate);
        ParsedFirst(data.value, DataLines(lines[1..]), parse);
        MaxInBoth(its, rest, tally.prompt, PromptOf);
        MaxInBoth(its, rest, tally.completion, CompletionOf);
      } else {
        assert DataLines(lines) == DataLines(lines[1..]);
        LinesCount(lines[1..], tally, parse, translate);
      }
    }
  }

  lemma {:induction false} DrainCounts(text: string, tally: Tally, parse: Parser, translate: Translator,
                                       event: EventTranslator)
    requires ActsOnEvents(parse, translate, event) && !tally.done && tally.prompt >= 0 && tally.completion >= 0
    ensures var d, its := Drain(text, tally, Translating(parse, translate)).tally, ReadIn(GroupsIn(text, parse), event);
            d.prompt == MaxOver(its, tally.prompt, PromptOf) && d.completion == MaxOver(its, tally.completion, CompletionOf)
    decreases |text|
  {
    var end := EventEnd(text);
    if end != -1 {
      var lines, rest := Lines(text[..end]), text[end + 2..];
      var its := Parsed(DataLines(lines), parse);
      var h := HandleLines(lines, tally, Translating(parse, translate));
      LinesAreTold(lines, tally, parse, translate, event);
      LinesCount(lines, tally, parse, translate);
      assert GroupsIn(text, parse)[1..] == GroupsIn(rest, parse);
      if h.tally.done {
        assert its + [] == its;
      } else {
        MaxStaysUp(its, tally.prompt, PromptOf);
        MaxStaysUp(its, tally.completion, CompletionOf);
        DrainCounts(rest, h.tally, parse, translate, event);
        MaxInBoth(its, ReadIn(GroupsIn(rest, parse), event), tally.prompt, PromptOf);
        MaxInBoth(its, ReadIn(GroupsIn(rest, parse), event), tally.completion, CompletionOf);
      }
    }
  }

  /** What a stream is logged with are the largest prompt count and the largest completion count
      of all the events it reads, however its text is cut. */
  lemma LoopCountsUsage(texts: seq<string>, parse: Parser, translate: Translator, event: EventTranslator)
    requires ActsOnEvents(parse, translate, event) && NoCrCrLf(Concat(texts))
    requires !FeedAll(AsPieces(texts), true, Translating(parse, translate)).failed
    ensures var tally := FeedAll(AsPieces(texts), true, Translating(parse, translate)).tally;
            var read := ReadIn(GroupsIn(Normalize(Concat(texts)), parse), event);
            Largest(tally.prompt, read, PromptOf) && Largest(tally.completion, read, CompletionOf)
  {
    var read := ReadIn(GroupsIn(Normalize(Concat(texts)), parse), event);
    LoopDrainsTheWhole(texts, Translating(parse, translate));
    DrainCounts(Normalize(Concat(texts)), START, parse, translate, event);
    MaxIsLargest(read, 0, PromptOf);
    MaxIsLargest(read, 0, CompletionOf);
  }

  // ------------------------------------------------------------------ what is read of a reply

  /** The events up to the one that ends the stream. */
  function UpToEnd(events: seq<Value>, event: EventTranslator): seq<Value> {
    if events == [] then []
    else [events[0]] + if event(events[0], false).done then [] else UpToEnd(events[1..], event)
  }

  lemma {:induction false} UpToEndOfGroup(group: seq<Value>, rest: seq<Value>, event: EventTranslator)
    requires EndsInLast(group, event)
    ensures UpToEnd(group + rest, event) == group + if Told(group, false, event).1 then [] else UpToEnd(rest, event)
  {
    if group == [] {
      assert group + rest == rest && [] + UpToEnd(rest, event) == UpToEnd(rest, event);
    } else {
      HeadAndTail(group, rest);
      assert group == [group[0]] + group[1..];
      if event(group[0], false).done {
        assert group[1..] == [];
      } else {
        UpToEndOfGroup(group[1..], rest, event);
        Associative([group[0]], group[1..], if Told(group[1..], false, event).1 then [] else UpToEnd(rest, event));
      }
    }
  }

  lemma {:induction false} ReadIsUpToEnd(groups: seq<seq<Value>>, event: EventTranslator)
    requires EndsGroups(groups, event)
    ensures ReadIn(groups, event) == UpToEnd(Flattened(groups), event)
  {
    if groups != [] {
      ReadIsUpToEnd(groups[1..], event);
      UpToEndOfGroup(groups[0], Flattened(groups[1..]), event);
    }
  }

  lemma {:induction false} AmongIsRead(events: seq<Value>, said: seq<Value>, event: EventTranslator, e: Value)
    requires Among(events, said, event) && e in UpToEnd(said, event)
    ensures e in UpToEnd(events, event)
  {
    if events != [] {
      if said != [] && events[0] == said[0] && Among(events[1..], said[1..], event) {
        if e != said[0] {
          AmongIsRead(events[1..], said[1..], event, e);
        }
      } else {
        AmongIsRead(events[1..], said, event, e);
      }
    }
  }

  lemma OpenTail(a: seq<Value>, event: EventTranslator)
    requires Open(a, event) && a != []
    ensures Open(a[1..], event) && !event(a[0], false).done && a == [a[0]] + a[1..]
  {
  }

  lemma {:induction false} OpenIsReadWhole(a: seq<Value>, b: seq<Value>, event: EventTranslator)
    requires Open(a, event)
    ensures UpToEnd(a + b, event) == a + UpToEnd(b, event)
  {
    if a == [] {
      assert a + b == b && [] + UpToEnd(b, event) == UpToEnd(b, event);
    } else {
      HeadAndTail(a, b);
      OpenTail(a, event);
      OpenIsReadWhole(a[1..], b, event);
      Associative([a[0]], a[1..], UpToEnd(b, event));
    }
  }

  lemma {:induction false} ReadIsAmong(events: seq<Value>, event: EventTranslator, e: Value)
    requires e in UpToEnd(events, event)
    ensures e in events
  {
    if e != events[0] {
      ReadIsAmong(events[1..], event, e);
    }
  }

  /** Of some events one alone carries usage, and it is read. */
  lemma TheOnlyUsage(n: int, events: seq<Value>, read: seq<Value>, one: Value, count: Count)
    requires Largest(n, read, count) && one in read && (forall e :: e in read ==> e in events)
    requires forall e :: e in events && e != one ==> count(e) == 0
    ensures n == if count(one) >= 0 then count(one) else 0
  {
  }

  ghost predicate SpellsFreely(spell: (StreamAgreement.Part, string) -> Value) {
    forall part, piece :: UsageFromPayload(spell(part, piece)) == (0, 0)
  }

  lemma {:induction false} DeltasCarryNone(part: StreamAgreement.Part, pieces: seq<string>,
                                           spell: (StreamAgreement.Part, string) -> Value, e: Value)
    requires SpellsFreely(spell) && e in Deltas(part, pieces, spell)
    ensures UsageFromPayload(e) == (0, 0)
  {
    if e != spell(part, pieces[0]) {
      DeltasCarryNone(part, pieces[1..], spell, e);
    }
  }

  lemma {:induction false} AllDeltasCarryNone(parts: seq<StreamAgreement.Part>, cuts: seq<seq<string>>,
                                              spell: (StreamAgreement.Part, string) -> Value, e: Value)
    requires |cuts| == |parts| && SpellsFreely(spell) && e in AllDeltas(parts, cuts, spell)
    ensures UsageFromPayload(e) == (0, 0)
  {
    if e in Deltas(parts[0], cuts[0], spell) {
      DeltasCarryNone(parts[0], cuts[0], spell, e);
    } else {
      AllDeltasCarryNone(parts[1..], cuts[1..], spell, e);
    }
  }

  lemma DeltasSpellFreely()
    ensures SpellsFreely(AnthropicDelta) && SpellsFreely(ResponsesDelta)
  {
    forall part: StreamAgreement.Part, piece: string
      ensures UsageFromPayload(AnthropicDelta(part, piece)) == (0, 0)
      ensures UsageFromPayload(ResponsesDelta(part, piece)) == (0, 0)
    {
      assert Field(AnthropicDelta(part, piece), "response") == Null && Field(ResponsesDelta(part, piece), "response") == Null;
    }
  }

  /** The closing events of a reply are all read, whatever quiet events stand among them. */
  lemma ClosingIsRead(events: seq<Value>, parts: seq<StreamAgreement.Part>, cuts: seq<seq<string>>,
                      spell: (StreamAgreement.Part, string) -> Value, closing: seq<Value>, event: EventTranslator)
    requires |cuts| == |parts| && Spells(spell, event) && closing != []
    requires Among(events, AllDeltas(parts, cuts, spell) + closing, event)
    ensures closing[0] in UpToEnd(events, event)
  {
    AllDeltaChunks(parts, cuts, spell, event);
    OpenIsReadWhole(AllDeltas(parts, cuts, spell), closing, event);
    AmongIsRead(events, AllDeltas(parts, cuts, spell) + closing, event, closing[0]);
  }

  /** No event but those of the reply itself carries usage. */
  ghost predicate NoOtherUsage(events: seq<Value>, said: seq<Value>) {
    forall e :: e in events && e !in said ==> UsageFromPayload(e) == (0, 0)
  }

  lemma ReplyUsage(events: seq<Value>, parts: seq<StreamAgreement.Part>, cuts: seq<seq<string>>,
                   spell: (StreamAgreement.Part, string) -> Value, closing: seq<Value>, event: EventTranslator,
                   tally: Tally)
    requires |cuts| == |parts| && Spells(spell, event) && SpellsFreely(spell) && closing != []
    requires Among(events, AllDeltas(parts, cuts, spell) + closing, event)
    requires NoOtherUsage(events, AllDeltas(parts, cuts, spell) + closing)
    requires forall i :: 0 < i < |closing| ==> UsageFromPayload(closing[i]) == (0, 0)
    requires Largest(tally.prompt, UpToEnd(events, event), PromptOf)
    requires Largest(tally.completion, UpToEnd(events, event), CompletionOf)
    ensures tally.prompt == Max(0, PromptOf(closing[0])) && tally.completion == Max(0, CompletionOf(closing[0]))
  {
    var read := UpToEnd(events, event);
    ClosingIsRead(events, parts, cuts, spell, closing, event);
    forall e | e in read
      ensures e in events
    {
      ReadIsAmong(events, event, e);
    }
    forall e | e in events && e != closing[0]
      ensures UsageFromPayload(e) == (0, 0)
    {
      if e in AllDeltas(parts, cuts, spell) {
        AllDeltasCarryNone(parts, cuts, spell, e);
      } else if e in closing {
        var i :| 0 <= i < |closing| && closing[i] == e;
      }
    }
    TheOnlyUsage(tally.prompt, events, read, closing[0], PromptOf);
    TheOnlyUsage(tally.completion, events, read, closing[0], CompletionOf);
  }

  // ------------------------------------------------------------------ whole replies

  /** A streamed Anthropic reply is logged with the completion tokens of its closing event. */
  lemma AnthropicUsage(texts: seq<string>, body: Value, cuts: seq<seq<string>>, n: nat, parse: Parser)
    requires Cuts(AnthropicParts(AsArray(Field(body, "content"))), cuts) && n < 0x8000_0000_0000_0000
    requires var events := EventsIn(Normalize(Concat(texts)), parse);
             && Among(events, AnthropicEvents(body, cuts, Num(n)), AnthropicEvent)
             && NoOtherUsage(events, AnthropicEvents(body, cuts, Num(n)))
    requires NoCrCrLf(Concat(texts)) && EndsGroups(GroupsIn(Normalize(Concat(texts)), parse), AnthropicEvent)
    requires !FeedAll(AsPieces(texts), true, Translating(parse, AnthropicStreamEvent(parse))).failed
    ensures var tally := FeedAll(AsPieces(texts), true, Translating(parse, AnthropicStreamEvent(parse))).tally;
            tally.prompt == 0 && tally.completion == n
  {
    var groups := GroupsIn(Normalize(Concat(texts)), parse);
    var tally := FeedAll(AsPieces(texts), true, Translating(parse, AnthropicStreamEvent(parse))).tally;
    var closing := AnthropicClosing(body, Num(n));
    AnthropicActsOnEvents(parse);
    LoopCountsUsage(texts, parse, AnthropicStreamEvent(parse), AnthropicEvent);
    ReadIsUpToEnd(groups, AnthropicEvent);
    AnthropicSpells();
    DeltasSpellFreely();
    AnthropicClosingUsage(body, n);
    ReplyUsage(Flattened(groups), AnthropicParts(AsArray(Field(body, "content"))), cuts, AnthropicDelta, closing,
               AnthropicEvent, tally);
  }

  lemma AnthropicClosingUsage(body: Value, n: nat)
    requires n < 0x8000_0000_0000_0000
    ensures UsageFromPayload(AnthropicClosing(body, Num(n))[0]) == (0, n)
    ensures UsageFromPayload(AnthropicClosing(body, Num(n))[1]) == (0, 0)
  {
    var usage := Field(AnthropicClosing(body, Num(n))[0], "usage");
    assert usage.fields == map["output_tokens" := Num(n)];
    assert Field(AnthropicClosing(body, Num(n))[1], "response") == Null;
  }

  /** A streamed Responses reply is logged with the input and output tokens of its own usage. */
  lemma ResponsesUsage(texts: seq<string>, body: Value, cuts: seq<seq<string>>, input: nat, output: nat, parse: Parser)
    requires Cuts(ResponsesParts(AsArray(Field(body, "output"))), cuts) && parse("[DONE]").None?
    requires Field(body, "usage") == Obj(map["input_tokens" := Num(input), "output_tokens" := Num(output)])
    requires input < 0x8000_0000_0000_0000 && output < 0x8000_0000_0000_0000
    requires var events := EventsIn(Normalize(Concat(texts)), parse);
             && Among(events, ResponsesEvents(body, cuts), ResponsesEvent)
             && NoOtherUsage(events, ResponsesEvents(body, cuts))
    requires NoCrCrLf(Concat(texts)) && EndsGroups(GroupsIn(Normalize(Concat(texts)), parse), ResponsesEvent)
    requires !FeedAll(AsPieces(texts), true, Translating(parse, ResponsesStreamEvent(parse))).failed
    ensures var tally := FeedAll(AsPieces(texts), true, Translating(parse, ResponsesStreamEvent(parse))).tally;
            tally.prompt == input && tally.completion == output
  {
    var groups := GroupsIn(Normalize(Concat(texts)), parse);
    var tally := FeedAll(AsPieces(texts), true, Translating(parse, ResponsesStreamEvent(parse))).tally;
    ResponsesActsOnEvents(parse);
    LoopCountsUsage(texts, parse, ResponsesStreamEvent(parse), ResponsesEvent);
    ReadIsUpToEnd(groups, ResponsesEvent);
    ResponsesSpells();
    DeltasSpellFreely();
    ResponsesClosingUsage(body, input, output);
    ReplyUsage(Flattened(groups), ResponsesParts(AsArray(Field(body, "output"))), cuts, ResponsesDelta,
               ResponsesClosing(body), ResponsesEvent, tally);
  }

  lemma ResponsesClosingUsage(body: Value, input: nat, output: nat)
    requires Field(body, "usage") == Obj(map["input_tokens" := Num(input), "output_tokens" := Num(output)])
    requires input < 0x8000_0000_0000_0000 && output < 0x8000_0000_0000_0000
    ensures UsageFromPayload(ResponsesClosing(body)[0]) == (input, output)
  {
    var payload := ResponsesClosing(body)[0];
    assert Get(payload, "usage").None? && Get(payload, "usageMetadata").None? && Get(payload, "response") == Some(body);
    assert Get(body, "usage") == Some(Field(body, "usage"));
  }
}
