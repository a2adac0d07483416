/**
 A reply streamed in deltas reads the same as the reply sent whole: for any cut of its texts
 the client ends up with the content and the finish reason that the whole-body translation
 gives. Reasoning agrees exactly when there is at most one reasoning part.
 */
module StreamAgreement {
  import opened Wrappers
  import opened Json
  import opened Translate
  import opened Sequences

  /** A piece of a reply as its stream spells it out. */
  datatype Part = Spoken(text: string) | Thought(text: string) | Silent

  /** Every spoken or thought text cut into deltas; a silent part may stream anything else. */
  predicate Cuts(parts: seq<Part>, cuts: seq<seq<string>>) {
    && |cuts| == |parts|
    && forall i :: 0 <= i < |parts| && !parts[i].Silent? ==> Join(cuts[i], "") == parts[i].text
  }

  function SpokenTexts(parts: seq<Part>): seq<string> {
    if parts == [] then []
    else (if parts[0].Spoken? then [parts[0].text] else []) + SpokenTexts(parts[1..])
  }

  function ThoughtTexts(parts: seq<Part>): seq<string> {
    if parts == [] then []
    else (if parts[0].Thought? then [parts[0].text] else []) + ThoughtTexts(parts[1..])
  }

  // ------------------------------------------------------------------ joining

  lemma {:induction false} JoinAppend(a: seq<string>, b: seq<string>)
    ensures Join(a + b, "") == Join(a, "") + Join(b, "")
  {
    if a == [] {
      assert a + b == b;
    } else {
      JoinAppend(a[1..], b);
      HeadAndTail(a, b);
      JoinFirst(a);
      JoinFirst(a + b);
    }
  }

  lemma JoinFirst(a: seq<string>)
    requires a != []
    ensures Join(a, "") == a[0] + Join(a[1..], "")
  {
  }

  lemma {:induction false} JoinedLength(a: seq<string>)
    ensures |Join(a, "\n")| == |Join(a, "")| + if |a| <= 1 then 0 else |a| - 1
  {
    if |a| > 1 {
      JoinedLength(a[1..]);
    }
  }

  /** A separator shows exactly when there is something to separate. */
  lemma SeparatorShows(a: seq<string>)
    ensures Join(a, "\n") == Join(a, "") <==> |a| <= 1
  {
    JoinedLength(a);
  }

  // ------------------------------------------------------------------ chunks of the parts

  /** The chunks that the deltas of one part become. */
  function PartChunks(part: Part, pieces: seq<string>): seq<Value> {
    if pieces == [] || part.Silent? then []
    else [if part.Spoken? then TextChunk(pieces[0]) else ReasoningChunk(pieces[0])] + PartChunks(part, pieces[1..])
  }

  function AllChunks(parts: seq<Part>, cuts: seq<seq<string>>): seq<Value>
    requires |cuts| == |parts|
  {
    if parts == [] then [] else PartChunks(parts[0], cuts[0]) + AllChunks(parts[1..], cuts[1..])
  }

  lemma Appended(a: seq<Value>, b: seq<Value>)
    ensures Contents(a + b) == Contents(a) + Contents(b)
    ensures Reasonings(a + b) == Reasonings(a) + Reasonings(b)
  {
    PickedAppend(a, b, ContentOf);
    PickedAppend(a, b, ReasoningOf);
  }

  lemma {:induction false} PartReads(part: Part, pieces: seq<string>)
    ensures Contents(PartChunks(part, pieces)) == if part.Spoken? then pieces else []
    ensures Reasonings(PartChunks(part, pieces)) == if part.Thought? then pieces else []
  {
    if pieces != [] && !part.Silent? {
      PartReads(part, pieces[1..]);
      ChunkContents(pieces[0], None, "");
      var head := if part.Spoken? then TextChunk(pieces[0]) else ReasoningChunk(pieces[0]);
      assert ([head] + PartChunks(part, pieces[1..]))[1..] == PartChunks(part, pieces[1..]);
      assert pieces == [pieces[0]] + pieces[1..];
    }
  }

  /** Reading the chunks of all parts gives the texts of the parts, joined without separators. */
  lemma {:induction false} AllPartsRead(parts: seq<Part>, cuts: seq<seq<string>>)
    requires Cuts(parts, cuts)
    ensures Join(Contents(AllChunks(parts, cuts)), "") == Join(SpokenTexts(parts), "")
    ensures Join(Reasonings(AllChunks(parts, cuts)), "") == Join(ThoughtTexts(parts), "")
  {
    if parts != [] {
      var first, rest := PartChunks(parts[0], cuts[0]), AllChunks(parts[1..], cuts[1..]);
      AllPartsRead(parts[1..], cuts[1..]);
      PartReads(parts[0], cuts[0]);
      Appended(first, rest);
      JoinAppend(Contents(first), Contents(rest));
      JoinAppend(Reasonings(first), Reasonings(rest));
      JoinAppend(if parts[0].Spoken? then [parts[0].text] else [], SpokenTexts(parts[1..]));
      JoinAppend(if parts[0].Thought? then [parts[0].text] else [], ThoughtTexts(parts[1..]));
    }
  }

  // ------------------------------------------------------------------ translating a stream

  type EventTranslator = (Value, bool) -> Translated

  /** The chunks of a list of events, up to the one that ends the stream. */
  function Chunks(events: seq<Value>, translate: EventTranslator): seq<Value> {
    if events == [] then []
    else
      var t := translate(events[0], false);
      (if t.chunk.Some? then [t.chunk.value] else []) + if t.done then [] else Chunks(events[1..], translate)
  }

  /** No event of the list ends the stream. */
  predicate Open(events: seq<Value>, translate: EventTranslator) {
    forall i :: 0 <= i < |events| ==> !translate(events[i], false).done
  }

  lemma {:induction false} ChunksAppend(a: seq<Value>, b: seq<Value>, translate: EventTranslator)
    requires Open(a, translate)
    ensures Chunks(a + b, translate) == Chunks(a, translate) + Chunks(b, translate)
  {
    if a == [] {
      assert a + b == b;
    } else {
      assert !translate(a[0], false).done;
      ChunksAppend(a[1..], b, translate);
      HeadAndTail(a, b);
      var t := translate(a[0], false);
      Associative(if t.chunk.Some? then [t.chunk.value] else [], Chunks(a[1..], translate), Chunks(b, translate));
    }
  }

  /** The deltas of the parts as events of a wire format. */
  function Deltas(part: Part, pieces: seq<string>, spell: (Part, string) -> Value): seq<Value> {
    if pieces == [] then [] else [spell(part, pieces[0])] + Deltas(part, pieces[1..], spell)
  }

  function AllDeltas(parts: seq<Part>, cuts: seq<seq<string>>, spell: (Part, string) -> Value): seq<Value>
    requires |cuts| == |parts|
  {
    if parts == [] then [] else Deltas(parts[0], cuts[0], spell) + AllDeltas(parts[1..], cuts[1..], spell)
  }

  /** A wire format spells a part by events that translate to the part's chunks. */
  ghost predicate Spells(spell: (Part, string) -> Value, translate: EventTranslator) {
    forall part, piece ::
      translate(spell(part, piece), false) ==
      Translated(match part
                 case Spoken(_) => Some(TextChunk(piece))
                 case Thought(_) => Some(ReasoningChunk(piece))
                 case Silent => None, false)
  }

  /** An event the translation passes over. */
  predicate Quiet(event: Value, translate: EventTranslator) {
    translate(event, false) == Translated(None, false)
  }

  /** The events are those said, in order, with quiet ones anywhere among them. */
  predicate Among(events: seq<Value>, said: seq<Value>, translate: EventTranslator) {
    if events == [] then said == []
    else
      || (said != [] && events[0] == said[0] && Among(events[1..], said[1..], translate))
      || (Quiet(events[0], translate) && Among(events[1..], said, translate))
  }

  /** Quiet events do not matter, wherever they stand. */
  lemma {:induction false} QuietEventsDoNotMatter(events: seq<Value>, said: seq<Value>, translate: EventTranslator)
    requires Among(events, said, translate)
    ensures Chunks(events, translate) == Chunks(said, translate)
  {
    if events != [] {
      if said != [] && events[0] == said[0] && Among(events[1..], said[1..], translate) {
        QuietEventsDoNotMatter(events[1..], said[1..], translate);
      } else {
        QuietEventsDoNotMatter(events[1..], said, translate);
      }
    }
  }

  lemma {:induction false} DeltaChunks(part: Part, pieces: seq<string>, spell: (Part, string) -> Value,
                                       translate: EventTranslator)
    requires Spells(spell, translate)
    ensures Open(Deltas(part, pieces, spell), translate)
    ensures Chunks(Deltas(part, pieces, spell), translate) == PartChunks(part, pieces)
  {
    if pieces != [] {
      DeltaChunks(part, pieces[1..], spell, translate);
      var events := Deltas(part, pieces, spell);
      assert translate(events[0], false) == translate(spell(part, pieces[0]), false);
      assert events[1..] == Deltas(part, pieces[1..], spell);
    }
  }

  lemma {:induction false} AllDeltaChunks(parts: seq<Part>, cuts: seq<seq<string>>, spell: (Part, string) -> Value,
                                          translate: EventTranslator)
    requires |cuts| == |parts| && Spells(spell, translate)
    ensures Open(AllDeltas(parts, cuts, spell), translate)
    ensures Chunks(AllDeltas(parts, cuts, spell), translate) == AllChunks(parts, cuts)
  {
    if parts != [] {
      var deltas, rest := Deltas(parts[0], cuts[0], spell), AllDeltas(parts[1..], cuts[1..], spell);
      DeltaChunks(parts[0], cuts[0], spell, translate);
      AllDeltaChunks(parts[1..], cuts[1..], spell, translate);
      ChunksAppend(deltas, rest, translate);
    }
  }

  /** What a client has read from a list of chunks. */
  predicate Reads(chunks: seq<Value>, content: string, reasoning: string, finish: string) {
    Join(Contents(chunks), "") == content && Join(Reasonings(chunks), "") == reasoning
    && LastFinish(chunks) == Some(finish)
  }

  /** A whole stream: the deltas of the parts, then the closing events, which become the one
      final chunk; and quiet events anywhere. */
  lemma StreamReads(events: seq<Value>, parts: seq<Part>, cuts: seq<seq<string>>, spell: (Part, string) -> Value,
                    closing: seq<Value>, tokens: Option<nat>, finish: string, translate: EventTranslator)
    requires Cuts(parts, cuts) && Spells(spell, translate)
    requires Chunks(closing, translate) == [FinalChunk(tokens, finish)]
    requires Among(events, AllDeltas(parts, cuts, spell) + closing, translate)
    ensures Reads(Chunks(events, translate), Join(SpokenTexts(parts), ""), Join(ThoughtTexts(parts), ""), finish)
  {
    var final := FinalChunk(tokens, finish);
    QuietEventsDoNotMatter(events, AllDeltas(parts, cuts, spell) + closing, translate);
    AllDeltaChunks(parts, cuts, spell, translate);
    ChunksAppend(AllDeltas(parts, cuts, spell), closing, translate);
    var said := AllChunks(parts, cuts);
    AllPartsRead(parts, cuts);
    Appended(said, [final]);
    ChunkContents("", tokens, finish);
    PickedOne(final, ContentOf);
    PickedOne(final, ReasoningOf);
    assert Contents(said) + [] == Contents(said) && Reasonings(said) + [] == Reasonings(said);
    LastOfAppended(said, final);
  }

  lemma LastOfAppended(chunks: seq<Value>, final: Value)
    requires FinishOf(final).Some?
    ensures LastFinish(chunks + [final]) == FinishOf(final)
  {
  }

  // ------------------------------------------------------------------ Anthropic

  function AnthropicPart(block: Value): Part {
    var kind := Field(block, "type");
    if kind == Str("text") && Field(block, "text").Str? then Spoken(Field(block, "text").text)
    else if kind == Str("thinking") && Field(block, "thinking").Str? then Thought(Field(block, "thinking").text)
    else Silent
  }

  function AnthropicParts(blocks: seq<Value>): seq<Part> {
    seq(|blocks|, i requires 0 <= i < |blocks| => AnthropicPart(blocks[i]))
  }

  /** A content_block_delta event; a silent block streams its input as partial JSON. */
  function AnthropicDelta(part: Part, piece: string): Value {
    var name := match part
                case Spoken(_) => "text"
                case Thought(_) => "thinking"
                case Silent => "partial_json";
    Obj(map["type" := Str("content_block_delta"), "delta" := Obj(map[name := Str(piece)])])
  }

  /** The message_delta and message_stop events that close the stream of a reply. */
  function AnthropicClosing(body: Value, tokens: Value): seq<Value> {
    [Obj(map["type" := Str("message_delta"),
             "delta" := Obj(map["stop_reason" := Field(body, "stop_reason")]),
             "usage" := Obj(map["output_tokens" := tokens])]),
     Obj(map["type" := Str("message_stop")])]
  }

  lemma {:induction false} AnthropicTexts(blocks: seq<Value>)
    ensures SpokenTexts(AnthropicParts(blocks)) == Texts(blocks, Some("text"), "text")
    ensures ThoughtTexts(AnthropicParts(blocks)) == Texts(blocks, Some("thinking"), "thinking")
  {
    if blocks != [] {
      AnthropicTexts(blocks[1..]);
      assert AnthropicParts(blocks)[1..] == AnthropicParts(blocks[1..]);
    }
  }

  lemma AnthropicSpells()
    ensures Spells(AnthropicDelta, AnthropicEvent)
  {
    forall part: Part, piece: string
      ensures AnthropicEvent(AnthropicDelta(part, piece), false) ==
              Translated(match part
                         case Spoken(_) => Some(TextChunk(piece))
                         case Thought(_) => Some(ReasoningChunk(piece))
                         case Silent => None, false)
    {
      var event := AnthropicDelta(part, piece);
      assert AsStr(Field(event, "type")) == Some("content_block_delta");
    }
  }

  lemma AnthropicCloses(body: Value, tokens: Value)
    ensures Chunks(AnthropicClosing(body, tokens), AnthropicEvent)
            == [FinalChunk(AsU64(tokens), FromAnthropic(body).finish)]
  {
    var events := AnthropicClosing(body, tokens);
    assert events[1..][1..] == [];
    assert AnthropicEvent(events[0], false)
        == Translated(Some(FinalChunk(AsU64(tokens), FromAnthropic(body).finish)), false);
    assert AnthropicEvent(events[1], false) == Translated(None, true);
  }

  /** The events that spell out an Anthropic reply. */
  function AnthropicEvents(body: Value, cuts: seq<seq<string>>, tokens: Value): seq<Value>
    requires Cuts(AnthropicParts(AsArray(Field(body, "content"))), cuts)
  {
    AllDeltas(AnthropicParts(AsArray(Field(body, "content"))), cuts, AnthropicDelta) + AnthropicClosing(body, tokens)
  }

  /** An Anthropic reply streamed in any cut, with events that the translation passes over
      anywhere, gives the content and the finish reason of the whole reply; its reasoning too,
      exactly when the reply has at most one thinking block. */
  lemma AnthropicStreamAgrees(body: Value, cuts: seq<seq<string>>, tokens: Value, events: seq<Value>)
    requires Cuts(AnthropicParts(AsArray(Field(body, "content"))), cuts)
    requires Among(events, AnthropicEvents(body, cuts, tokens), AnthropicEvent)
    ensures var chunks := Chunks(events, AnthropicEvent);
            && Join(Contents(chunks), "") == FromAnthropic(body).content
            && LastFinish(chunks) == Some(FromAnthropic(body).finish)
            && (Join(Reasonings(chunks), "") == FromAnthropic(body).reasoning
                <==> |Texts(AsArray(Field(body, "content")), Some("thinking"), "thinking")| <= 1)
  {
    var blocks := AsArray(Field(body, "content"));
    AnthropicSpells();
    AnthropicCloses(body, tokens);
    StreamReads(events, AnthropicParts(blocks), cuts, AnthropicDelta, AnthropicClosing(body, tokens),
                AsU64(tokens), FromAnthropic(body).finish, AnthropicEvent);
    AnthropicTexts(blocks);
    SeparatorShows(Texts(blocks, Some("thinking"), "thinking"));
  }

  // ------------------------------------------------------------------ Responses

  function MessageParts(contents: seq<Value>): seq<Part> {
    if contents == [] then []
    else
      [if Field(contents[0], "type") == Str("output_text") && Field(contents[0], "text").Str?
       then Spoken(Field(contents[0], "text").text) else Silent] + MessageParts(contents[1..])
  }

  function SummaryParts(summaries: seq<Value>): seq<Part> {
    if summaries == [] then []
    else
      [if Field(summaries[0], "text").Str? then Thought(Field(summaries[0], "text").text) else Silent]
      + SummaryParts(summaries[1..])
  }

  function ItemParts(item: Value): seq<Part> {
    if Field(item, "type") == Str("message") then MessageParts(AsArray(Field(item, "content")))
    else if Field(item, "type") == Str("reasoning") then SummaryParts(AsArray(Field(item, "summary")))
    else []
  }

  function ResponsesParts(items: seq<Value>): seq<Part> {
    if items == [] then [] else ItemParts(items[0]) + ResponsesParts(items[1..])
  }

  function ResponsesDelta(part: Part, piece: string): Value {
    var kind := match part
                case Spoken(_) => "response.output_text.delta"
                case Thought(_) => "response.reasoning_summary_text.delta"
                case Silent => "response.refusal.delta";
    Obj(map["type" := Str(kind), "delta" := Str(piece)])
  }

  /** The event that closes the stream of a reply with a given status. */
  function ResponsesClosing(body: Value): seq<Value> {
    var status := AsStr(Field(body, "status"));
    var kind := if status == Some("completed") then "response.completed"
                else if status == Some("incomplete") then "response.incomplete" else "response.failed";
    [Obj(map["type" := Str(kind), "response" := body])]
  }

  lemma {:induction false} SpokenAppend(a: seq<Part>, b: seq<Part>)
    ensures SpokenTexts(a + b) == SpokenTexts(a) + SpokenTexts(b)
    ensures ThoughtTexts(a + b) == ThoughtTexts(a) + ThoughtTexts(b)
  {
    if a == [] {
      assert a + b == b;
    } else {
      SpokenAppend(a[1..], b);
      HeadAndTail(a, b);
      Associative(if a[0].Spoken? then [a[0].text] else [], SpokenTexts(a[1..]), SpokenTexts(b));
      Associative(if a[0].Thought? then [a[0].text] else [], ThoughtTexts(a[1..]), ThoughtTexts(b));
    }
  }

  lemma {:induction false} TextsAppend(a: seq<Value>, b: seq<Value>, kind: Option<string>, field: string)
    ensures Texts(a + b, kind, field) == Texts(a, kind, field) + Texts(b, kind, field)
  {
    if a == [] {
      assert a + b == b;
    } else {
      TextsAppend(a[1..], b, kind, field);
      HeadAndTail(a, b);
    }
  }

  lemma {:induction false} MessageTexts(contents: seq<Value>)
    ensures SpokenTexts(MessageParts(contents)) == Texts(contents, Some("output_text"), "text")
    ensures ThoughtTexts(MessageParts(contents)) == []
  {
    if contents != [] {
      MessageTexts(contents[1..]);
      assert MessageParts(contents)[1..] == MessageParts(contents[1..]);
    }
  }

  lemma {:induction false} SummaryTexts(summaries: seq<Value>)
    ensures ThoughtTexts(SummaryParts(summaries)) == Texts(summaries, None, "text")
    ensures SpokenTexts(SummaryParts(summaries)) == []
  {
    if summaries != [] {
      SummaryTexts(summaries[1..]);
      assert SummaryParts(summaries)[1..] == SummaryParts(summaries[1..]);
    }
  }

  lemma {:induction false} ResponsesTexts(items: seq<Value>)
    ensures SpokenTexts(ResponsesParts(items)) == Texts(Parts(items, "message", "content"), Some("output_text"), "text")
    ensures ThoughtTexts(ResponsesParts(items)) == Texts(Parts(items, "reasoning", "summary"), None, "text")
  {
    if items != [] {
      var item, rest := items[0], items[1..];
      ResponsesTexts(rest);
      SpokenAppend(ItemParts(item), ResponsesParts(rest));
      var contents, summaries := AsArray(Field(item, "content")), AsArray(Field(item, "summary"));
      MessageTexts(contents);
      SummaryTexts(summaries);
      TextsAppend(if Field(item, "type") == Str("message") then contents else [],
                  Parts(rest, "message", "content"), Some("output_text"), "text");
      TextsAppend(if Field(item, "type") == Str("reasoning") then summaries else [],
                  Parts(rest, "reasoning", "summary"), None, "text");
    }
  }

  lemma ResponsesSpells()
    ensures Spells(ResponsesDelta, ResponsesEvent)
  {
    forall part: Part, piece: string
      ensures ResponsesEvent(ResponsesDelta(part, piece), false) ==
              Translated(match part
                         case Spoken(_) => Some(TextChunk(piece))
                         case Thought(_) => Some(ReasoningChunk(piece))
                         case Silent => None, false)
    {
      var event := ResponsesDelta(part, piece);
      assert AsStr(Field(event, "delta")) == Some(piece);
    }
  }

  /** The output tokens that the closing event reports. */
  function ClosingTokens(body: Value): Option<nat> {
    if AsStr(Field(body, "status")) == Some("completed") then AsU64(Field(Field(body, "usage"), "output_tokens")) else None
  }

  lemma ResponsesCloses(body: Value)
    ensures Chunks(ResponsesClosing(body), ResponsesEvent) == [FinalChunk(ClosingTokens(body), FromResponses(body).finish)]
  {
    var event := ResponsesClosing(body)[0];
    assert Field(event, "response") == body;
    var status, kind := AsStr(Field(body, "status")), AsStr(Field(event, "type"));
    if status == Some("completed") {
      assert kind == Some("response.completed");
    } else if status == Some("incomplete") {
      assert kind == Some("response.incomplete");
    } else {
      assert kind == Some("response.failed");
    }
    assert ResponsesEvent(event, false)
        == Translated(Some(FinalChunk(ClosingTokens(body), FromResponses(body).finish)), true);
  }

  function ResponsesEvents(body: Value, cuts: seq<seq<string>>): seq<Value>
    requires Cuts(ResponsesParts(AsArray(Field(body, "output"))), cuts)
  {
    AllDeltas(ResponsesParts(AsArray(Field(body, "output"))), cuts, ResponsesDelta) + ResponsesClosing(body)
  }

  /** The same for a Responses reply, whose reasoning agrees exactly when its reasoning items
      hold at most one summary text. */
  lemma ResponsesStreamAgrees(body: Value, cuts: seq<seq<string>>, events: seq<Value>)
    requires Cuts(ResponsesParts(AsArray(Field(body, "output"))), cuts)
    requires Among(events, ResponsesEvents(body, cuts), ResponsesEvent)
    ensures var chunks := Chunks(events, ResponsesEvent);
            && Join(Contents(chunks), "") == FromResponses(body).content
            && LastFinish(chunks) == Some(FromResponses(body).finish)
            && (Join(Reasonings(chunks), "") == FromResponses(body).reasoning
                <==> |Texts(Parts(AsArray(Field(body, "output")), "reasoning", "summary"), None, "text")| <= 1)
  {
    var items := AsArray(Field(body, "output"));
    ResponsesSpells();
    ResponsesCloses(body);
    StreamReads(events, ResponsesParts(items), cuts, ResponsesDelta, ResponsesClosing(body),
                ClosingTokens(body), FromResponses(body).finish, ResponsesEvent);
    ResponsesTexts(items);
    SeparatorShows(Texts(Parts(items, "reasoning", "summary"), None, "text"));
  }
}
