/**
 Translation of Anthropic Messages and Responses-API replies into OpenAI chat form
 (src/providers/translate.rs), both as whole bodies and as streams of events.
 */
module Translate {
  import opened Wrappers
  import opened Json
  import opened Sequences

  // ------------------------------------------------------------------ OpenAI chunks

  function ChunkOf(delta: map<string, Value>, finish: Value): Value {
    Obj(map[
      "object" := Str("chat.completion.chunk"),
      "choices" := Arr([Obj(map["index" := Num(0), "delta" := Obj(delta), "finish_reason" := finish])])])
  }

  function TextChunk(text: string): Value {
    ChunkOf(map["content" := Str(text)], Null)
  }

  function ReasoningChunk(text: string): Value {
    ChunkOf(map["reasoning_content" := Str(text)], Null)
  }

  function FinalChunk(tokens: Option<nat>, finish: string): Value {
    var out := ChunkOf(map[], Str(finish));
    match tokens
    case Some(n) => Obj(out.fields["usage" := Obj(map["completion_tokens" := Num(n)])])
    case None => out
  }

  /** The assistant text a client reads from a chunk, if it carries any. */
  function ContentOf(chunk: Value): Option<string> {
    AsStr(Field(Field(Item(Field(chunk, "choices"), 0), "delta"), "content"))
  }

  function ReasoningOf(chunk: Value): Option<string> {
    AsStr(Field(Field(Item(Field(chunk, "choices"), 0), "delta"), "reasoning_content"))
  }

  function FinishOf(chunk: Value): Option<string> {
    AsStr(Field(Item(Field(chunk, "choices"), 0), "finish_reason"))
  }

  /** The strings that `pick` finds in a list of chunks, in order. */
  function Picked(chunks: seq<Value>, pick: Value -> Option<string>): seq<string> {
    if chunks == [] then [] else Own(pick(chunks[0])) + Picked(chunks[1..], pick)
  }

  function Own(o: Option<string>): seq<string> {
    if o.Some? then [o.value] else []
  }

  lemma {:induction false} PickedAppend(a: seq<Value>, b: seq<Value>, pick: Value -> Option<string>)
    ensures Picked(a + b, pick) == Picked(a, pick) + Picked(b, pick)
  {
    if a == [] {
      assert a + b == b;
    } else {
      PickedAppend(a[1..], b, pick);
      HeadAndTail(a, b);
      Associative(Own(pick(a[0])), Picked(a[1..], pick), Picked(b, pick));
    }
  }

  lemma PickedOne(v: Value, pick: Value -> Option<string>)
    ensures Picked([v], pick) == Own(pick(v))
  {
  }

  /** What a client accumulates from a list of chunks: the content deltas, the reasoning
      deltas, and the last finish reason. */
  function Contents(chunks: seq<Value>): seq<string> {
    Picked(chunks, ContentOf)
  }

  function Reasonings(chunks: seq<Value>): seq<string> {
    Picked(chunks, ReasoningOf)
  }

  function LastFinish(chunks: seq<Value>): Option<string> {
    if chunks == [] then None
    else if FinishOf(chunks[|chunks| - 1]).Some? then FinishOf(chunks[|chunks| - 1])
    else LastFinish(chunks[..|chunks| - 1])
  }

  /** Only a text chunk carries content, only a reasoning chunk reasoning, and only a final
      chunk a finish reason. */
  lemma ChunkContents(text: string, tokens: Option<nat>, finish: string)
    ensures ContentOf(TextChunk(text)) == Some(text) && ReasoningOf(TextChunk(text)).None?
    ensures ContentOf(ReasoningChunk(text)).None? && ReasoningOf(ReasoningChunk(text)) == Some(text)
    ensures ContentOf(FinalChunk(tokens, finish)).None? && ReasoningOf(FinalChunk(tokens, finish)).None?
    ensures FinishOf(TextChunk(text)).None? && FinishOf(ReasoningChunk(text)).None?
    ensures FinishOf(FinalChunk(tokens, finish)) == Some(finish)
  {
    var chunk := TextChunk(text);
    assert Item(Field(chunk, "choices"), 0).Obj?;
    var final := FinalChunk(tokens, finish);
    assert Field(final, "choices") == Field(ChunkOf(map[], Str(finish)), "choices");
  }

  /** A chunk is a completion chunk with the one choice of index zero. */
  predicate IsChunk(chunk: Value) {
    && Field(chunk, "object") == Str("chat.completion.chunk")
    && Field(chunk, "choices").Arr? && |Field(chunk, "choices").items| == 1
    && Field(Field(chunk, "choices").items[0], "index") == Num(0)
  }

  lemma ChunksAreChunks(text: string, tokens: Option<nat>, finish: string)
    ensures IsChunk(TextChunk(text)) && IsChunk(ReasoningChunk(text)) && IsChunk(FinalChunk(tokens, finish))
  {
    assert IsChunk(ChunkOf(map[], Str(finish)));
    assert Field(FinalChunk(tokens, finish), "choices") == Field(ChunkOf(map[], Str(finish)), "choices");
    assert Field(FinalChunk(tokens, finish), "object") == Field(ChunkOf(map[], Str(finish)), "object");
  }

  // ------------------------------------------------------------------ stream events

  datatype Translated = Translated(chunk: Option<Value>, done: bool)

  function StopReasonFinish(reason: Option<string>): string {
    if reason == Some("max_tokens") then "length" else "stop"
  }

  /** One Anthropic event; `done` is whether the stream had already ended. */
  function AnthropicEvent(event: Value, done: bool): Translated {
    match AsStr(Field(event, "type"))
    case None => Translated(None, done)
    case Some(kind) =>
      if kind == "content_block_delta" then
        var delta := Field(event, "delta");
        var text, thinking := AsStr(Field(delta, "text")), AsStr(Field(delta, "thinking"));
        Translated(
          if text.Some? then Some(TextChunk(text.value))
          else if thinking.Some? then Some(ReasoningChunk(thinking.value))
          else None,
          done)
      else if kind == "message_delta" then
        Translated(
          Some(FinalChunk(AsU64(Field(Field(event, "usage"), "output_tokens")),
                          StopReasonFinish(AsStr(Field(Field(event, "delta"), "stop_reason"))))),
          done)
      else Translated(None, done || kind == "message_stop")
  }

  /** One Responses-API event. */
  function ResponsesEvent(event: Value, done: bool): Translated {
    match AsStr(Field(event, "type"))
    case None => Translated(None, done)
    case Some(kind) =>
      var delta := AsStr(Field(event, "delta"));
      if kind == "response.output_text.delta" then
        Translated(if delta.Some? then Some(TextChunk(delta.value)) else None, done)
      else if kind == "response.reasoning_summary_text.delta" then
        Translated(if delta.Some? then Some(ReasoningChunk(delta.value)) else None, done)
      else if kind == "response.completed" then
        var usage := Field(Field(event, "response"), "usage");
        Translated(Some(FinalChunk(AsU64(Field(usage, "output_tokens")), "stop")), true)
      else if kind == "response.incomplete" then Translated(Some(FinalChunk(None, "length")), true)
      else if kind == "response.failed" then Translated(Some(FinalChunk(None, "stop")), true)
      else Translated(None, done)
  }

  /** The two stream translators as they act on the text of a data line. */
  type Translator = (string, bool) -> Translated

  function AnthropicStreamEvent(parse: Parser): Translator {
    (data: string, done: bool) =>
      match parse(data)
      case Some(event) => AnthropicEvent(event, done)
      case None => Translated(None, done)
  }

  function ResponsesStreamEvent(parse: Parser): Translator {
    (data: string, done: bool) =>
      if data == "[DONE]" then Translated(None, done)
      else
        match parse(data)
        case Some(event) => ResponsesEvent(event, done)
        case None => Translated(None, done)
  }

  // ------------------------------------------------------------------ whole bodies

  /** The strings found under `field` in the parts of type `kind`, in order. */
  function Texts(parts: seq<Value>, kind: Option<string>, field: string): seq<string> {
    if parts == [] then []
    else
      var rest := Texts(parts[1..], kind, field);
      var text := AsStr(Field(parts[0], field));
      if (kind.None? || Field(parts[0], "type") == Str(kind.value)) && text.Some? then [text.value] + rest else rest
  }

  function Join(pieces: seq<string>, separator: string): string {
    if pieces == [] then ""
    else if |pieces| == 1 then pieces[0]
    else pieces[0] + separator + Join(pieces[1..], separator)
  }

  datatype Reply = Reply(content: string, reasoning: string, finish: string)

  /** What from_anthropic puts in the choice of the completion it returns. */
  function FromAnthropic(body: Value): Reply {
    var blocks := AsArray(Field(body, "content"));
    Reply(
      Join(Texts(blocks, Some("text"), "text"), ""),
      Join(Texts(blocks, Some("thinking"), "thinking"), "\n"),
      StopReasonFinish(AsStr(Field(body, "stop_reason"))))
  }

  /** The parts nested under `field` in the output items of type `kind`, flattened. */
  function Parts(items: seq<Value>, kind: string, field: string): seq<Value> {
    if items == [] then []
    else
      (if Field(items[0], "type") == Str(kind) then AsArray(Field(items[0], field)) else [])
      + Parts(items[1..], kind, field)
  }

  function StatusFinish(status: Option<string>): string {
    if status == Some("incomplete") then "length" else "stop"
  }

  /** What from_responses puts in the choice of the completion it returns. */
  function FromResponses(body: Value): Reply {
    var items := AsArray(Field(body, "output"));
    Reply(
      Join(Texts(Parts(items, "message", "content"), Some("output_text"), "text"), ""),
      Join(Texts(Parts(items, "reasoning", "summary"), None, "text"), "\n"),
      StatusFinish(AsStr(Field(body, "status"))))
  }

  /** A reply is cut short exactly when its upstream says so, in its own words. */
  lemma FinishMeans(body: Value)
    ensures FromAnthropic(body).finish == if Field(body, "stop_reason") == Str("max_tokens") then "length" else "stop"
    ensures FromResponses(body).finish == if Field(body, "status") == Str("incomplete") then "length" else "stop"
  {
  }

  /** A final chunk reports the tokens it is given, and only then any. */
  lemma FinalChunkReports(tokens: Option<nat>, finish: string)
    ensures Field(Field(FinalChunk(tokens, finish), "usage"), "completion_tokens") ==
            if tokens.Some? then Num(tokens.value) else Null
  {
    assert Field(ChunkOf(map[], Str(finish)), "usage") == Null;
  }
}
