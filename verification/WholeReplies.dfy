/**
 What a whole reply says (src/providers/translate.rs, `from_anthropic` and `from_responses`),
 for replies written down block by block.
 */
module WholeReplies {
  import opened Json
  import opened Translate
  import opened StreamAgreement

  /** An object has a field with a value. */
  predicate Has(v: Value, name: string, value: Value) {
    v.Obj? && name in v.fields && v.fields[name] == value
  }

  // ------------------------------------------------------------------ Anthropic

  /** A text block, a thinking block, or a block of any other type. */
  predicate IsBlock(block: Value, part: Part) {
    match part
    case Spoken(text) => Has(block, "type", Str("text")) && Has(block, "text", Str(text))
    case Thought(text) => Has(block, "type", Str("thinking")) && Has(block, "thinking", Str(text))
    case Silent => !Has(block, "type", Str("text")) && !Has(block, "type", Str("thinking"))
  }

  lemma BlockIsPart(block: Value, part: Part)
    requires IsBlock(block, part)
    ensures AnthropicPart(block) == part
  {
  }

  /** The content of an Anthropic reply is its text blocks one after another, its reasoning its
      thinking blocks with line breaks between them. */
  lemma AnthropicReplyIs(body: Value, blocks: seq<Value>, parts: seq<Part>)
    requires Has(body, "content", Arr(blocks)) && |parts| == |blocks|
    requires forall i :: 0 <= i < |blocks| ==> IsBlock(blocks[i], parts[i])
    ensures FromAnthropic(body).content == Join(SpokenTexts(parts), "")
    ensures FromAnthropic(body).reasoning == Join(ThoughtTexts(parts), "\n")
  {
    assert AsArray(Field(body, "content")) == blocks;
    forall i | 0 <= i < |blocks|
      ensures AnthropicPart(blocks[i]) == parts[i]
    {
      BlockIsPart(blocks[i], parts[i]);
    }
    assert AnthropicParts(blocks) == parts;
    AnthropicTexts(blocks);
  }

  // ------------------------------------------------------------------ Responses

  predicate IsOutput(content: Value, part: Part) {
    match part
    case Spoken(text) => Has(content, "type", Str("output_text")) && Has(content, "text", Str(text))
    case Thought(_) => false
    case Silent => !Has(content, "type", Str("output_text"))
  }

  predicate IsSummary(summary: Value, part: Part) {
    match part
    case Spoken(_) => false
    case Thought(text) => Has(summary, "text", Str(text))
    case Silent => !(summary.Obj? && "text" in summary.fields)
  }

  /** The contents of a message, the summaries of a reasoning item, and nothing of any other. */
  predicate IsItem(item: Value, inside: seq<Value>, parts: seq<Part>) {
    && |inside| == |parts|
    && if Has(item, "type", Str("message")) then
         Has(item, "content", Arr(inside)) && forall k :: 0 <= k < |parts| ==> IsOutput(inside[k], parts[k])
       else if Has(item, "type", Str("reasoning")) then
         Has(item, "summary", Arr(inside)) && forall k :: 0 <= k < |parts| ==> IsSummary(inside[k], parts[k])
       else parts == []
  }

  lemma {:induction false} ContentsAreParts(contents: seq<Value>, parts: seq<Part>)
    requires |contents| == |parts| && forall k :: 0 <= k < |parts| ==> IsOutput(contents[k], parts[k])
    ensures MessageParts(contents) == parts
  {
    if parts != [] {
      assert IsOutput(contents[0], parts[0]);
      ContentsAreParts(contents[1..], parts[1..]);
      assert parts == [parts[0]] + parts[1..];
    }
  }

  lemma {:induction false} SummariesAreParts(summaries: seq<Value>, parts: seq<Part>)
    requires |summaries| == |parts| && forall k :: 0 <= k < |parts| ==> IsSummary(summaries[k], parts[k])
    ensures SummaryParts(summaries) == parts
  {
    if parts != [] {
      assert IsSummary(summaries[0], parts[0]);
      SummariesAreParts(summaries[1..], parts[1..]);
      assert parts == [parts[0]] + parts[1..];
    }
  }

  lemma ItemIsParts(item: Value, inside: seq<Value>, parts: seq<Part>)
    requires IsItem(item, inside, parts)
    ensures ItemParts(item) == parts
  {
    if Has(item, "type", Str("message")) {
      ContentsAreParts(inside, parts);
    } else if Has(item, "type", Str("reasoning")) {
      SummariesAreParts(inside, parts);
    }
  }

  function AllParts(parts: seq<seq<Part>>): seq<Part> {
    if parts == [] then [] else parts[0] + AllParts(parts[1..])
  }

  lemma {:induction false} ItemsAreParts(items: seq<Value>, insides: seq<seq<Value>>, parts: seq<seq<Part>>)
    requires |items| == |insides| == |parts|
    requires forall i :: 0 <= i < |items| ==> IsItem(items[i], insides[i], parts[i])
    ensures ResponsesParts(items) == AllParts(parts)
  {
    if items != [] {
      ItemIsParts(items[0], insides[0], parts[0]);
      ItemsAreParts(items[1..], insides[1..], parts[1..]);
    }
  }

  /** The content of a Responses reply is the output texts of its messages one after another, its
      reasoning the summaries of its reasoning items with line breaks between them. */
  lemma ResponsesReplyIs(body: Value, items: seq<Value>, insides: seq<seq<Value>>, parts: seq<seq<Part>>)
    requires Has(body, "output", Arr(items)) && |items| == |insides| == |parts|
    requires forall i :: 0 <= i < |items| ==> IsItem(items[i], insides[i], parts[i])
    ensures FromResponses(body).content == Join(SpokenTexts(AllParts(parts)), "")
    ensures FromResponses(body).reasoning == Join(ThoughtTexts(AllParts(parts)), "\n")
  {
    assert AsArray(Field(body, "output")) == items;
    ItemsAreParts(items, insides, parts);
    ResponsesTexts(items);
  }

  // ------------------------------------------------------------------ what the last event reports

  /** What the final chunk says of the tokens: the number given, if it is one of 64 bits. */
  predicate Reports(t: Translated, tokens: Value) {
    && t.chunk.Some?
    && Field(Field(t.chunk.value, "usage"), "completion_tokens") ==
       if tokens.Num? && 0 <= tokens.number < 0x1_0000_0000_0000_0000 then tokens else Null
  }

  lemma AnthropicReports(event: Value, usage: Value, tokens: Value, done: bool)
    requires Has(event, "type", Str("message_delta")) && Has(event, "usage", usage) && Has(usage, "output_tokens", tokens)
    ensures Reports(AnthropicEvent(event, done), tokens)
  {
    FinalChunkReports(AsU64(tokens), StopReasonFinish(AsStr(Field(Field(event, "delta"), "stop_reason"))));
  }

  lemma ResponsesReports(event: Value, response: Value, usage: Value, tokens: Value, done: bool)
    requires Has(event, "type", Str("response.completed")) && Has(event, "response", response)
    requires Has(response, "usage", usage) && Has(usage, "output_tokens", tokens)
    ensures Reports(ResponsesEvent(event, done), tokens)
  {
    FinalChunkReports(AsU64(tokens), "stop");
  }
}
