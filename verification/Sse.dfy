/**
 The server-sent-events loops of src/api/v1.rs: reading an upstream stream chunk by chunk
 and translating its events, and re-reading the translated stream as Responses-API events.
 Chunks arrive already decoded, cut at code-point boundaries.
 */
module Sse {
  import opened Wrappers
  import opened Json
  import opened Translate
  import opened Sequences

  const MAX_SSE_EVENT_BYTES: nat := 1024 * 1024

  /** One item of a body stream: text, or a transport error. */
  datatype Piece = Text(text: string) | Broken

  // ------------------------------------------------------------------ text

  predicate CrLfAt(s: string, i: int) {
    0 <= i < |s| - 1 && s[i] == '\r' && s[i + 1] == '\n'
  }

  /** How many characters the scan replaces next, and by what. */
  function Skip(s: string): (k: nat)
    requires s != ""
    ensures 1 <= k <= |s|
  {
    if CrLfAt(s, 0) then 2 else 1
  }

  function HeadChar(s: string): char
    requires s != ""
  {
    if CrLfAt(s, 0) then '\n' else s[0]
  }

  /** Every CR LF replaced by LF, scanning once from the left. */
  function Normalize(s: string): string {
    if s == "" then "" else [HeadChar(s)] + Normalize(s[Skip(s)..])
  }

  lemma NormalizeStep(s: string, rest: string)
    requires s != "" && rest == s[Skip(s)..]
    ensures Normalize(s) == [HeadChar(s)] + Normalize(rest)
  {
  }

  predicate BlankLineAt(s: string, i: int) {
    0 <= i < |s| - 1 && s[i] == '\n' && s[i + 1] == '\n'
  }

  /** The position of the first LF LF, or -1. */
  function EventEnd(s: string): (end: int)
    ensures end == -1 || 0 <= end <= |s| - 2
  {
    if |s| < 2 then -1
    else if BlankLineAt(s, 0) then 0
    else
      var end := EventEnd(s[1..]);
      if end == -1 then -1 else end + 1
  }

  lemma {:induction false} EventEndIsFirst(s: string)
    ensures EventEnd(s) != -1 ==> BlankLineAt(s, EventEnd(s))
    ensures forall i :: BlankLineAt(s, i) ==> 0 <= EventEnd(s) <= i
  {
    if |s| >= 2 {
      EventEndIsFirst(s[1..]);
      assert forall i :: BlankLineAt(s, i) ==> i == 0 || BlankLineAt(s[1..], i - 1);
    }
  }

  function LineEnd(s: string): (end: nat)
    ensures end <= |s|
    ensures end < |s| ==> s[end] == '\n'
    ensures forall i :: 0 <= i < end ==> s[i] != '\n'
  {
    if s == "" || s[0] == '\n' then 0 else 1 + LineEnd(s[1..])
  }

  function ChopCr(line: string): string {
    if line != "" && line[|line| - 1] == '\r' then line[..|line| - 1] else line
  }

  /** The lines of a text: an empty last line is no line, and one CR before the LF is dropped. */
  function Lines(s: string): seq<string> {
    if s == "" then []
    else
      var end := LineEnd(s);
      if end == |s| then [s] else [ChopCr(s[..end])] + Lines(s[end + 1..])
  }

  /** Lines written down one after another, each with its line end. */
  function Written(lines: seq<string>, ending: string): string {
    if lines == [] then "" else lines[0] + (ending + Written(lines[1..], ending))
  }

  /** A text without a line end in it, nor a CR that would be taken for part of one. */
  predicate IsLine(line: string) {
    '\n' !in line && (line != "" ==> line[|line| - 1] != '\r')
  }

  lemma LinesStep(s: string, end: nat)
    requires end < |s| && end == LineEnd(s)
    ensures Lines(s) == [ChopCr(s[..end])] + Lines(s[end + 1..])
  {
  }

  lemma LineIsCut(line: string, ending: string, rest: string, s: string, end: nat)
    requires ending in {"\n", "\r\n"} && s == line + (ending + rest) && end == |line| + |ending| - 1
    ensures end < |s| && s[end] == '\n' && s[..end] == line + ending[..|ending| - 1] && s[end + 1..] == rest
  {
  }

  lemma CrIsDropped(line: string, ending: string)
    requires IsLine(line) && ending in {"\n", "\r\n"}
    ensures '\n' !in line + ending[..|ending| - 1] && ChopCr(line + ending[..|ending| - 1]) == line
  {
  }

  lemma FirstLineRead(line: string, ending: string, rest: string)
    requires IsLine(line) && ending in {"\n", "\r\n"}
    ensures Lines(line + (ending + rest)) == [line] + Lines(rest)
  {
    var s := line + (ending + rest);
    var end := |line| + |ending| - 1;
    LineIsCut(line, ending, rest, s, end);
    CrIsDropped(line, ending);
    LineEndIs(s, end);
    LinesStep(s, end);
  }

  lemma {:induction false} LineEndIs(s: string, end: nat)
    requires end < |s| && s[end] == '\n' && '\n' !in s[..end]
    ensures LineEnd(s) == end
  {
    assert forall i :: 0 <= i < end ==> s[i] == s[..end][i];
  }

  lemma LastLineRead(last: string)
    requires '\n' !in last
    ensures Lines(last) == if last == "" then [] else [last]
  {
  }

  lemma Reassociate(line: string, ending: string, rest: string, last: string)
    ensures (line + (ending + rest)) + last == line + (ending + (rest + last))
  {
  }

  lemma OneMoreLine(lines: seq<string>, others: seq<string>, all: seq<string>, rest: seq<string>)
    requires lines != [] && rest == lines[1..] + others && all == [lines[0]] + rest
    ensures all == lines + others
  {
  }

  lemma WrittenStep(lines: seq<string>, ending: string, last: string, rest: string)
    requires lines != [] && rest == Written(lines[1..], ending) + last
    ensures Written(lines, ending) + last == lines[0] + (ending + rest)
  {
    Reassociate(lines[0], ending, Written(lines[1..], ending), last);
  }

  /** Lines are read as they were written, with either line end; the last may lack one. */
  lemma {:induction false} LinesReadBack(lines: seq<string>, ending: string, last: string)
    requires ending in {"\n", "\r\n"} && '\n' !in last && forall line :: line in lines ==> IsLine(line)
    ensures Lines(Written(lines, ending) + last) == lines + if last == "" then [] else [last]
  {
    if lines == [] {
      LastLineRead(last);
      assert Written(lines, ending) + last == last;
    } else {
      var rest := Written(lines[1..], ending) + last;
      LinesReadBack(lines[1..], ending, last);
      WrittenStep(lines, ending, last, rest);
      FirstLineRead(lines[0], ending, rest);
      OneMoreLine(lines, if last == "" then [] else [last], Lines(Written(lines, ending) + last), Lines(rest));
    }
  }

  const DATA_PREFIX: string := "data: "

  /** The payload of a data line. */
  function DataOf(line: string): Option<string> {
    if DATA_PREFIX <= line then Some(line[|DATA_PREFIX|..]) else None
  }

  /** A data line is `data: ` and its payload. */
  lemma DataLineMeans(line: string, payload: string)
    ensures DataOf(line) == Some(payload) <==> line == "data: " + payload
  {
    if DATA_PREFIX <= line {
      assert line == DATA_PREFIX + line[|DATA_PREFIX|..];
    }
  }

  function Utf8Len(c: char): nat {
    var n := c as int;
    if n < 0x80 then 1 else if n < 0x800 then 2 else if n < 0x10000 then 3 else 4
  }

  function ByteLen(s: string): nat {
    if s == "" then 0 else ByteLen(s[..|s| - 1]) + Utf8Len(s[|s| - 1])
  }

  // ------------------------------------------------------------------ events

  /** What a stream loop carries across data lines. */
  datatype Tally = Tally(done: bool, prompt: int, completion: int)

  const START: Tally := Tally(false, 0, 0)

  datatype Handled<T> = Handled(tally: Tally, out: seq<T>)

  /** What a loop does with the payload of one data line. */
  type Handler<!T> = (string, Tally) -> Handled<T>

  function HandleLines<T>(lines: seq<string>, tally: Tally, handle: Handler<T>): Handled<T> {
    if lines == [] then Handled(tally, [])
    else
      match DataOf(lines[0])
      case None => HandleLines(lines[1..], tally, handle)
      case Some(data) =>
        var first := handle(data, tally);
        var rest := HandleLines(lines[1..], first.tally, handle);
        Handled(rest.tally, first.out + rest.out)
  }

  datatype Drained<T> = Drained(rest: string, tally: Tally, out: seq<T>)

  /** Consume the complete events at the front of the buffer, up to one that ends the stream. */
  function Drain<T>(pending: string, tally: Tally, handle: Handler<T>): Drained<T>
    decreases |pending|
  {
    var end := EventEnd(pending);
    if end == -1 then Drained(pending, tally, [])
    else
      var h := HandleLines(Lines(pending[..end]), tally, handle);
      if h.tally.done then Drained(pending[end + 2..], h.tally, h.out)
      else
        var d := Drain(pending[end + 2..], h.tally, handle);
        Drained(d.rest, d.tally, h.out + d.out)
  }

  // ------------------------------------------------------------------ the stream loop

  datatype Stream<T> = Stream(pending: string, tally: Tally, out: seq<T>, failed: bool)

  function Opened<T>(): Stream<T> {
    Stream("", START, [], false)
  }

  /** One chunk of a loop that normalizes line ends when `crlf` is set; a loop that is done or
      has failed reads no further. */
  function Feed<T>(st: Stream<T>, chunk: Piece, crlf: bool, handle: Handler<T>): Stream<T> {
    if st.tally.done || st.failed then st
    else if chunk.Broken? || ByteLen(st.pending + chunk.text) > MAX_SSE_EVENT_BYTES then st.(failed := true)
    else
      var pending := st.pending + chunk.text;
      var d := Drain(if crlf then Normalize(pending) else pending, st.tally, handle);
      Stream(d.rest, d.tally, st.out + d.out, false)
  }

  function FeedAll<T>(chunks: seq<Piece>, crlf: bool, handle: Handler<T>): Stream<T> {
    if chunks == [] then Opened()
    else Feed(FeedAll(chunks[..|chunks| - 1], crlf, handle), chunks[|chunks| - 1], crlf, handle)
  }

  // ------------------------------------------------------------------ usage

  /** Token counts of a payload, under whichever of the known names it uses. */
  function UsageFromPayload(payload: Value): (int, int) {
    var found := OrElse(Get(payload, "usage"),
                 OrElse(Get(payload, "usageMetadata"),
                        if Get(payload, "response").Some? then Get(Field(payload, "response"), "usage") else None));
    var usage := OrDefault(found, payload);
    (OrDefault(OrElse(AsI64(Field(usage, "prompt_tokens")),
               OrElse(AsI64(Field(usage, "input_tokens")), AsI64(Field(usage, "promptTokenCount")))), 0),
     OrDefault(OrElse(AsI64(Field(usage, "completion_tokens")),
               OrElse(AsI64(Field(usage, "output_tokens")), AsI64(Field(usage, "candidatesTokenCount")))), 0))
  }

  function StreamUsage(parse: Parser, data: string): (int, int) {
    match parse(data)
    case Some(payload) => UsageFromPayload(payload)
    case None => (0, 0)
  }

  function Max(a: int, b: int): int {
    if a >= b then a else b
  }

  /** Where a payload keeps its usage: under the first of these names it has, or in itself. */
  predicate KeepsUsageIn(payload: Value, usage: Value) {
    if payload.Obj? && "usage" in payload.fields then usage == payload.fields["usage"]
    else if payload.Obj? && "usageMetadata" in payload.fields then usage == payload.fields["usageMetadata"]
    else if payload.Obj? && "response" in payload.fields && payload.fields["response"].Obj?
            && "usage" in payload.fields["response"].fields then
      usage == payload.fields["response"].fields["usage"]
    else usage == payload
  }

  /** A signed 64-bit number stands under a name. */
  predicate Holds(usage: Value, name: string, n: int) {
    usage.Obj? && name in usage.fields && usage.fields[name] == Num(n)
    && -0x8000_0000_0000_0000 <= n < 0x8000_0000_0000_0000
  }

  ghost predicate HoldsNone(usage: Value, name: string) {
    forall n :: !Holds(usage, name, n)
  }

  /** A count is what the first of its three names holds, or zero. */
  ghost predicate CountedAs(usage: Value, first: string, second: string, third: string, n: int) {
    || Holds(usage, first, n)
    || (HoldsNone(usage, first) && Holds(usage, second, n))
    || (HoldsNone(usage, first) && HoldsNone(usage, second) && Holds(usage, third, n))
    || (HoldsNone(usage, first) && HoldsNone(usage, second) && HoldsNone(usage, third) && n == 0)
  }

  lemma HeldAsRead(usage: Value, name: string)
    ensures var read := AsI64(Field(usage, name));
            if read.Some? then Holds(usage, name, read.value) else HoldsNone(usage, name)
  {
  }

  /** The prompt tokens of a payload come first, the completion tokens second, each under the
      names that the different upstreams use. */
  lemma UsageIsRead(payload: Value, usage: Value)
    requires KeepsUsageIn(payload, usage)
    ensures CountedAs(usage, "prompt_tokens", "input_tokens", "promptTokenCount", UsageFromPayload(payload).0)
    ensures CountedAs(usage, "completion_tokens", "output_tokens", "candidatesTokenCount", UsageFromPayload(payload).1)
  {
    HeldAsRead(usage, "prompt_tokens");
    HeldAsRead(usage, "input_tokens");
    HeldAsRead(usage, "promptTokenCount");
    HeldAsRead(usage, "completion_tokens");
    HeldAsRead(usage, "output_tokens");
    HeldAsRead(usage, "candidatesTokenCount");
  }

  /** The translating loop's treatment of one payload. */
  function Translating(parse: Parser, translate: Translator): Handler<Value> {
    (data: string, tally: Tally) =>
      var (prompt, completion) := StreamUsage(parse, data);
      var t := translate(data, tally.done);
      Handled(
        Tally(t.done, Max(tally.prompt, prompt), Max(tally.completion, completion)),
        if t.chunk.Some? then [t.chunk.value] else [])
  }

  // ------------------------------------------------------------------ the loops as they run

  /** Replace CR LF by LF in place. */
  method ReplaceCrLf(s: string) returns (r: string)
    ensures r == Normalize(s)
  {
    r := "";
    var i := 0;
    while i < |s|
      invariant 0 <= i <= |s|
      invariant r + Normalize(s[i..]) == Normalize(s)
    {
      var k, c := 1, s[i];
      if i + 1 < |s| && s[i] == '\r' && s[i + 1] == '\n' {
        k, c := 2, '\n';
      }
      assert s[i..][k..] == s[i + k..];
      NormalizeStep(s[i..], s[i + k..]);
      Associative(r, [c], Normalize(s[i + k..]));
      r := r + [c];
      i := i + k;
    }
  }

  /** The translating loop over an upstream body: the chunks it yields, what it logs, and
      whether it gave up on a transport error or an oversized event. */
  method TranslateStream(chunks: seq<Piece>, parse: Parser, translate: Translator)
    returns (out: seq<Value>, tally: Tally, failed: bool)
    ensures var st := FeedAll(chunks, true, Translating(parse, translate));
            out == st.out && tally == st.tally && failed == st.failed
  {
    var handle := Translating(parse, translate);
    var pending := "";
    out, tally, failed := [], START, false;
    var i := 0;
    while i < |chunks|
      invariant 0 <= i <= |chunks|
      invariant FeedAll(chunks[..i], true, handle) == Stream(pending, tally, out, failed)
    {
      assert chunks[..i + 1][..i] == chunks[..i];
      if tally.done || failed {
      } else if chunks[i].Broken? || ByteLen(pending + chunks[i].text) > MAX_SSE_EVENT_BYTES {
        failed := true;
      } else {
        pending := ReplaceCrLf(pending + chunks[i].text);
        var drained;
        pending, tally, drained := DrainEvents(pending, tally, handle);
        out := out + drained;
      }
      i := i + 1;
    }
    assert chunks[..i] == chunks;
  }

  lemma DrainOne<T>(pending: string, tally: Tally, handle: Handler<T>, end: int, event: Handled<T>)
    requires end == EventEnd(pending) != -1 && event == HandleLines(Lines(pending[..end]), tally, handle)
    ensures var d := Drain(pending[end + 2..], event.tally, handle);
            Drain(pending, tally, handle) ==
            if event.tally.done then Drained(pending[end + 2..], event.tally, event.out)
            else Drained(d.rest, d.tally, event.out + d.out)
  {
  }

  method DrainEvents<T>(buffer: string, begun: Tally, handle: Handler<T>)
    returns (pending: string, tally: Tally, out: seq<T>)
    ensures Drain(buffer, begun, handle) == Drained(pending, tally, out)
  {
    pending, tally, out := buffer, begun, [];
    var end := EventEnd(pending);
    var stop := false;
    while !stop && end != -1
      invariant end == EventEnd(pending)
      invariant var d := if stop then Drained(pending, tally, []) else Drain(pending, tally, handle);
                Drain(buffer, begun, handle) == Drained(d.rest, d.tally, out + d.out)
      decreases !stop, |pending|
    {
      var event := HandleEvent(pending[..end], tally, handle);
      DrainOne(pending, tally, handle, end, event);
      if !event.tally.done {
        Associative(out, event.out, Drain(pending[end + 2..], event.tally, handle).out);
      }
      pending, tally, out := pending[end + 2..], event.tally, out + event.out;
      stop := tally.done;
      end := EventEnd(pending);
    }
  }

  method HandleEvent<T>(event: string, begun: Tally, handle: Handler<T>) returns (h: Handled<T>)
    ensures h == HandleLines(Lines(event), begun, handle)
  {
    var lines := Lines(event);
    h := Handled(begun, []);
    var i := 0;
    while i < |lines|
      invariant 0 <= i <= |lines|
      invariant var rest := HandleLines(lines[i..], h.tally, handle);
                HandleLines(lines, begun, handle) == Handled(rest.tally, h.out + rest.out)
    {
      assert lines[i..][1..] == lines[i + 1..];
      var data := DataOf(lines[i]);
      if data.Some? {
        var first := handle(data.value, h.tally);
        h := Handled(first.tally, h.out + first.out);
      }
      i := i + 1;
    }
  }
}
