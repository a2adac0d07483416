/**
 A streaming client of the Responses endpoint: the gateway prints its translated chunks as
 SSE frames and re-reads those frames to emit Responses-API events (src/api/v1.rs). What
 the client gets is exactly the upstream's text deltas between one opening and one closing
 event. The JSON text form is a parameter: any printer without line breaks and a parser
 that reads it back.
 */
module ResponsesRelay {
  import opened Wrappers
  import opened Json
  import opened Translate
  import opened Sequences
  import opened Sse
  import opened SseChunking

  datatype Event = Created | OutputTextDelta(text: string) | Completed

  const DONE: string := "[DONE]"

  /** The re-reading loop's treatment of one payload: it never ends the stream itself. */
  function Relaying(parse: Parser): Handler<Event> {
    (data: string, tally: Tally) =>
      if data == DONE then Handled(tally, [Completed])
      else
        var content := if parse(data).Some? then ContentOf(parse(data).value) else None;
        Handled(tally, if content.Some? then [OutputTextDelta(content.value)] else [])
  }

  /** The re-reading loop over a translated body; it does not touch line ends, and stops
      silently at an oversized event. */
  method TranslateResponseStream(chunks: seq<Piece>, parse: Parser) returns (events: seq<Event>, stopped: bool)
    ensures var st := FeedAll(chunks, false, Relaying(parse));
            events == [Created] + st.out && stopped == st.failed
  {
    var sent: seq<Event> := [];
    stopped := false;
    var pending := "";
    var i := 0;
    while i < |chunks|
      invariant 0 <= i <= |chunks|
      invariant FeedAll(chunks[..i], false, Relaying(parse)) == Stream(pending, START, sent, stopped)
    {
      assert chunks[..i + 1][..i] == chunks[..i];
      if stopped {
      } else if chunks[i].Broken? || ByteLen(pending + chunks[i].text) > MAX_SSE_EVENT_BYTES {
        stopped := true;
      } else {
        var relayed, same;
        RelayKeepsTally(pending + chunks[i].text, parse);
        pending, same, relayed := DrainEvents(pending + chunks[i].text, START, Relaying(parse));
        sent := sent + relayed;
      }
      i := i + 1;
    }
    assert chunks[..i] == chunks;
    events := [Created] + sent;
  }

  lemma {:induction false} RelayKeepsLines(lines: seq<string>, parse: Parser, tally: Tally)
    ensures HandleLines(lines, tally, Relaying(parse)).tally == tally
  {
    if lines != [] {
      RelayKeepsLines(lines[1..], parse, tally);
    }
  }

  lemma {:induction false} RelayKeepsTally(pending: string, parse: Parser)
    ensures Drain(pending, START, Relaying(parse)).tally == START
    decreases |pending|
  {
    var end := EventEnd(pending);
    if end != -1 {
      RelayKeepsLines(Lines(pending[..end]), parse, START);
      RelayKeepsTally(pending[end + 2..], parse);
    }
  }

  // ------------------------------------------------------------------ frames

  /** The printer writes no line breaks, the parser reads back what it wrote, and the closing
      marker is not JSON. */
  ghost predicate Codec(parse: Parser, print_: Printer) {
    && (forall v :: parse(print_(v)) == Some(v))
    && (forall v, i :: 0 <= i < |print_(v)| ==> print_(v)[i] != '\n' && print_(v)[i] != '\r')
    && parse(DONE).None?
  }

  function Frame(payload: string): string {
    DATA_PREFIX + payload + "\n\n"
  }

  /** The translated stream as it is sent: one frame per chunk, and the closing frame. */
  function Printed(values: seq<Value>, print_: Printer): string {
    if values == [] then Frame(DONE) else Frame(print_(values[0])) + Printed(values[1..], print_)
  }

  function AsEvents(texts: seq<string>): seq<Event> {
    seq(|texts|, i requires 0 <= i < |texts| => OutputTextDelta(texts[i]))
  }

  predicate OneLine(s: string) {
    forall i :: 0 <= i < |s| ==> s[i] != '\n' && s[i] != '\r'
  }

  lemma {:induction false} LineEndOfOneLine(s: string)
    requires forall i :: 0 <= i < |s| ==> s[i] != '\n'
    ensures LineEnd(s) == |s|
  {
  }

  /** A frame is one event whose only line is its data line. */
  lemma FrameIsOneEvent(payload: string)
    requires OneLine(payload)
    ensures IsEvent(Frame(payload))
    ensures Lines(Frame(payload)[..|Frame(payload)| - 2]) == [DATA_PREFIX + payload]
    ensures DataOf(DATA_PREFIX + payload) == Some(payload)
  {
    var frame, line := Frame(payload), DATA_PREFIX + payload;
    EventEndIsFirst(frame);
    assert frame[..|frame| - 2] == line;
    assert forall i :: 0 <= i < |line| ==> frame[i] == line[i] && line[i] != '\n';
    assert BlankLineAt(frame, |line|);
    LineEndOfOneLine(line);
    assert line[|DATA_PREFIX|..] == payload;
  }

  /** Re-reading a frame hands over its payload and goes on behind it. */
  lemma DrainFrame(payload: string, w: string, parse: Parser)
    requires OneLine(payload)
    ensures Drain(Frame(payload) + w, START, Relaying(parse))
            == Then(Relaying(parse)(payload, START).out, Drain(w, START, Relaying(parse)))
  {
    FrameIsOneEvent(payload);
    DrainEvent(Frame(payload), w, START, Relaying(parse));
    var lines := [DATA_PREFIX + payload];
    assert lines[1..] == [];
    assert HandleLines(lines, START, Relaying(parse)).out == Relaying(parse)(payload, START).out;
  }

  lemma AsEventsAppend(a: seq<string>, b: seq<string>)
    ensures AsEvents(a + b) == AsEvents(a) + AsEvents(b)
  {
  }

  lemma RelayOfChunk(v: Value, parse: Parser, print_: Printer)
    requires Codec(parse, print_)
    ensures OneLine(print_(v))
    ensures Relaying(parse)(print_(v), START).out
            == AsEvents(if ContentOf(v).Some? then [ContentOf(v).value] else [])
  {
  }

  lemma {:induction false} DrainPrinted(values: seq<Value>, parse: Parser, print_: Printer)
    requires Codec(parse, print_)
    ensures Drain(Printed(values, print_), START, Relaying(parse))
            == Drained("", START, AsEvents(Contents(values)) + [Completed])
  {
    if values == [] {
      DrainFrame(DONE, "", parse);
      assert Frame(DONE) + "" == Frame(DONE);
      assert AsEvents([]) + [Completed] == [Completed];
    } else {
      var v, rest := values[0], values[1..];
      DrainPrinted(rest, parse, print_);
      RelayOfChunk(v, parse, print_);
      DrainFrame(print_(v), Printed(rest, print_), parse);
      var own := if ContentOf(v).Some? then [ContentOf(v).value] else [];
      AsEventsAppend(own, Contents(rest));
      Associative(AsEvents(own), AsEvents(Contents(rest)), [Completed]);
    }
  }

  // ------------------------------------------------------------------ re-reading any cut

  lemma {:induction false} PlainLoopDrainsTheWhole(texts: seq<string>, parse: Parser)
    requires !FeedAll(AsPieces(texts), false, Relaying(parse)).failed
    ensures var st := FeedAll(AsPieces(texts), false, Relaying(parse));
            var d := Drain(Concat(texts), START, Relaying(parse));
            st.tally == START && st.out == d.out && st.pending == d.rest
  {
    if texts == [] {
      return;
    }
    var before, y := texts[..|texts| - 1], texts[|texts| - 1];
    var t := Concat(before);
    assert AsPieces(texts)[..|texts| - 1] == AsPieces(before);
    PlainLoopDrainsTheWhole(before, parse);
    RelayKeepsTally(t, parse);
    var d := Drain(t, START, Relaying(parse));
    DrainResumes(t, START, Relaying(parse), d.rest + y);
    Associative(Consumed(t, d), d.rest, y);
    RelayKeepsTally(d.rest + y, parse);
  }

  /** However the printed stream is cut into chunks, re-reading it yields the opening event,
      one delta for each chunk that carries text, in order, and one closing event. */
  lemma RelayOfPrinted(values: seq<Value>, texts: seq<string>, parse: Parser, print_: Printer)
    requires Codec(parse, print_) && Concat(texts) == Printed(values, print_)
    requires !FeedAll(AsPieces(texts), false, Relaying(parse)).failed
    ensures [Created] + FeedAll(AsPieces(texts), false, Relaying(parse)).out
            == [Created] + AsEvents(Contents(values)) + [Completed]
  {
    PlainLoopDrainsTheWhole(texts, parse);
    DrainPrinted(values, parse, print_);
    Associative([Created], AsEvents(Contents(values)), [Completed]);
  }

  // ------------------------------------------------------------------ from the upstream on

  predicate Terminates(event: Value) {
    var kind := AsStr(Field(event, "type"));
    kind == Some("response.completed") || kind == Some("response.incomplete") || kind == Some("response.failed")
  }

  /** The text an upstream Responses event adds to the answer. */
  function OutputText(event: Value): Option<string> {
    if AsStr(Field(event, "type")) == Some("response.output_text.delta") then AsStr(Field(event, "delta")) else None
  }

  /** Collects the upstream's text deltas up to the event that ends its stream. */
  function Collecting(parse: Parser): Handler<string> {
    (data: string, tally: Tally) =>
      var event := if data == DONE then None else parse(data);
      var text := if event.Some? then OutputText(event.value) else None;
      Handled(Tally(tally.done || (event.Some? && Terminates(event.value)), 0, 0),
              if text.Some? then [text.value] else [])
  }

  function Responses(parse: Parser): Handler<Value> {
    Translating(parse, ResponsesStreamEvent(parse))
  }

  /** On each payload the translation carries exactly the collected text, and ends the stream
      exactly when the collection does. */
  lemma PayloadAgrees(data: string, t: Tally, c: Tally, parse: Parser)
    requires t.done == c.done
    ensures var h, k := Responses(parse)(data, t), Collecting(parse)(data, c);
            h.tally.done == k.tally.done && Contents(h.out) == k.out
  {
    if data != DONE && parse(data).Some? {
      TranslationCarries(parse(data).value, t.done);
      var chunk := ResponsesEvent(parse(data).value, t.done).chunk;
      if chunk.Some? {
        PickedOne(chunk.value, ContentOf);
      }
    }
  }

  lemma TranslationCarries(event: Value, done: bool)
    ensures var r := ResponsesEvent(event, done);
            && (if r.chunk.Some? then ContentOf(r.chunk.value) else None) == OutputText(event)
            && r.done == (done || Terminates(event))
  {
    var kind := AsStr(Field(event, "type"));
    if kind.None? {
    } else if kind.value == "response.output_text.delta" || kind.value == "response.reasoning_summary_text.delta" {
      var delta := AsStr(Field(event, "delta"));
      if delta.Some? {
        ChunkContents(delta.value, None, "");
      }
    } else if kind.value == "response.completed" {
      ChunkContents("", AsU64(Field(Field(Field(event, "response"), "usage"), "output_tokens")), "stop");
    } else if kind.value == "response.incomplete" {
      ChunkContents("", None, "length");
    } else {
      ChunkContents("", None, "stop");
    }
  }

  lemma {:induction false} LinesAgree(lines: seq<string>, t: Tally, c: Tally, parse: Parser)
    requires t.done == c.done
    ensures var h, k := HandleLines(lines, t, Responses(parse)), HandleLines(lines, c, Collecting(parse));
            h.tally.done == k.tally.done && Contents(h.out) == k.out
  {
    if lines != [] {
      var data := DataOf(lines[0]);
      if data.Some? {
        PayloadAgrees(data.value, t, c, parse);
        var h, k := Responses(parse)(data.value, t), Collecting(parse)(data.value, c);
        LinesAgree(lines[1..], h.tally, k.tally, parse);
        PickedAppend(h.out, HandleLines(lines[1..], h.tally, Responses(parse)).out, ContentOf);
      } else {
        LinesAgree(lines[1..], t, c, parse);
      }
    }
  }

  lemma {:induction false} DrainsAgree(pending: string, t: Tally, c: Tally, parse: Parser)
    requires t.done == c.done
    ensures var d, e := Drain(pending, t, Responses(parse)), Drain(pending, c, Collecting(parse));
            d.rest == e.rest && d.tally.done == e.tally.done && Contents(d.out) == e.out
    decreases |pending|
  {
    var end := EventEnd(pending);
    if end != -1 {
      var lines := Lines(pending[..end]);
      LinesAgree(lines, t, c, parse);
      var h, k := HandleLines(lines, t, Responses(parse)), HandleLines(lines, c, Collecting(parse));
      DrainsAgree(pending[end + 2..], h.tally, k.tally, parse);
      PickedAppend(h.out, Drain(pending[end + 2..], h.tally, Responses(parse)).out, ContentOf);
    }
  }

  lemma {:induction false} StreamsAgree(chunks: seq<Piece>, parse: Parser)
    ensures var st, co := FeedAll(chunks, true, Responses(parse)), FeedAll(chunks, true, Collecting(parse));
            && st.pending == co.pending && st.failed == co.failed
            && st.tally.done == co.tally.done && Contents(st.out) == co.out
  {
    if chunks != [] {
      var before, chunk := chunks[..|chunks| - 1], chunks[|chunks| - 1];
      StreamsAgree(before, parse);
      var st, co := FeedAll(before, true, Responses(parse)), FeedAll(before, true, Collecting(parse));
      if !st.tally.done && !st.failed && chunk.Text? {
        var pending := Normalize(st.pending + chunk.text);
        DrainsAgree(pending, st.tally, co.tally, parse);
        PickedAppend(st.out, Drain(pending, st.tally, Responses(parse)).out, ContentOf);
      }
    }
  }

  /** End to end: whatever text the upstream sends, in whatever chunks, and however the gateway's own stream is
      cut, the client receives the opening event, exactly the upstream's text deltas up to
      the event that ended its stream, in order, and exactly one closing event. */
  lemma ClientGetsUpstreamDeltas(upstream: seq<Piece>, texts: seq<string>, parse: Parser, print_: Printer)
    requires Codec(parse, print_) && Broken !in upstream
    requires Concat(texts) == Printed(FeedAll(upstream, true, Responses(parse)).out, print_)
    requires !FeedAll(AsPieces(texts), false, Relaying(parse)).failed
    ensures [Created] + FeedAll(AsPieces(texts), false, Relaying(parse)).out
            == [Created] + AsEvents(FeedAll(upstream, true, Collecting(parse)).out) + [Completed]
  {
    StreamsAgree(upstream, parse);
    RelayOfPrinted(FeedAll(upstream, true, Responses(parse)).out, texts, parse, print_);
  }
}
