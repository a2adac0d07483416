/**
 When a stream loop gives up (src/api/v1.rs): on a transport error, and on a buffer of more
 than a mebibyte, counted in the bytes of its UTF-8 form; and on nothing else.
 */
module SseLimits {
  import opened Sse
  import opened SseChunking

  // ------------------------------------------------------------------ bytes

  lemma {:induction false} BytesAdd(a: string, b: string)
    ensures ByteLen(a + b) == ByteLen(a) + ByteLen(b)
  {
    if b == "" {
      assert a + b == a;
    } else {
      assert (a + b)[..|a + b| - 1] == a + b[..|b| - 1];
      BytesAdd(a, b[..|b| - 1]);
    }
  }

  /** One to four bytes a character, by its code point (section 3 of RFC 3629). */
  lemma BytesOfOne(c: char)
    ensures ByteLen([c]) ==
            if c as int <= 0x7F then 1 else if c as int <= 0x7FF then 2 else if c as int <= 0xFFFF then 3 else 4
  {
    assert [c][..0] == "";
  }

  lemma {:induction false} NormalizedIsNotLonger(s: string)
    ensures ByteLen(Normalize(s)) <= ByteLen(s)
  {
    if s != "" {
      var k := Skip(s);
      assert s == s[..k] + s[k..];
      BytesAdd(s[..k], s[k..]);
      BytesAdd([HeadChar(s)], Normalize(s[k..]));
      NormalizedIsNotLonger(s[k..]);
      HeadIsNotLonger(s);
    }
  }

  lemma HeadIsNotLonger(s: string)
    requires s != ""
    ensures ByteLen([HeadChar(s)]) <= ByteLen(s[..Skip(s)])
  {
    if Skip(s) == 1 {
      assert s[..1] == [s[0]];
    } else {
      assert s[..2] == [s[0]] + [s[1]];
      BytesAdd([s[0]], [s[1]]);
      BytesOfOne(s[1]);
    }
  }

  lemma {:induction false} RestIsNotLonger<T>(pending: string, tally: Tally, handle: Handler<T>)
    ensures ByteLen(Drain(pending, tally, handle).rest) <= ByteLen(pending)
    decreases |pending|
  {
    var end := EventEnd(pending);
    if end != -1 {
      assert pending == pending[..end + 2] + pending[end + 2..];
      BytesAdd(pending[..end + 2], pending[end + 2..]);
      var h := HandleLines(Lines(pending[..end]), tally, handle);
      RestIsNotLonger(pending[end + 2..], h.tally, handle);
    }
  }

  // ------------------------------------------------------------------ the buffer

  lemma FedIsNotLonger<T>(st: Stream<T>, chunk: Piece, crlf: bool, handle: Handler<T>)
    requires chunk.Text?
    ensures ByteLen(Feed(st, chunk, crlf, handle).pending) <= ByteLen(st.pending) + ByteLen(chunk.text)
  {
    BytesAdd(st.pending, chunk.text);
    if !st.tally.done && !st.failed && ByteLen(st.pending + chunk.text) <= MAX_SSE_EVENT_BYTES {
      FedIsDrained(st, chunk, crlf, handle);
    }
  }

  lemma FedIsDrained<T>(st: Stream<T>, chunk: Piece, crlf: bool, handle: Handler<T>)
    requires chunk.Text? && !st.tally.done && !st.failed && ByteLen(st.pending + chunk.text) <= MAX_SSE_EVENT_BYTES
    ensures ByteLen(Feed(st, chunk, crlf, handle).pending) <= ByteLen(st.pending + chunk.text)
  {
    var pending := st.pending + chunk.text;
    NormalizedIsNotLonger(pending);
    RestIsNotLonger(if crlf then Normalize(pending) else pending, st.tally, handle);
  }

  lemma FedStaysBounded<T>(st: Stream<T>, chunk: Piece, crlf: bool, handle: Handler<T>)
    requires ByteLen(st.pending) <= 1_048_576
    ensures ByteLen(Feed(st, chunk, crlf, handle).pending) <= 1_048_576
  {
    if chunk.Text? && !st.tally.done && !st.failed && ByteLen(st.pending + chunk.text) <= MAX_SSE_EVENT_BYTES {
      FedIsDrained(st, chunk, crlf, handle);
    }
  }

  /** The buffer never holds more than a mebibyte. */
  lemma {:induction false} BufferIsBounded<T>(chunks: seq<Piece>, crlf: bool, handle: Handler<T>)
    ensures ByteLen(FeedAll(chunks, crlf, handle).pending) <= 1_048_576
  {
    if chunks != [] {
      var before := chunks[..|chunks| - 1];
      BufferIsBounded(before, crlf, handle);
      FedStaysBounded(FeedAll(before, crlf, handle), chunks[|chunks| - 1], crlf, handle);
    }
  }

  /** A loop that is reading gives up on its next chunk exactly when that is a transport error
      or makes the buffer too long, and then what it has sent stands. */
  lemma GivesUpExactlyWhen<T>(chunks: seq<Piece>, next: Piece, crlf: bool, handle: Handler<T>)
    requires !FeedAll(chunks, crlf, handle).failed && !FeedAll(chunks, crlf, handle).tally.done
    ensures var st, after := FeedAll(chunks, crlf, handle), FeedAll(chunks + [next], crlf, handle);
            && (after.failed <==> next.Broken? || ByteLen(st.pending) + ByteLen(next.text) > 1_048_576)
            && (after.failed ==> after.out == st.out && after.tally == st.tally)
  {
    assert (chunks + [next])[..|chunks|] == chunks;
    if next.Text? {
      BytesAdd(FeedAll(chunks, crlf, handle).pending, next.text);
    }
  }

  /** A short text without transport errors is always read through. */
  lemma {:induction false} ShortIsReadThrough<T>(texts: seq<string>, crlf: bool, handle: Handler<T>)
    requires ByteLen(Concat(texts)) <= 1_048_576
    ensures !FeedAll(AsPieces(texts), crlf, handle).failed
    ensures ByteLen(FeedAll(AsPieces(texts), crlf, handle).pending) <= ByteLen(Concat(texts))
  {
    if texts != [] {
      var before, last := texts[..|texts| - 1], texts[|texts| - 1];
      assert AsPieces(texts)[..|texts| - 1] == AsPieces(before);
      BytesAdd(Concat(before), last);
      ShortIsReadThrough(before, crlf, handle);
      var st := FeedAll(AsPieces(before), crlf, handle);
      BytesAdd(st.pending, last);
      FedIsNotLonger(st, AsPieces(texts)[|texts| - 1], crlf, handle);
    }
  }
}
