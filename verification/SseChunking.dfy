/**
 The translated events of a stream do not depend on how its text was cut into chunks, as
 long as no CR CR LF occurs in it and no buffer outgrew its cap.
 */
module SseChunking {
  import opened Sequences
  import opened Sse

  predicate CrCrLfAt(s: string, i: int) {
    0 <= i < |s| - 2 && s[i] == '\r' && s[i + 1] == '\r' && s[i + 2] == '\n'
  }

  ghost predicate NoCrCrLf(s: string) {
    forall i :: !CrCrLfAt(s, i)
  }

  function Concat(pieces: seq<string>): string {
    if pieces == [] then "" else Concat(pieces[..|pieces| - 1]) + pieces[|pieces| - 1]
  }

  function AsPieces(texts: seq<string>): seq<Piece> {
    seq(|texts|, i requires 0 <= i < |texts| => Text(texts[i]))
  }

  // ------------------------------------------------------------------ normalization

  lemma NoCrCrLfTail(s: string, k: nat)
    requires NoCrCrLf(s) && k <= |s|
    ensures NoCrCrLf(s[k..])
  {
    assert forall i :: CrCrLfAt(s[k..], i) ==> CrCrLfAt(s, i + k);
  }

  lemma NoCrCrLfHead(s: string, t: string)
    requires NoCrCrLf(s + t)
    ensures NoCrCrLf(s)
  {
    assert forall i :: CrCrLfAt(s, i) ==> CrCrLfAt(s + t, i);
  }

  lemma {:induction false} NormalizedHasNoCrLf(s: string)
    requires NoCrCrLf(s)
    ensures forall i :: !CrLfAt(Normalize(s), i)
  {
    if s != "" {
      var rest := Normalize(s[Skip(s)..]);
      NoCrCrLfTail(s, Skip(s));
      NormalizedHasNoCrLf(s[Skip(s)..]);
      assert forall i :: i > 0 && CrLfAt([HeadChar(s)] + rest, i) ==> CrLfAt(rest, i - 1);
      assert !CrCrLfAt(s, 0);
    }
  }

  lemma {:induction false} NormalizeFixed(s: string)
    requires forall i :: !CrLfAt(s, i)
    ensures Normalize(s) == s
  {
    if s != "" {
      assert forall i :: CrLfAt(s[1..], i) ==> CrLfAt(s, i + 1);
      NormalizeFixed(s[1..]);
      assert !CrLfAt(s, 0);
    }
  }

  lemma HeadOfConcat(c: string, y: string)
    requires c != "" && (c[|c| - 1] != '\r' || |c| > 1)
    ensures Skip(c + y) == Skip(c) && HeadChar(c + y) == HeadChar(c)
    ensures (c + y)[Skip(c)..] == c[Skip(c)..] + y
  {
  }

  /** Normalization splits after a character that is not CR. */
  lemma {:induction false} NormalizeSplits(c: string, y: string)
    requires c == "" || c[|c| - 1] != '\r'
    ensures Normalize(c + y) == Normalize(c) + Normalize(y)
  {
    if c == "" {
      assert c + y == y;
    } else {
      var tail := c[Skip(c)..];
      NormalizeSplits(tail, y);
      HeadOfConcat(c, y);
      NormalizeStep(c, tail);
      NormalizeStep(c + y, tail + y);
      Associative([HeadChar(c)], Normalize(tail), Normalize(y));
    }
  }

  /** Normalizing what is already read again, together with what follows, loses nothing:
      unless some CR CR LF turns into a CR LF of its own. */
  lemma {:induction false} NormalizeAgain(t: string, y: string)
    requires NoCrCrLf(t + y)
    ensures Normalize(Normalize(t) + y) == Normalize(t + y)
  {
    if |t| <= 1 {
      assert Normalize(t) == t;
    } else {
      var tail := t[Skip(t)..];
      HeadOfConcat(t, y);
      NoCrCrLfTail(t + y, Skip(t));
      NormalizeAgain(tail, y);
      assert !CrCrLfAt(t + y, 0);
      HeadStays(t, y);
      NormalizeStep(t, tail);
      NormalizeStep(t + y, tail + y);
      Associative([HeadChar(t)], Normalize(tail), y);
      assert ([HeadChar(t)] + (Normalize(tail) + y))[1..] == Normalize(tail) + y;
      NormalizeStep(Normalize(t) + y, Normalize(tail) + y);
    }
  }

  lemma HeadOfNormalized(u: string)
    requires u != ""
    ensures Normalize(u) != "" && Normalize(u)[0] == HeadChar(u)
  {
  }

  /** What a CR that stays is followed by, once normalized, is no LF. */
  lemma NoCrLfAppears(c: char, rest: string, y: string)
    requires c == '\r' ==> rest != "" && rest[0] != '\n'
    ensures HeadChar([c] + rest + y) == c && Skip([c] + rest + y) == 1
  {
    var s := [c] + rest + y;
    assert s[0] == c && (rest != "" ==> s[1] == rest[0]);
  }

  lemma HeadStays(t: string, y: string)
    requires |t| >= 2 && !CrCrLfAt(t + y, 0)
    ensures HeadChar(t + y) == HeadChar(t) && Skip(t + y) == Skip(t)
    ensures HeadChar(Normalize(t) + y) == HeadChar(t) && Skip(Normalize(t) + y) == 1
  {
    assert CrCrLfAt(t, 0) ==> CrCrLfAt(t + y, 0);
    var u := t[Skip(t)..];
    if HeadChar(t) == '\r' {
      HeadOfNormalized(u);
    }
    NormalizeStep(t, u);
    NoCrLfAppears(HeadChar(t), Normalize(u), y);
  }

  function CountCrLf(s: string): nat {
    if s == "" then 0 else Skip(s) - 1 + CountCrLf(s[Skip(s)..])
  }

  lemma {:induction false} NormalizedLength(s: string)
    ensures |Normalize(s)| + CountCrLf(s) == |s|
  {
    if s != "" {
      NormalizedLength(s[Skip(s)..]);
    }
  }

  lemma {:induction false} CrLfIsCounted(s: string, i: nat)
    requires CrLfAt(s, i)
    ensures CountCrLf(s) >= 1
  {
    if !CrLfAt(s, 0) {
      assert CrLfAt(s[1..], i - 1);
      CrLfIsCounted(s[1..], i - 1);
    }
  }

  /** A text ending in CR CR LF normalizes to one ending in CR LF. */
  lemma {:induction false} EndsInCrLf(s: string)
    requires |s| >= 3 && CrCrLfAt(s, |s| - 3)
    ensures |Normalize(s)| >= 2 && CrLfAt(Normalize(s), |Normalize(s)| - 2)
  {
    var tail := s[Skip(s)..];
    if |s| == 3 {
      assert tail == ['\r', '\n'] && tail[2..] == "";
      assert Normalize(tail) == ['\n'];
    } else {
      assert |tail| >= 3;
      assert CrCrLfAt(tail, |tail| - 3);
      EndsInCrLf(tail);
    }
  }

  /** Normalizing chunk by chunk gives the same text for every cut exactly when the text has
      no CR CR LF. */
  lemma NormalizationIgnoresCutsExactlyWhen(t: string)
    ensures (forall k :: 0 <= k <= |t| ==> CutAgrees(t, k)) <==> NoCrCrLf(t)
  {
    if NoCrCrLf(t) {
      forall k | 0 <= k <= |t|
        ensures CutAgrees(t, k)
      {
        assert t[..k] + t[k..] == t;
        NormalizeAgain(t[..k], t[k..]);
      }
    } else {
      var i :| CrCrLfAt(t, i);
      CutShows(t, i);
    }
  }

  /** Normalizing the first `k` characters on their own makes no difference. */
  predicate CutAgrees(t: string, k: nat)
    requires k <= |t|
  {
    Normalize(Normalize(t[..k]) + t[k..]) == Normalize(t)
  }

  lemma CutShows(t: string, i: nat)
    requires CrCrLfAt(t, i)
    ensures i + 3 <= |t| && !CutAgrees(t, i + 3)
  {
    var a, b := t[..i + 3], t[i + 3..];
    assert a + b == t;
    assert CrCrLfAt(a, |a| - 3);
    CutAfterCrCrLf(a, b);
  }

  lemma CutAfterCrCrLf(a: string, b: string)
    requires |a| >= 3 && CrCrLfAt(a, |a| - 3)
    ensures |Normalize(Normalize(a) + b)| < |Normalize(a + b)|
  {
    var n := Normalize(a);
    EndsInCrLf(a);
    NormalizeSplits(a, b);
    NormalizeSplits(n, b);
    NormalizedLength(n);
    CrLfIsCounted(n, |n| - 2);
  }

  // ------------------------------------------------------------------ draining

  /** The part of a buffer that a drain consumed. */
  function Consumed<T>(a: string, d: Drained<T>): string {
    if |d.rest| <= |a| then a[..|a| - |d.rest|] else a
  }

  /** A drain preceded by output already made. */
  function Then<T>(out: seq<T>, d: Drained<T>): Drained<T> {
    Drained(d.rest, d.tally, out + d.out)
  }

  /** A text that is one event and its blank line. */
  predicate IsEvent(first: string) {
    |first| >= 2 && EventEnd(first) == |first| - 2
  }

  lemma FirstEvent(a: string)
    requires EventEnd(a) != -1
    ensures var first := a[..EventEnd(a) + 2]; IsEvent(first) && a == first + a[EventEnd(a) + 2..]
  {
    var first := a[..EventEnd(a) + 2];
    EventEndIsFirst(a);
    EventEndIsFirst(first);
    assert first[EventEnd(a)] == a[EventEnd(a)] && first[EventEnd(a) + 1] == a[EventEnd(a) + 1];
    assert BlankLineAt(first, EventEnd(a));
    assert BlankLineAt(a, EventEnd(first));
  }

  /** A drain of a buffer that begins with an event handles that event and goes on behind it. */
  lemma DrainEvent<T>(first: string, w: string, t: Tally, handle: Handler<T>)
    requires IsEvent(first)
    ensures var h := HandleLines(Lines(first[..|first| - 2]), t, handle);
            Drain(first + w, t, handle) ==
            if h.tally.done then Drained(w, h.tally, h.out)
            else Then(h.out, Drain(w, h.tally, handle))
  {
    var end := |first| - 2;
    EventEndIsFirst(first);
    EventEndIsFirst(first + w);
    assert BlankLineAt(first + w, end);
    assert forall i :: i < end && BlankLineAt(first + w, i) ==> BlankLineAt(first, i);
    assert EventEnd(first + w) == end;
    assert (first + w)[..end] == first[..end] && (first + w)[end + 2..] == w;
  }

  lemma EventEndsInLf(first: string)
    requires IsEvent(first)
    ensures first[|first| - 1] == '\n'
  {
    EventEndIsFirst(first);
  }

  /** What DrainResumes says of a buffer `a` split into a consumed part `c` and the drain `d`. */
  ghost predicate Resumes<T>(a: string, c: string, d: Drained<T>, t: Tally, handle: Handler<T>, z: string) {
    && a == c + d.rest && (c == "" || c[|c| - 1] == '\n')
    && var e := Drain(c + z, t, handle);
       if d.tally.done then e.tally == d.tally && e.out == d.out
       else e == Then(d.out, Drain(z, d.tally, handle))
  }

  lemma ResumesBehindEvent<T>(first: string, tail: string, t: Tally, handle: Handler<T>, z: string, c: string,
                              d: Drained<T>)
    requires IsEvent(first)
    requires var h := HandleLines(Lines(first[..|first| - 2]), t, handle);
             !h.tally.done && d == Drain(tail, h.tally, handle) && Resumes(tail, c, d, h.tally, handle, z)
    ensures Resumes(first + tail, first + c, Drain(first + tail, t, handle), t, handle, z)
  {
    var h := HandleLines(Lines(first[..|first| - 2]), t, handle);
    DrainEvent(first, tail, t, handle);
    DrainEvent(first, c + z, t, handle);
    EventEndsInLf(first);
    Associative(first, c, z);
    Associative(first, c, d.rest);
    var rest := Drain(z, d.tally, handle);
    Associative(h.out, d.out, rest.out);
    assert Drain(first + tail, t, handle) == Then(h.out, d);
    assert !d.tally.done ==> Then(h.out, Then(d.out, rest)) == Then(h.out + d.out, rest);
  }

  /** A drain consumes whole events; whatever follows them, a later drain of the consumed part
      together with it starts out the same way. */
  lemma {:induction false} DrainResumes<T>(a: string, t: Tally, handle: Handler<T>, z: string)
    requires !t.done
    ensures var d := Drain(a, t, handle); Resumes(a, Consumed(a, d), d, t, handle, z)
    decreases |a|
  {
    var d := Drain(a, t, handle);
    if EventEnd(a) == -1 {
      assert Consumed(a, d) + z == z;
    } else {
      var first, tail := a[..EventEnd(a) + 2], a[EventEnd(a) + 2..];
      FirstEvent(a);
      var h := HandleLines(Lines(first[..|first| - 2]), t, handle);
      if h.tally.done {
        DrainEvent(first, tail, t, handle);
        DrainEvent(first, z, t, handle);
        EventEndsInLf(first);
        assert Consumed(a, d) == first;
      } else {
        DrainResumes(tail, h.tally, handle, z);
        var d' := Drain(tail, h.tally, handle);
        ResumesBehindEvent(first, tail, t, handle, z, Consumed(tail, d'), d');
        DrainEvent(first, tail, t, handle);
        assert Consumed(a, d) == first + Consumed(tail, d');
      }
    }
  }

  // ------------------------------------------------------------------ independence of the cuts

  lemma NormalizedPrefixIsFixed(t: string, c: string, rest: string)
    requires NoCrCrLf(t) && Normalize(t) == c + rest
    ensures Normalize(c) == c
  {
    NormalizedHasNoCrLf(t);
    assert forall i :: CrLfAt(c, i) ==> CrLfAt(c + rest, i);
    NormalizeFixed(c);
  }

  /** What follows the consumed part of a normalized text can be normalized on its own. */
  lemma NormalizeRest(t: string, y: string, c: string, rest: string)
    requires NoCrCrLf(t + y) && Normalize(t) == c + rest && (c == "" || c[|c| - 1] == '\n')
    ensures Normalize(t + y) == c + Normalize(rest + y)
  {
    NoCrCrLfHead(t, y);
    NormalizeAgain(t, y);
    assert Normalize(t) + y == c + (rest + y);
    NormalizeSplits(c, rest + y);
    NormalizedPrefixIsFixed(t, c, rest);
  }

  /** The loop over any cut of a text reaches what draining the whole normalized text at once
      reaches. */
  lemma {:induction false} LoopDrainsTheWhole<T>(texts: seq<string>, handle: Handler<T>)
    requires NoCrCrLf(Concat(texts)) && !FeedAll(AsPieces(texts), true, handle).failed
    ensures var st := FeedAll(AsPieces(texts), true, handle);
            var d := Drain(Normalize(Concat(texts)), START, handle);
            && st.tally == d.tally && st.out == d.out && (!st.tally.done ==> st.pending == d.rest)
  {
    if texts == [] {
      return;
    }
    var n := |texts| - 1;
    var before, y := texts[..n], texts[n];
    var t := Concat(before);
    assert AsPieces(texts)[..n] == AsPieces(before);
    NoCrCrLfHead(t, y);
    LoopDrainsTheWhole(before, handle);
    var d := Drain(Normalize(t), START, handle);
    var c := Consumed(Normalize(t), d);
    var z := Normalize(d.rest + y);
    DrainResumes(Normalize(t), START, handle, z);
    NormalizeRest(t, y, c, d.rest);
  }

  /** Two ways of cutting the same text into chunks give the same translated events, the same
      end of stream and the same token counts. */
  lemma ChunkingDoesNotMatter<T>(texts: seq<string>, others: seq<string>, handle: Handler<T>)
    requires Concat(texts) == Concat(others) && NoCrCrLf(Concat(texts))
    requires !FeedAll(AsPieces(texts), true, handle).failed
    requires !FeedAll(AsPieces(others), true, handle).failed
    ensures FeedAll(AsPieces(texts), true, handle).out == FeedAll(AsPieces(others), true, handle).out
    ensures FeedAll(AsPieces(texts), true, handle).tally == FeedAll(AsPieces(others), true, handle).tally
  {
    LoopDrainsTheWhole(texts, handle);
    LoopDrainsTheWhole(others, handle);
  }
}
