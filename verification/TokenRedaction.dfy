/**
 Redaction of credentials with a known prefix (src/tools/mod.rs). Every byte the scanner
 looks for is ASCII, so it is modelled on characters.
 */
module TokenRedaction {
  import opened Wrappers
  import opened Sequences
  import opened TextPieces

  // ------------------------------------------------------------------ what is looked for

  function Lower(c: char): char {
    if 'A' <= c <= 'Z' then c - 'A' + 'a' else c
  }

  predicate TokenChar(c: char) {
    IsAlphabetic(c) || IsDigit(c) || c == '_' || c == '-' || c == '.' || c == '/' || c == '+' || c == '='
  }

  /** A text occurs at the start of another, in any ASCII case. */
  predicate Heads(s: string, prefix: string) {
    |prefix| <= |s| && forall i :: 0 <= i < |prefix| ==> Lower(s[i]) == prefix[i]
  }

  // ------------------------------------------------------------------ tokens

  const SECRET_KEYS: seq<string> := ["sk-proj-", "sk-ant-", "sk-", "sk_"]
  const GITHUB_TOKENS: seq<string> := ["ghp_", "gho_", "ghu_", "ghs_", "github_pat_"]
  const REGISTRY_TOKENS: seq<string> := ["glpat-", "hf_", "npm_", "pypi-"]
  const CHAT_AND_CLOUD_TOKENS: seq<string> := ["xoxb-", "xoxp-", "xoxa-", "xoxr-", "akia", "aiza", "ya29."]

  const PREFIXES: seq<string> := SECRET_KEYS + GITHUB_TOKENS + REGISTRY_TOKENS + CHAT_AND_CLOUD_TOKENS

  const TOKEN_MARK := "[REDACTED]"

  /** The length of the first listed prefix at the start of a text, or zero. */
  function PrefixAt(s: string, prefixes: seq<string>): (n: nat)
    ensures n <= |s|
  {
    if prefixes == [] then 0
    else if prefixes[0] != "" && Heads(s, prefixes[0]) then |prefixes[0]|
    else PrefixAt(s, prefixes[1..])
  }

  /** Where the token characters from a position on end. */
  function TokenEnd(s: string, from: nat): (end: nat)
    requires from <= |s|
    ensures from <= end <= |s|
    decreases |s| - from
  {
    if from < |s| && TokenChar(s[from]) then TokenEnd(s, from + 1) else from
  }

  lemma {:induction false} PrefixAtMeans(s: string, prefixes: seq<string>)
    ensures PrefixAt(s, prefixes) > 0 ==> exists p :: p in prefixes && |p| == PrefixAt(s, prefixes) && Heads(s, p)
    ensures PrefixAt(s, prefixes) == 0 <==> forall p :: p in prefixes && p != "" ==> !Heads(s, p)
  {
    if prefixes != [] {
      PrefixAtMeans(s, prefixes[1..]);
      assert forall p :: p in prefixes <==> p == prefixes[0] || p in prefixes[1..];
    }
  }

  lemma {:induction false} TokenEndMeans(s: string, from: nat)
    requires from <= |s|
    ensures forall i :: from <= i < TokenEnd(s, from) ==> TokenChar(s[i])
    ensures TokenEnd(s, from) < |s| ==> !TokenChar(s[TokenEnd(s, from)])
    decreases |s| - from
  {
    if from < |s| && TokenChar(s[from]) {
      TokenEndMeans(s, from + 1);
    }
  }

  function TokensHidden(s: string, prefixes: seq<string>): string {
    if s == "" then ""
    else
      var n := PrefixAt(s, prefixes);
      if n > 0 then TOKEN_MARK + TokensHidden(s[TokenEnd(s, n)..], prefixes)
      else [s[0]] + TokensHidden(s[1..], prefixes)
  }

  /** No listed prefix occurs anywhere, in any case. */
  predicate NoToken(s: string, prefixes: seq<string>) {
    s == "" || (PrefixAt(s, prefixes) == 0 && NoToken(s[1..], prefixes))
  }

  lemma {:induction false} NoTokenMeans(s: string, prefixes: seq<string>, i: nat, p: string)
    requires NoToken(s, prefixes) && i <= |s| && p in prefixes && p != ""
    ensures !Heads(s[i..], p)
  {
    if i == 0 {
      assert s[0..] == s;
      PrefixAtMeans(s, prefixes);
    } else {
      NoTokenMeans(s[1..], prefixes, i - 1, p);
      assert s[1..][i - 1..] == s[i..];
    }
  }

  /** The prefixes avoid the brackets of the mark. */
  predicate Unbracketed(prefixes: seq<string>) {
    forall p :: p in prefixes ==> '[' !in p && ']' !in p
  }

  lemma KeptStep(s: string, prefixes: seq<string>)
    requires s != "" && PrefixAt(s, prefixes) == 0
    ensures TokensHidden(s, prefixes) == [s[0]] + TokensHidden(s[1..], prefixes)
  {
  }

  lemma RemovedStep(s: string, prefixes: seq<string>, end: nat)
    requires s != "" && PrefixAt(s, prefixes) > 0 && end == TokenEnd(s, PrefixAt(s, prefixes))
    ensures TokensHidden(s, prefixes) == TOKEN_MARK + TokensHidden(s[end..], prefixes)
  {
  }

  lemma MarkedStep(s: string, prefixes: seq<string>)
    requires s != "" && PrefixAt(s, prefixes) > 0
    ensures TokensHidden(s, prefixes) != "" && TokensHidden(s, prefixes)[0] == '['
  {
  }

  /** Up to a mark the output is the input. */
  lemma {:induction false} OutputStartsAsInput(s: string, prefixes: seq<string>, out: string, n: nat)
    requires out == TokensHidden(s, prefixes) && n <= |out| && forall i :: 0 <= i < n ==> out[i] != '['
    ensures Agree(out, s, n)
  {
    if n > 0 && s != "" {
      if PrefixAt(s, prefixes) > 0 {
        MarkedStep(s, prefixes);
      } else {
        KeptStep(s, prefixes);
        var rest := TokensHidden(s[1..], prefixes);
        assert forall i :: 0 <= i < n - 1 ==> rest[i] == out[i + 1];
        OutputStartsAsInput(s[1..], prefixes, rest, n - 1);
        AgreeOnMore(s[0], rest, s[1..], n - 1);
        assert s == [s[0]] + s[1..];
      }
    }
  }

  lemma HeadsAvoids(s: string, p: string, c: char)
    requires Heads(s, p) && c !in p && Lower(c) == c
    ensures forall i :: 0 <= i < |p| ==> s[i] != c
  {
  }

  lemma HeadsCarriesOver(s: string, t: string, p: string)
    requires Heads(s, p) && Agree(s, t, |p|)
    ensures Heads(t, p)
  {
  }

  lemma HeadOfOutput(s: string, prefixes: seq<string>, p: string)
    requires Heads(TokensHidden(s, prefixes), p) && '[' !in p
    ensures Heads(s, p)
  {
    var out := TokensHidden(s, prefixes);
    HeadsAvoids(out, p, '[');
    OutputStartsAsInput(s, prefixes, out, |p|);
    HeadsCarriesOver(out, s, p);
  }

  lemma HeadOfOutputIsClean(s: string, prefixes: seq<string>)
    requires PrefixAt(s, prefixes) == 0 && Unbracketed(prefixes)
    ensures PrefixAt(TokensHidden(s, prefixes), prefixes) == 0
  {
    PrefixAtMeans(s, prefixes);
    PrefixAtMeans(TokensHidden(s, prefixes), prefixes);
    forall p | p in prefixes && p != ""
      ensures Heads(TokensHidden(s, prefixes), p) ==> Heads(s, p)
    {
      if Heads(TokensHidden(s, prefixes), p) {
        HeadOfOutput(s, prefixes, p);
      }
    }
  }

  /** A text of which no part can start a prefix stays clean in front of a clean one. */
  lemma {:induction false} MarkIsClean(mark: string, rest: string, prefixes: seq<string>)
    requires forall i :: 0 <= i < |mark| ==> PrefixAt(mark[i..] + rest, prefixes) == 0
    requires NoToken(rest, prefixes)
    ensures NoToken(mark + rest, prefixes)
  {
    if mark == "" {
      assert mark + rest == rest;
    } else {
      assert mark[0..] == mark;
      forall i | 0 <= i < |mark[1..]|
        ensures PrefixAt(mark[1..][i..] + rest, prefixes) == 0
      {
        assert mark[1..][i..] == mark[i + 1..];
      }
      MarkIsClean(mark[1..], rest, prefixes);
      assert (mark + rest)[1..] == mark[1..] + rest;
    }
  }

  /** No prefix starts inside the mark: none fits before its closing bracket. */
  predicate Apart(mark: string, prefixes: seq<string>) {
    && mark != "" && mark[|mark| - 1] == ']'
    && forall p, i :: p in prefixes && p != "" && 0 <= i < |mark| ==> !Heads(mark[i..], p)
  }

  lemma HeadsWithinMark(mark: string, rest: string, p: string)
    requires mark != "" && mark[|mark| - 1] == ']' && ']' !in p && Heads(mark + rest, p)
    ensures Heads(mark, p)
  {
    HeadsAvoids(mark + rest, p, ']');
    assert (mark + rest)[|mark| - 1] == ']';
    assert Agree(mark + rest, mark, |p|);
    HeadsCarriesOver(mark + rest, mark, p);
  }

  lemma MarkStaysApart(mark: string, rest: string, prefixes: seq<string>, i: nat)
    requires Apart(mark, prefixes) && Unbracketed(prefixes) && i < |mark|
    ensures PrefixAt(mark[i..] + rest, prefixes) == 0
  {
    assert mark[i..][|mark[i..]| - 1] == ']';
    PrefixAtMeans(mark[i..] + rest, prefixes);
    forall p | p in prefixes && p != ""
      ensures Heads(mark[i..] + rest, p) ==> Heads(mark[i..], p)
    {
      if Heads(mark[i..] + rest, p) {
        HeadsWithinMark(mark[i..], rest, p);
      }
    }
  }

  lemma {:induction false} NoTokenSurvives(s: string, prefixes: seq<string>)
    requires Unbracketed(prefixes) && Apart(TOKEN_MARK, prefixes)
    ensures NoToken(TokensHidden(s, prefixes), prefixes)
    decreases |s|
  {
    if s != "" {
      var n := PrefixAt(s, prefixes);
      if n > 0 {
        var rest := TokensHidden(s[TokenEnd(s, n)..], prefixes);
        NoTokenSurvives(s[TokenEnd(s, n)..], prefixes);
        forall i | 0 <= i < |TOKEN_MARK|
          ensures PrefixAt(TOKEN_MARK[i..] + rest, prefixes) == 0
        {
          MarkStaysApart(TOKEN_MARK, rest, prefixes, i);
        }
        MarkIsClean(TOKEN_MARK, rest, prefixes);
      } else {
        NoTokenSurvives(s[1..], prefixes);
        HeadOfOutputIsClean(s, prefixes);
        HeadAndTail([s[0]], TokensHidden(s[1..], prefixes));
      }
    }
  }

  lemma {:induction false} CleanTextIsKept(s: string, prefixes: seq<string>)
    requires NoToken(s, prefixes)
    ensures TokensHidden(s, prefixes) == s
  {
    if s != "" {
      CleanTextIsKept(s[1..], prefixes);
      HeadAndTail([s[0]], s[1..]);
    }
  }

  /** Enough for a prefix to keep clear of the mark: it has no bracket, and the two letters it
      starts with do not occur next to each other in the mark. */
  predicate KeepsClear(p: string) {
    |p| >= 2 && '[' !in p && ']' !in p && p[0] in "sghnpxay" && p[1] != 'c'
  }

  lemma ListedPrefixesKeepClear(p: string)
    ensures p in SECRET_KEYS ==> KeepsClear(p)
    ensures p in GITHUB_TOKENS ==> KeepsClear(p)
    ensures p in REGISTRY_TOKENS ==> KeepsClear(p)
  {
  }

  lemma OtherPrefixesKeepClear(p: string)
    ensures p in CHAT_AND_CLOUD_TOKENS ==> KeepsClear(p)
  {
  }

  lemma KeepingClearIsApart(p: string, i: nat)
    requires KeepsClear(p) && i < |TOKEN_MARK|
    ensures !Heads(TOKEN_MARK[i..], p)
  {
  }

  /** The listed prefixes keep clear of the mark. */
  lemma PrefixesAreApart()
    ensures Unbracketed(PREFIXES) && Apart(TOKEN_MARK, PREFIXES)
  {
    forall p | p in PREFIXES
      ensures KeepsClear(p)
    {
      ListedPrefixesKeepClear(p);
      OtherPrefixesKeepClear(p);
    }
    forall p, i | p in PREFIXES && p != "" && 0 <= i < |TOKEN_MARK|
      ensures !Heads(TOKEN_MARK[i..], p)
    {
      KeepingClearIsApart(p, i);
    }
  }

  /** The output holds no listed prefix, in any case and at any place. */
  lemma TokensAreGone(line: string, p: string, i: nat)
    requires p in PREFIXES && p != "" && i <= |TokensHidden(line, PREFIXES)|
    ensures !Heads(TokensHidden(line, PREFIXES)[i..], p)
  {
    PrefixesAreApart();
    NoTokenSurvives(line, PREFIXES);
    NoTokenMeans(TokensHidden(line, PREFIXES), PREFIXES, i, p);
  }

  /** Redacting tokens twice is redacting them once. */
  lemma TokenRedactionIsIdempotent(line: string)
    ensures TokensHidden(TokensHidden(line, PREFIXES), PREFIXES) == TokensHidden(line, PREFIXES)
  {
    PrefixesAreApart();
    NoTokenSurvives(line, PREFIXES);
    CleanTextIsKept(TokensHidden(line, PREFIXES), PREFIXES);
  }

  // ------------------------------------------------------------------ what is kept

  /** A prefix and the token characters after it. */
  predicate IsToken(text: string, prefixes: seq<string>) {
    exists p :: p in prefixes && 0 < |p| <= |text| && Heads(text, p) && forall i :: |p| <= i < |text| ==> TokenChar(text[i])
  }

  /** Every piece removed is a token, and as long as it can be. */
  predicate TokensCut(pieces: seq<Piece>, prefixes: seq<string>) {
    pieces == []
    || (TokensCut(pieces[1..], prefixes)
        && (pieces[0].Removed? ==> IsToken(pieces[0].text, prefixes))
        && (pieces[0].Removed? && |pieces| > 1 ==> pieces[1].text != "" && !TokenChar(pieces[1].text[0])))
  }

  function TokenPieces(s: string, prefixes: seq<string>): seq<Piece>
    decreases |s|
  {
    if s == "" then []
    else
      var n := PrefixAt(s, prefixes);
      if n > 0 then [Removed(s[..TokenEnd(s, n)])] + TokenPieces(s[TokenEnd(s, n)..], prefixes)
      else [Kept([s[0]])] + TokenPieces(s[1..], prefixes)
  }

  lemma FirstTokenPiece(s: string, prefixes: seq<string>)
    ensures TokenPieces(s, prefixes) == [] <==> s == ""
    ensures s != "" ==> TokenPieces(s, prefixes)[0].text != "" && TokenPieces(s, prefixes)[0].text[0] == s[0]
  {
  }

  lemma CutIsToken(s: string, prefixes: seq<string>)
    requires PrefixAt(s, prefixes) > 0
    ensures IsToken(s[..TokenEnd(s, PrefixAt(s, prefixes))], prefixes)
  {
    var n := PrefixAt(s, prefixes);
    var text := s[..TokenEnd(s, n)];
    PrefixAtMeans(s, prefixes);
    TokenEndMeans(s, n);
    var p :| p in prefixes && |p| == n && Heads(s, p);
    assert Heads(text, p);
    assert forall i :: n <= i < |text| ==> text[i] == s[i] && TokenChar(s[i]);
  }

  lemma RemovedPieceStep(s: string, prefixes: seq<string>, end: nat)
    requires s != "" && PrefixAt(s, prefixes) > 0 && end == TokenEnd(s, PrefixAt(s, prefixes))
    ensures TokenPieces(s, prefixes) == [Removed(s[..end])] + TokenPieces(s[end..], prefixes)
  {
  }

  lemma KeptPieceStep(s: string, prefixes: seq<string>)
    requires s != "" && PrefixAt(s, prefixes) == 0
    ensures TokenPieces(s, prefixes) == [Kept([s[0]])] + TokenPieces(s[1..], prefixes)
  {
  }

  /** Only tokens are removed; everything else survives, in order. */
  lemma {:induction false} OnlyTokensAreRemoved(s: string, prefixes: seq<string>)
    ensures Joined(TokenPieces(s, prefixes)) == s
    ensures Rendered(TokenPieces(s, prefixes), TOKEN_MARK) == TokensHidden(s, prefixes)
    decreases |s|
  {
    if s != "" {
      if PrefixAt(s, prefixes) > 0 {
        var end := TokenEnd(s, PrefixAt(s, prefixes));
        RemovedPieceStep(s, prefixes, end);
        RemovedStep(s, prefixes, end);
        assert s == s[..end] + s[end..];
        OnlyTokensAreRemoved(s[end..], prefixes);
        ConsPiece(Removed(s[..end]), TokenPieces(s[end..], prefixes), TOKEN_MARK);
      } else {
        KeptPieceStep(s, prefixes);
        KeptStep(s, prefixes);
        assert s == [s[0]] + s[1..];
        OnlyTokensAreRemoved(s[1..], prefixes);
        ConsPiece(Kept([s[0]]), TokenPieces(s[1..], prefixes), TOKEN_MARK);
      }
    }
  }

  /** What is removed is tokens, each whole. */
  lemma {:induction false} WholeTokensAreRemoved(s: string, prefixes: seq<string>)
    ensures TokensCut(TokenPieces(s, prefixes), prefixes)
    decreases |s|
  {
    if s != "" {
      if PrefixAt(s, prefixes) > 0 {
        var end := TokenEnd(s, PrefixAt(s, prefixes));
        RemovedPieceStep(s, prefixes, end);
        WholeTokensAreRemoved(s[end..], prefixes);
        FirstTokenPiece(s[end..], prefixes);
        TokenEndMeans(s, PrefixAt(s, prefixes));
        CutIsToken(s, prefixes);
        HeadAndTail([Removed(s[..end])], TokenPieces(s[end..], prefixes));
      } else {
        KeptPieceStep(s, prefixes);
        WholeTokensAreRemoved(s[1..], prefixes);
        HeadAndTail([Kept([s[0]])], TokenPieces(s[1..], prefixes));
      }
    }
  }

  // ------------------------------------------------------------------ the scanner

  /** The leftmost occurrence of a prefix from a position on, in any ASCII case. */
  method Find(line: string, from: nat, prefix: string) returns (at: Option<nat>)
    requires from <= |line|
    ensures at.Some? ==> from <= at.value <= |line| && Heads(line[at.value..], prefix)
                         && forall i :: from <= i < at.value ==> !Heads(line[i..], prefix)
    ensures at.None? ==> forall i :: from <= i <= |line| ==> !Heads(line[i..], prefix)
  {
    var i := from;
    while i <= |line|
      invariant from <= i <= |line| + 1
      invariant forall j :: from <= j < i ==> !Heads(line[j..], prefix)
    {
      if Heads(line[i..], prefix) {
        return Some(i);
      }
      i := i + 1;
    }
    return None;
  }

  lemma {:induction false} PrefixAtAppend(s: string, prefixes: seq<string>, p: string)
    requires p != ""
    ensures PrefixAt(s, prefixes + [p]) ==
            if PrefixAt(s, prefixes) > 0 then PrefixAt(s, prefixes) else if Heads(s, p) then |p| else 0
  {
    if prefixes == [] {
      assert prefixes + [p] == [p];
    } else {
      HeadAndTail(prefixes, [p]);
      PrefixAtAppend(s, prefixes[1..], p);
    }
  }

  /** Where the first prefix stands, and how long it is; of several at one place, the first listed. */
  predicate IsFirst(line: string, cursor: nat, prefixes: seq<string>, start: nat, length: nat)
    requires cursor <= |line|
  {
    if length == 0 then forall i :: cursor <= i <= |line| ==> PrefixAt(line[i..], prefixes) == 0
    else cursor <= start <= |line| && PrefixAt(line[start..], prefixes) == length
         && forall i :: cursor <= i < start ==> PrefixAt(line[i..], prefixes) == 0
  }

  lemma FirstOfMore(line: string, cursor: nat, prefixes: seq<string>, start: nat, length: nat, p: string,
                    at: Option<nat>)
    requires cursor <= |line| && p != "" && IsFirst(line, cursor, prefixes, start, length)
    requires at.Some? ==> cursor <= at.value <= |line| && Heads(line[at.value..], p)
                          && forall i :: cursor <= i < at.value ==> !Heads(line[i..], p)
    requires at.None? ==> forall i :: cursor <= i <= |line| ==> !Heads(line[i..], p)
    ensures var earlier := at.Some? && (length == 0 || at.value < start);
            IsFirst(line, cursor, prefixes + [p], if earlier then at.value else start, if earlier then |p| else length)
  {
    forall i | cursor <= i <= |line|
      ensures PrefixAt(line[i..], prefixes + [p]) ==
              if PrefixAt(line[i..], prefixes) > 0 then PrefixAt(line[i..], prefixes)
              else if Heads(line[i..], p) then |p| else 0
    {
      PrefixAtAppend(line[i..], prefixes, p);
    }
  }

  method FindFirst(line: string, cursor: nat, prefixes: seq<string>) returns (start: nat, length: nat)
    requires cursor <= |line| && "" !in prefixes
    ensures IsFirst(line, cursor, prefixes, start, length)
  {
    start, length := cursor, 0;
    var k := 0;
    while k < |prefixes|
      invariant k <= |prefixes|
      invariant IsFirst(line, cursor, prefixes[..k], start, length)
    {
      var p := prefixes[k];
      var at := Find(line, cursor, p);
      FirstOfMore(line, cursor, prefixes[..k], start, length, p, at);
      assert prefixes[..k + 1] == prefixes[..k] + [p];
      if at.Some? && (length == 0 || at.value < start) {
        start, length := at.value, |p|;
      }
      k := k + 1;
    }
    assert prefixes[..k] == prefixes;
  }

  /** Redaction, as the scanner's proof knows it. */
  ghost predicate Hides(hidden: string -> string, prefixes: seq<string>, mark: string) {
    mark == TOKEN_MARK && forall s {:trigger TokensHidden(s, prefixes)} :: hidden(s) == TokensHidden(s, prefixes)
  }

  lemma OneKept(hidden: string -> string, prefixes: seq<string>, mark: string, line: string, from: nat)
    requires Hides(hidden, prefixes, mark) && from < |line| && PrefixAt(line[from..], prefixes) == 0
    ensures hidden(line[from..]) == [line[from]] + hidden(line[from + 1..])
  {
    var s := line[from..];
    KeptStep(s, prefixes);
    assert hidden(s) == TokensHidden(s, prefixes) && hidden(s[1..]) == TokensHidden(s[1..], prefixes);
    TailOfTail(line, from, 1);
  }

  lemma OneRemoved(hidden: string -> string, prefixes: seq<string>, mark: string, s: string, end: nat)
    requires Hides(hidden, prefixes, mark)
    requires PrefixAt(s, prefixes) > 0 && end == TokenEnd(s, PrefixAt(s, prefixes))
    ensures hidden(s) == mark + hidden(s[end..])
  {
    RemovedStep(s, prefixes, end);
    assert hidden(s) == TokensHidden(s, prefixes) && hidden(s[end..]) == TokensHidden(s[end..], prefixes);
  }

  lemma {:induction false} SkipTo(hidden: string -> string, prefixes: seq<string>, mark: string, line: string,
                                  from: nat, start: nat)
    requires Hides(hidden, prefixes, mark)
    requires from <= start <= |line| && forall i :: from <= i < start ==> PrefixAt(line[i..], prefixes) == 0
    ensures hidden(line[from..]) == line[from..start] + hidden(line[start..])
    decreases start - from
  {
    if from == start {
      assert line[from..start] == "";
    } else {
      SkipTo(hidden, prefixes, mark, line, from + 1, start);
      OneKept(hidden, prefixes, mark, line, from);
      assert line[from..start] == [line[from]] + line[from + 1..start];
      Associative([line[from]], line[from + 1..start], hidden(line[start..]));
    }
  }

  lemma {:induction false} TokenEndShift(line: string, start: nat, from: nat)
    requires start + from <= |line|
    ensures TokenEnd(line[start..], from) == TokenEnd(line, start + from) - start
    decreases |line| - from
  {
    if start + from < |line| {
      assert line[start..][from] == line[start + from];
      if TokenChar(line[start + from]) {
        TokenEndShift(line, start, from + 1);
      }
    }
  }

  /** What is hidden from a cursor on, when the first token after it stands at `start`. */
  lemma HiddenFrom(hidden: string -> string, prefixes: seq<string>, mark: string, line: string, cursor: nat,
                   start: nat, length: nat, end: nat)
    requires Hides(hidden, prefixes, mark)
    requires cursor <= |line| && length > 0 && IsFirst(line, cursor, prefixes, start, length)
    requires start + length <= |line| && end == TokenEnd(line, start + length)
    ensures hidden(line[cursor..]) == line[cursor..start] + (mark + hidden(line[end..]))
  {
    SkipTo(hidden, prefixes, mark, line, cursor, start);
    TokenEndShift(line, start, length);
    OneRemoved(hidden, prefixes, mark, line[start..], end - start);
    TailOfTail(line, start, end - start);
  }

  method SkipToken(line: string, from: nat) returns (end: nat)
    requires from <= |line|
    ensures end == TokenEnd(line, from)
  {
    end := from;
    while end < |line| && TokenChar(line[end])
      invariant from <= end <= |line| && TokenEnd(line, end) == TokenEnd(line, from)
    {
      end := end + 1;
    }
  }

  lemma FirstIsInside(line: string, prefixes: seq<string>, cursor: nat, start: nat, length: nat)
    requires cursor <= |line| && length > 0 && IsFirst(line, cursor, prefixes, start, length)
    ensures cursor <= start && start + length <= |line|
  {
  }

  lemma NothingMore(hidden: string -> string, prefixes: seq<string>, mark: string, line: string, cursor: nat)
    requires Hides(hidden, prefixes, mark) && cursor <= |line|
    requires forall i :: cursor <= i < |line| ==> PrefixAt(line[i..], prefixes) == 0
    ensures hidden(line[cursor..]) == line[cursor..]
  {
    SkipTo(hidden, prefixes, mark, line, cursor, |line|);
    assert line[|line|..] == "" && line[cursor..|line|] == line[cursor..];
    assert hidden("") == TokensHidden("", prefixes);
  }

  method HidePrefixed(line: string, prefixes: seq<string>, mark: string, ghost hidden: string -> string)
    returns (output: string)
    requires "" !in prefixes && Hides(hidden, prefixes, mark)
    ensures output == hidden(line)
  {
    output := "";
    var cursor: nat := 0;
    assert line[0..] == line;
    while cursor < |line|
      invariant cursor <= |line|
      invariant output + hidden(line[cursor..]) == hidden(line)
    {
      var start, length := FindFirst(line, cursor, prefixes);
      if length == 0 {
        NothingMore(hidden, prefixes, mark, line, cursor);
        output := output + line[cursor..];
        return;
      }
      FirstIsInside(line, prefixes, cursor, start, length);
      var end := SkipToken(line, start + length);
      HiddenFrom(hidden, prefixes, mark, line, cursor, start, length, end);
      Regroup(output, line[cursor..start], mark, hidden(line[end..]));
      output := output + line[cursor..start];
      output := output + mark;
      cursor := end;
    }
    NothingMore(hidden, prefixes, mark, line, cursor);
  }

  lemma Regroup(a: string, b: string, c: string, d: string)
    ensures a + (b + (c + d)) == a + b + c + d
  {
  }

  lemma HeadsMeansOccurs(s: string, i: nat, p: string)
    requires i <= |s| && forall k :: 0 <= k < |p| ==> !('A' <= p[k] <= 'Z')
    ensures Heads(s[i..], p) <==> OccursAt(s, i, p)
  {
    forall k | 0 <= k < |p| && i + |p| <= |s|
      ensures Lower(s[i..][k]) == p[k] <==> SameLetter(s[i + k], p[k])
    {
    }
  }

  /** The prefixes that tokens are known by. */
  lemma KnownPrefixesAreListed(p: string)
    requires p in {"sk-proj-", "sk-ant-", "sk-", "sk_", "ghp_", "gho_", "ghu_", "ghs_", "github_pat_", "glpat-",
                   "hf_", "npm_", "pypi-", "xoxb-", "xoxp-", "xoxa-", "xoxr-", "akia", "aiza", "ya29."}
    ensures p in PREFIXES && p != "" && forall k :: 0 <= k < |p| ==> !('A' <= p[k] <= 'Z')
  {
  }

  /** What a token is made of: letters, digits and `_-./+=`. */
  predicate InToken(c: char) {
    || 'a' <= c <= 'z' || 'A' <= c <= 'Z' || '0' <= c <= '9'
    || c in {'_', '-', '.', '/', '+', '='}
  }

  lemma {:induction false} TokenEndIs(s: string, from: nat, end: nat)
    requires from <= end <= |s| && (forall i :: from <= i < end ==> InToken(s[i]))
    requires end < |s| ==> !InToken(s[end])
    ensures TokenEnd(s, from) == end
    decreases end - from
  {
    if from < end {
      TokenEndIs(s, from + 1, end);
    }
  }

  lemma {:induction false} PrefixStaysInside(s: string, prefixes: seq<string>, end: nat)
    requires end < |s| && !InToken(s[end]) && forall p, k :: p in prefixes && 0 <= k < |p| ==> InToken(p[k])
    ensures PrefixAt(s, prefixes) <= end
  {
    if prefixes != [] {
      PrefixStaysInside(s, prefixes[1..], end);
    }
  }

  lemma PrefixesAreInToken(p: string, k: nat)
    requires p in PREFIXES && k < |p|
    ensures InToken(p[k])
  {
  }

  /** A token is hidden whole, and nothing of what follows it. */
  lemma TokenIsHiddenWhole(prefix: string, token: string, rest: string)
    requires prefix in {"sk-proj-", "sk-ant-", "sk-", "sk_", "ghp_", "gho_", "ghu_", "ghs_", "github_pat_", "glpat-",
                        "hf_", "npm_", "pypi-", "xoxb-", "xoxp-", "xoxa-", "xoxr-", "akia", "aiza", "ya29."}
    requires OccursAt(token, 0, prefix) && forall i :: 0 <= i < |token| ==> InToken(token[i])
    requires rest != "" ==> !InToken(rest[0])
    ensures TokensHidden(token + rest, PREFIXES) == "[REDACTED]" + TokensHidden(rest, PREFIXES)
  {
    KnownPrefixesAreListed(prefix);
    var s := token + rest;
    assert OccursAt(s, 0, prefix);
    HeadsMeansOccurs(s, 0, prefix);
    assert s[0..] == s;
    PrefixAtMeans(s, PREFIXES);
    forall p, k | p in PREFIXES && 0 <= k < |p|
      ensures InToken(p[k])
    {
      PrefixesAreInToken(p, k);
    }
    if rest != "" {
      PrefixStaysInside(s, PREFIXES, |token|);
    }
    TokenEndIs(s, PrefixAt(s, PREFIXES), |token|);
    RemovedStep(s, PREFIXES, |token|);
    assert s[|token|..] == rest;
  }

  /** Afterwards no known prefix occurs at any place, in any ASCII case. */
  method RedactPrefixedTokens(line: string) returns (output: string)
    ensures output == TokensHidden(line, PREFIXES)
    ensures forall p, i: nat ::
              p in {"sk-proj-", "sk-ant-", "sk-", "sk_", "ghp_", "gho_", "ghu_", "ghs_", "github_pat_", "glpat-",
                    "hf_", "npm_", "pypi-", "xoxb-", "xoxp-", "xoxa-", "xoxr-", "akia", "aiza", "ya29."} ==>
                !OccursAt(output, i, p)
  {
    forall p, i: nat | p in {"sk-proj-", "sk-ant-", "sk-", "sk_", "ghp_", "gho_", "ghu_", "ghs_", "github_pat_",
                             "glpat-", "hf_", "npm_", "pypi-", "xoxb-", "xoxp-", "xoxa-", "xoxr-", "akia", "aiza", "ya29."}
      ensures !OccursAt(TokensHidden(line, PREFIXES), i, p)
    {
      KnownPrefixesAreListed(p);
      if i <= |TokensHidden(line, PREFIXES)| {
        TokensAreGone(line, p, i);
        HeadsMeansOccurs(TokensHidden(line, PREFIXES), i, p);
      }
    }
    PrefixesAreNotEmpty();
    ghost var hidden := (s: string) => TokensHidden(s, PREFIXES);
    output := HidePrefixed(line, PREFIXES, TOKEN_MARK, hidden);
  }

  lemma PrefixesAreNotEmpty()
    ensures "" !in PREFIXES
  {
  }
}
